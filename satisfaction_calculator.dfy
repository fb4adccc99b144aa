/** Scoring of a booking placed in a room (calculateSatisfaction) and the
    revenue that score earns (calculateRevenue). */
module SatisfactionCalculator {
  import opened Types
  import opened Text
  import opened Lists

  /** The items installed in the room: those whose id the room lists. */
  function RoomItems(room: Room, items: seq<Item>): (r: seq<Item>)
    ensures forall it :: it in r <==> it in items && it.id in room.items
  {
    var inRoom := (it: Item) => it.id in room.items;
    forall it ensures it in Filter(items, inRoom) <==> it in items && it.id in room.items {
      FilterMember(items, inRoom, it);
    }
    Filter(items, inRoom)
  }

  /** A tag is met by an item when it is a substring of the item's type or name. */
  predicate Meets(it: Item, tag: string) {
    Includes(ItemTypeName(it.itemType), tag) || Includes(it.name, tag)
  }

  /** `roomItems.some(item => ...)` */
  predicate SomeItemMeets(roomItems: seq<Item>, tag: string) {
    exists it :: it in roomItems && Meets(it, tag)
  }

  /** The requirement tags met by at least one of the room's items, in order. */
  function MatchedRequirements(requirements: seq<string>, roomItems: seq<Item>): (r: seq<string>)
    ensures |r| <= |requirements|
    ensures forall tag :: tag in r <==> tag in requirements && SomeItemMeets(roomItems, tag)
  {
    var met := (tag: string) => SomeItemMeets(roomItems, tag);
    forall tag ensures tag in Filter(requirements, met) <==> tag in requirements && SomeItemMeets(roomItems, tag) {
      FilterMember(requirements, met, tag);
    }
    Filter(requirements, met)
  }

  function Attraction(it: Item): int { it.attraction }

  /** Sum of the attraction of the given items. */
  function TotalAttraction(items: seq<Item>): int {
    Sum(items, Attraction)
  }

  /** The capacity term: 50 plus 20 when the room holds the party, otherwise minus 20. */
  function CapacityScore(room: Room, booking: Booking): (r: real)
    ensures r == 70.0 <==> room.capacity >= booking.peopleCount
    ensures r == 30.0 <==> room.capacity < booking.peopleCount
  {
    50.0 + (if room.capacity >= booking.peopleCount then 20.0 else -20.0)
  }

  /** The requirement term: the fraction of tags met, scaled to 30. */
  function RequirementScore(requirements: seq<string>, roomItems: seq<Item>): (r: real)
    requires |requirements| > 0
    ensures 0.0 <= r <= 30.0
    ensures r == 30.0 <==> |MatchedRequirements(requirements, roomItems)| == |requirements|
  {
    var matched := MatchedRequirements(requirements, roomItems);
    FractionBounds(|matched| as real, |requirements| as real);
    (|matched| as real / |requirements| as real) * 30.0
  }

  lemma FractionBounds(m: real, n: real)
    requires 0.0 <= m <= n && n > 0.0
    ensures 0.0 <= m / n <= 1.0
    ensures m / n == 1.0 <==> m == n
  {
    var f := m / n;
    assert f * n == m;
  }

  /** The attraction term: a tenth of the total, capped at 20. */
  function AttractionBonus(total: int): (r: real)
    ensures r <= 20.0
    ensures total >= 0 ==> r >= 0.0
    ensures total >= 200 <==> r == 20.0
  {
    Min(total as real / 10.0, 20.0)
  }

  /** calculateSatisfaction. The source divides by the number of requirement
      tags without a guard; an empty list would give NaN, so it is excluded. */
  function CalculateSatisfaction(booking: Booking, room: Room, items: seq<Item>): (r: real)
    requires |booking.requirements| > 0
    ensures 0.0 <= r <= 100.0
    ensures room.capacity < booking.peopleCount ==> r <= 80.0
    ensures (forall it :: it in items ==> it.attraction >= 0) ==>
      r >= CapacityScore(room, booking)
  {
    var roomItems := RoomItems(room, items);
    var score := CapacityScore(room, booking)
      + RequirementScore(booking.requirements, roomItems)
      + AttractionBonus(TotalAttraction(roomItems));
    if forall it :: it in items ==> it.attraction >= 0 then
      SumNonNegative(roomItems, Attraction);
      Clamp(score, 0.0, 100.0)
    else
      Clamp(score, 0.0, 100.0)
  }

  /** Only the items the room lists matter: the score over all items equals the
      score over the room's own items. */
  lemma SatisfactionUsesRoomItemsOnly(booking: Booking, room: Room, items: seq<Item>)
    requires |booking.requirements| > 0
    ensures CalculateSatisfaction(booking, room, items)
         == CalculateSatisfaction(booking, room, RoomItems(room, items))
  {
    FilterIdempotent(items, (it: Item) => it.id in room.items);
  }

  /** An item that the room does not list can be added to the item list without
      changing the score. */
  lemma SatisfactionIgnoresForeignItem(booking: Booking, room: Room, items: seq<Item>, x: Item)
    requires |booking.requirements| > 0
    requires x.id !in room.items
    ensures CalculateSatisfaction(booking, room, items + [x])
         == CalculateSatisfaction(booking, room, items)
  {
    FilterIgnores(items, x, (it: Item) => it.id in room.items);
  }

  /** With no items in the room, the score is the capacity term alone: 70 when the
      party fits, 30 when it does not. */
  lemma SatisfactionWithoutItems(booking: Booking, room: Room, items: seq<Item>)
    requires |booking.requirements| > 0
    requires forall it :: it in items ==> it.id !in room.items
    ensures CalculateSatisfaction(booking, room, items)
         == if room.capacity >= booking.peopleCount then 70.0 else 30.0
  {
    var inRoom := (it: Item) => it.id in room.items;
    FilterNone(items, inRoom);
    assert RoomItems(room, items) == [];
    assert MatchedRequirements(booking.requirements, []) == [] by {
      FilterNone(booking.requirements, (tag: string) => SomeItemMeets([], tag));
    }
  }

  /** calculateRevenue: the base fee of 50 per person scaled by the satisfaction
      percentage, rounded down. */
  function CalculateRevenue(booking: Booking, satisfaction: real): (r: int)
    ensures satisfaction >= 0.0 ==> r >= 0
    ensures satisfaction <= 100.0 ==> r <= booking.peopleCount * 50
    ensures satisfaction == 0.0 ==> r == 0
    ensures satisfaction == 100.0 ==> r == booking.peopleCount * 50
  {
    var base := booking.peopleCount * 50;
    var exact := (base as real) * (satisfaction / 100.0);
    assert satisfaction <= 100.0 ==> exact <= base as real;
    exact.Floor
  }

  /** A higher satisfaction never earns less. */
  lemma RevenueMonotone(booking: Booking, s1: real, s2: real)
    requires s1 <= s2
    ensures CalculateRevenue(booking, s1) <= CalculateRevenue(booking, s2)
  {
    var base := (booking.peopleCount * 50) as real;
    ScaleMonotone(base, s1 / 100.0, s2 / 100.0);
    FloorMonotone(base * (s1 / 100.0), base * (s2 / 100.0));
  }

  lemma ScaleMonotone(c: real, x: real, y: real)
    requires 0.0 <= c && x <= y
    ensures c * x <= c * y
  {
    assert c * y - c * x == c * (y - x);
  }

  lemma FloorMonotone(x: real, y: real)
    requires x <= y
    ensures x.Floor <= y.Floor
  {
    assert (x.Floor as real) <= x <= y < (y.Floor as real) + 1.0;
  }

  /** Four guests at satisfaction 80 pay 160. */
  lemma RevenueExample(booking: Booking)
    requires booking.peopleCount == 4
    ensures CalculateRevenue(booking, 80.0) == 160
  {
  }
}
