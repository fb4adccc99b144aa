/** The booking screen: the shop's total attraction, the morning inquiries it
    and the reputation attract, the recommended room for a booking, assigning
    a room to a booking, and the customer and requirement labels. */
module BookingManagement {
  import opened Types
  import opened Lists
  import opened Constants
  import opened Utils
  import SatisfactionCalculator
  import BookingGenerator
  import MyItems
  import Store

  /** The attraction of the items placed in one room. */
  function RoomAttraction(items: seq<Item>, room: Room): int {
    MyItems.GetRoomTotalAttraction(items, room.id)
  }

  /** totalAttraction: over every room, the attraction of the items whose
      roomId is that room's id. */
  function TotalAttraction(rooms: seq<Room>, items: seq<Item>): (r: int)
    ensures rooms == [] ==> r == 0
    ensures (forall it :: it in items ==> it.attraction >= 0) ==> r >= 0
  {
    var f := (room: Room) => RoomAttraction(items, room);
    if forall it :: it in items ==> it.attraction >= 0 then
      SumNonNegative(rooms, f);
      Sum(rooms, f)
    else
      Sum(rooms, f)
  }

  /** The total is the total over all rooms but the last plus the last room's attraction. */
  lemma TotalAttractionSplit(rooms: seq<Room>, items: seq<Item>)
    requires rooms != []
    ensures TotalAttraction(rooms, items)
         == TotalAttraction(rooms[..|rooms| - 1], items) + RoomAttraction(items, rooms[|rooms| - 1])
  {
  }

  /** An item placed in no listed room, or in none at all, adds nothing to the total. */
  lemma {:induction false} TotalAttractionIgnoresUnplaced(rooms: seq<Room>, items: seq<Item>, x: Item)
    requires forall room :: room in rooms ==> x.roomId != Some(room.id)
    ensures TotalAttraction(rooms, items + [x]) == TotalAttraction(rooms, items)
  {
    if rooms != [] {
      var n := |rooms| - 1;
      TotalAttractionSplit(rooms, items);
      TotalAttractionSplit(rooms, items + [x]);
      assert forall room :: room in rooms[..n] ==> room in rooms;
      TotalAttractionIgnoresUnplaced(rooms[..n], items, x);
      assert rooms[n] in rooms;
      MyItems.RoomAttractionAppend(items, rooms[n].id, x);
    }
  }

  /** An item placed in the one room carrying its room id adds exactly its attraction. */
  lemma {:induction false} TotalAttractionAddsPlaced(rooms: seq<Room>, items: seq<Item>, x: Item, k: nat)
    requires k < |rooms| && x.roomId == Some(rooms[k].id)
    requires forall j :: 0 <= j < |rooms| && j != k ==> rooms[j].id != rooms[k].id
    ensures TotalAttraction(rooms, items + [x]) == TotalAttraction(rooms, items) + x.attraction
  {
    var n := |rooms| - 1;
    TotalAttractionSplit(rooms, items);
    TotalAttractionSplit(rooms, items + [x]);
    MyItems.RoomAttractionAppend(items, rooms[n].id, x);
    if k == n {
      forall room | room in rooms[..n] ensures x.roomId != Some(room.id) {
        var j :| 0 <= j < n && rooms[..n][j] == room;
        assert rooms[j] == room;
      }
      TotalAttractionIgnoresUnplaced(rooms[..n], items, x);
    } else {
      assert rooms[..n][k] == rooms[k];
      TotalAttractionAddsPlaced(rooms[..n], items, x, k);
    }
  }

  /** `Math.min(1 + Math.floor(reputation / 20) + Math.floor(totalAttraction / 100), 5)`;
      the divisor is positive, so Dafny's division of integers rounds down as Math.floor does. */
  function QueryCount(reputation: real, totalAttraction: int): (r: int)
    ensures r <= 5
    ensures reputation >= 0.0 && totalAttraction >= 0 ==> r >= 1
    ensures reputation >= 80.0 && totalAttraction >= 0 ==> r == 5
  {
    var n := 1 + (reputation / 20.0).Floor + totalAttraction / 100;
    if n <= 5 then n else 5
  }

  /** The end index `Array.prototype.slice(0, end)` uses on a list of length len:
      a negative end counts from the back. */
  function SliceEnd(len: nat, end: int): (r: nat)
    ensures r <= len
    ensures 0 <= end ==> r == if end <= len then end else len
    ensures end < 0 ==> r == if len + end >= 0 then len + end else 0
  {
    if end < 0 then (if len + end >= 0 then len + end else 0)
    else if end <= len then end
    else len
  }

  /** The inquiries of the morning: the first QueryCount bookings of the day's batch. */
  function Queries(gs: GameState, draws: seq<BookingGenerator.Draw>): (r: seq<Booking>)
    requires BookingGenerator.DrawsCover(draws, BookingGenerator.BookingCount(gs.reputation))
  {
    var batch := BookingGenerator.Batch(gs.currentDay, gs.reputation, draws);
    batch[..SliceEnd(|batch|, QueryCount(gs.reputation, TotalAttraction(gs.rooms, gs.items)))]
  }

  /** Each inquiry is a pending booking dated today with its own id. While the
      query count is not negative at most five arrive; with reputation in
      [0, 100] and no negative attraction at least one arrives. */
  lemma QueriesShape(gs: GameState, draws: seq<BookingGenerator.Draw>)
    requires BookingGenerator.DrawsCover(draws, BookingGenerator.BookingCount(gs.reputation))
    ensures QueryCount(gs.reputation, TotalAttraction(gs.rooms, gs.items)) >= 0 ==> |Queries(gs, draws)| <= 5
    ensures 0.0 <= gs.reputation <= 100.0 && (forall it :: it in gs.items ==> it.attraction >= 0) ==>
      1 <= |Queries(gs, draws)|
    ensures forall b :: b in Queries(gs, draws) ==> b.status == Pending && b.date == DayLabel(gs.currentDay)
    ensures forall i, j :: 0 <= i < j < |Queries(gs, draws)| ==> Queries(gs, draws)[i].id != Queries(gs, draws)[j].id
  {
    var batch := BookingGenerator.Batch(gs.currentDay, gs.reputation, draws);
    var q := Queries(gs, draws);
    if 0.0 <= gs.reputation <= 100.0 {
      BookingGenerator.BatchSize(gs.currentDay, gs.reputation, draws);
    }
    forall b | b in q ensures b.status == Pending && b.date == DayLabel(gs.currentDay) {
      var k :| 0 <= k < |q| && q[k] == b;
      assert batch[k] in batch;
    }
    forall i, j | 0 <= i < j < |q| ensures q[i].id != q[j].id {
      BookingGenerator.BatchIdsDistinct(gs.currentDay, gs.reputation, draws, i, j);
    }
  }

  /** generateCustomerQueries: the day's batch is generated and its first
      QueryCount bookings are added one by one. */
  method GenerateCustomerQueries(store: Store.GameStore, draws: seq<BookingGenerator.Draw>)
    requires BookingGenerator.DrawsCover(draws, BookingGenerator.BookingCount(store.reputation))
    modifies store
    ensures store.State() == old(store.State()).(bookings := old(store.bookings) + Queries(old(store.State()), draws))
  {
    var total := TotalAttraction(store.rooms, store.items);
    var queryCount := QueryCount(store.reputation, total);
    var newBookings := BookingGenerator.GenerateDailyBookings(store.currentDay, store.reputation, total, draws);
    Store.AddBookings(store, newBookings[..SliceEnd(|newBookings|, queryCount)]);
  }

  /** Some booking carries the date label of the given day. */
  predicate HasBookingOn(bookings: seq<Booking>, day: int) {
    exists b :: b in bookings && b.date == DayLabel(day)
  }

  /** The effect that runs when the day changes: inquiries are generated only
      when no booking is dated today, so running it twice on the same day adds
      them once. */
  method StartOfDay(store: Store.GameStore, draws: seq<BookingGenerator.Draw>)
    requires BookingGenerator.DrawsCover(draws, BookingGenerator.BookingCount(store.reputation))
    modifies store
    ensures HasBookingOn(old(store.bookings), old(store.currentDay)) ==> store.State() == old(store.State())
    ensures !HasBookingOn(old(store.bookings), old(store.currentDay)) ==>
      store.State() == old(store.State()).(bookings := old(store.bookings) + Queries(old(store.State()), draws))
    ensures |Queries(old(store.State()), draws)| > 0 ==> HasBookingOn(store.bookings, store.currentDay)
  {
    if !HasBookingOn(store.bookings, store.currentDay) {
      ghost var gs := store.State();
      GenerateCustomerQueries(store, draws);
      QueriesShape(gs, draws);
      if |Queries(gs, draws)| > 0 {
        assert Queries(gs, draws)[0] in store.bookings;
      }
    }
  }

  /** A room the booking fits and that can take another item. */
  predicate Suitable(room: Room, peopleCount: nat) {
    room.capacity >= peopleCount && |room.items| < room.maxItems
  }

  /** `Math.abs(room.capacity - peopleCount)` */
  function Mismatch(room: Room, peopleCount: nat): nat {
    if room.capacity >= peopleCount then room.capacity - peopleCount else peopleCount - room.capacity
  }

  /** The position of the suitable room with the smallest capacity mismatch, the
      first one in list order among equals, as the stable sort of the source
      leaves it at the front. */
  function RecommendIndex(rooms: seq<Room>, peopleCount: nat): (r: Option<nat>)
    ensures r.None? <==> forall j :: 0 <= j < |rooms| ==> !Suitable(rooms[j], peopleCount)
    ensures r.Some? ==> r.value < |rooms| && Suitable(rooms[r.value], peopleCount)
    ensures r.Some? ==> forall j :: 0 <= j < |rooms| && Suitable(rooms[j], peopleCount) ==>
      Mismatch(rooms[r.value], peopleCount) <= Mismatch(rooms[j], peopleCount)
    ensures r.Some? ==> forall j :: 0 <= j < r.value && Suitable(rooms[j], peopleCount) ==>
      Mismatch(rooms[j], peopleCount) > Mismatch(rooms[r.value], peopleCount)
  {
    if rooms == [] then None
    else
      var n := |rooms| - 1;
      var rest := RecommendIndex(rooms[..n], peopleCount);
      if !Suitable(rooms[n], peopleCount) then rest
      else if rest.None? then Some(n)
      else if Mismatch(rooms[n], peopleCount) < Mismatch(rooms[rest.value], peopleCount) then Some(n)
      else rest
  }

  /** getRoomRecommendation */
  function GetRoomRecommendation(rooms: seq<Room>, booking: Booking): (r: Option<Room>)
    ensures r.None? <==> forall room :: room in rooms ==> !Suitable(room, booking.peopleCount)
    ensures r.Some? ==> r.value in rooms && Suitable(r.value, booking.peopleCount)
    ensures r.Some? ==> forall room :: room in rooms && Suitable(room, booking.peopleCount) ==>
      Mismatch(r.value, booking.peopleCount) <= Mismatch(room, booking.peopleCount)
  {
    match RecommendIndex(rooms, booking.peopleCount)
    case None => None
    case Some(k) => Some(rooms[k])
  }

  /** A room with an exact fit is recommended whenever one is suitable. */
  lemma ExactFitRecommended(rooms: seq<Room>, booking: Booking, k: nat)
    requires k < |rooms| && Suitable(rooms[k], booking.peopleCount)
    requires rooms[k].capacity == booking.peopleCount
    ensures GetRoomRecommendation(rooms, booking).Some?
    ensures GetRoomRecommendation(rooms, booking).value.capacity == booking.peopleCount
  {
    assert rooms[k] in rooms;
  }

  /** The fields handleAssignRoom writes into the booking. */
  function AssignPatch(booking: Booking, room: Room, items: seq<Item>): (p: Store.BookingPatch)
    requires |booking.requirements| > 0
    ensures p.status == Some(Confirmed) && p.roomId == Some(Some(room.id)) && p.id.None?
    ensures p.satisfaction.Some? && 0.0 <= p.satisfaction.value <= 100.0
    ensures p.revenue.Some? && 0 <= p.revenue.value <= booking.peopleCount * 50
  {
    var satisfaction := SatisfactionCalculator.CalculateSatisfaction(booking, room, items);
    Store.EmptyBookingPatch.(
      roomId := Some(Some(room.id)),
      status := Some(Confirmed),
      satisfaction := Some(satisfaction),
      revenue := Some(SatisfactionCalculator.CalculateRevenue(booking, satisfaction)))
  }

  /** The assigned booking keeps who, how many, what and when, and only gains
      the room, the confirmed status, the score and the revenue. */
  lemma AssignedBooking(b: Booking, room: Room, items: seq<Item>)
    requires |b.requirements| > 0
    ensures Store.ApplyBookingPatch(b, AssignPatch(b, room, items)) == b.(
      roomId := Some(room.id),
      status := Confirmed,
      satisfaction := SatisfactionCalculator.CalculateSatisfaction(b, room, items),
      revenue := SatisfactionCalculator.CalculateRevenue(b, SatisfactionCalculator.CalculateSatisfaction(b, room, items)))
  {
  }

  /** handleAssignRoom. The booking is the one selected on screen; the source
      scores it without checking its requirement list, which the model needs
      to be nonempty. */
  method HandleAssignRoom(store: Store.GameStore, selectedBooking: Option<Booking>, selectedRoom: string)
    returns (outcome: Outcome)
    requires selectedBooking.Some? ==> |selectedBooking.value.requirements| > 0
    modifies store
    ensures outcome == Ignored <==>
      selectedBooking.None? || selectedRoom == "" || MyItems.FindRoom(old(store.rooms), selectedRoom).None?
    ensures outcome in {Applied, Ignored}
    ensures outcome == Ignored ==> store.State() == old(store.State())
    ensures outcome == Applied ==> store.State() == old(store.State()).(
      bookings := Store.UpdateBookings(old(store.bookings), selectedBooking.value.id,
        AssignPatch(selectedBooking.value, MyItems.FindRoom(old(store.rooms), selectedRoom).value, old(store.items))))
  {
    if selectedBooking.None? || selectedRoom == "" {
      return Ignored;
    }
    var found := MyItems.FindRoom(store.rooms, selectedRoom);
    if found.None? {
      return Ignored;
    }
    store.UpdateBooking(selectedBooking.value.id, AssignPatch(selectedBooking.value, found.value, store.items));
    outcome := Applied;
  }

  const CustomerTypeLabels: map<string, string> :=
    map["birthday" := "生日派對", "friends" := "朋友聚會", "company" := "公司團建",
        "couple" := "情侶約會", "gaming" := "遊戲聚會"]

  const CustomerTypeIcons: map<string, string> :=
    map["birthday" := "🎂", "friends" := "👥", "company" := "🏢", "couple" := "💕", "gaming" := "🎮"]

  const DefaultCustomerIcon: string := "👤"

  const RequirementLabels: map<string, string> :=
    map["ktv" := "KTV", "decoration" := "裝飾", "photo" := "拍照", "game" := "遊戲",
        "boardgame" := "桌遊", "sound" := "音響", "large-space" := "大空間",
        "small-space" := "小空間", "game-console" := "遊戲機", "comfortable-seats" := "舒適座椅"]

  /** getCustomerTypeLabel */
  function GetCustomerTypeLabel(t: string): (r: string)
    ensures t !in CustomerTypeLabels ==> r == t
    ensures t in CustomerTypeLabels ==> r != t
  {
    LookupOr(CustomerTypeLabels, t, t)
  }

  /** getCustomerTypeIcon */
  function GetCustomerTypeIcon(t: string): (r: string)
    ensures t !in CustomerTypeIcons <==> r == DefaultCustomerIcon
  {
    LookupOr(CustomerTypeIcons, t, DefaultCustomerIcon)
  }

  /** getRequirementLabel */
  function GetRequirementLabel(req: string): (r: string)
    ensures req !in RequirementLabels ==> r == req
    ensures req in RequirementLabels ==> r != req
  {
    LookupOr(RequirementLabels, req, req)
  }

  /** None of the booking screen's tables holds an empty string, so their
      lookups fall back only for a key they do not list. */
  lemma BookingTablesNonEmpty()
    ensures NoEmptyValues(CustomerTypeLabels) && NoEmptyValues(CustomerTypeIcons)
    ensures NoEmptyValues(RequirementLabels)
  {
  }

  /** The five customer types have five distinct labels and their own icons. */
  lemma CustomerTypeLabelsDistinct(a: CustomerType, b: CustomerType)
    ensures GetCustomerTypeLabel(CustomerTypeName(a)) == GetCustomerTypeLabel(CustomerTypeName(b)) <==> a == b
    ensures GetCustomerTypeIcon(CustomerTypeName(a)) != DefaultCustomerIcon
  {
  }

  /** Every requirement tag a customer type can ask for has a label of its own. */
  lemma RequirementsLabelled(t: CustomerType, tag: string)
    requires tag in Requirements(t)
    ensures tag in RequirementLabels && GetRequirementLabel(tag) != tag
  {
  }
}
