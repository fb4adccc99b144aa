/** The game-state store: one mutable record and the actions that replace its
    fields. The inventory and schedule actions that the screens call are
    defined here too, over the shapes the new-game record is seeded with. */
module Store {
  import opened Types
  import opened Lists

  /** `Partial<Booking>`: a field is overwritten exactly when it is present. */
  datatype BookingPatch = BookingPatch(
    id: Option<string>,
    customerName: Option<string>,
    customerType: Option<CustomerType>,
    peopleCount: Option<nat>,
    requirements: Option<seq<string>>,
    roomId: Option<Option<string>>,
    timeSlot: Option<string>,
    date: Option<string>,
    satisfaction: Option<real>,
    revenue: Option<int>,
    status: Option<BookingStatus>)

  const EmptyBookingPatch := BookingPatch(None, None, None, None, None, None, None, None, None, None, None)

  function Pick<T>(update: Option<T>, current: T): T {
    if update.Some? then update.value else current
  }

  /** `{ ...b, ...updates }` */
  function ApplyBookingPatch(b: Booking, p: BookingPatch): (r: Booking)
    ensures p == EmptyBookingPatch ==> r == b
    ensures p.status.Some? ==> r.status == p.status.value
    ensures p.status.None? ==> r.status == b.status
    ensures p.id.None? ==> r.id == b.id
  {
    Booking(
      Pick(p.id, b.id),
      Pick(p.customerName, b.customerName),
      Pick(p.customerType, b.customerType),
      Pick(p.peopleCount, b.peopleCount),
      Pick(p.requirements, b.requirements),
      Pick(p.roomId, b.roomId),
      Pick(p.timeSlot, b.timeSlot),
      Pick(p.date, b.date),
      Pick(p.satisfaction, b.satisfaction),
      Pick(p.revenue, b.revenue),
      Pick(p.status, b.status))
  }

  /** `bookings.map(b => b.id === bookingId ? { ...b, ...updates } : b)` */
  function UpdateBookings(bookings: seq<Booking>, bookingId: string, p: BookingPatch): (r: seq<Booking>)
    ensures |r| == |bookings|
    ensures forall k :: 0 <= k < |r| && bookings[k].id != bookingId ==> r[k] == bookings[k]
    ensures forall k :: 0 <= k < |r| && bookings[k].id == bookingId ==> r[k] == ApplyBookingPatch(bookings[k], p)
  {
    seq(|bookings|, k requires 0 <= k < |bookings| =>
      if bookings[k].id == bookingId then ApplyBookingPatch(bookings[k], p) else bookings[k])
  }

  /** A patch that leaves the id alone keeps every booking's id, so the list
      can still be addressed the same way afterwards. */
  lemma UpdateBookingsKeepsIds(bookings: seq<Booking>, bookingId: string, p: BookingPatch)
    requires p.id.None?
    ensures forall k :: 0 <= k < |bookings| ==> UpdateBookings(bookings, bookingId, p)[k].id == bookings[k].id
  {
  }

  /** The item with the given id now belongs to the room. */
  function PlaceItem(items: seq<Item>, itemId: string, roomId: string): (r: seq<Item>)
    ensures |r| == |items|
    ensures forall k :: 0 <= k < |r| ==>
      r[k] == if items[k].id == itemId then items[k].(roomId := Some(roomId)) else items[k]
  {
    seq(|items|, k requires 0 <= k < |items| =>
      if items[k].id == itemId then items[k].(roomId := Some(roomId)) else items[k])
  }

  /** The room with the given id lists the item at the end of its items; its
      size limit and earlier entries are not consulted. */
  function AppendItemToRoom(rooms: seq<Room>, roomId: string, itemId: string): (r: seq<Room>)
    ensures |r| == |rooms|
    ensures forall k :: 0 <= k < |r| ==>
      r[k] == if rooms[k].id == roomId then rooms[k].(items := rooms[k].items + [itemId]) else rooms[k]
  {
    seq(|rooms|, k requires 0 <= k < |rooms| =>
      if rooms[k].id == roomId then rooms[k].(items := rooms[k].items + [itemId]) else rooms[k])
  }

  /** Every placed item is listed by every room carrying the id it points to. */
  ghost predicate PlacementsListed(items: seq<Item>, rooms: seq<Room>) {
    forall i, j :: 0 <= i < |items| && 0 <= j < |rooms| && items[i].roomId == Some(rooms[j].id) ==>
      items[i].id in rooms[j].items
  }

  /** Assigning an item to a room keeps every placement listed. */
  lemma AssignKeepsPlacementsListed(items: seq<Item>, rooms: seq<Room>, itemId: string, roomId: string)
    requires PlacementsListed(items, rooms)
    ensures PlacementsListed(PlaceItem(items, itemId, roomId), AppendItemToRoom(rooms, roomId, itemId))
  {
    var items', rooms' := PlaceItem(items, itemId, roomId), AppendItemToRoom(rooms, roomId, itemId);
    forall i, j | 0 <= i < |items'| && 0 <= j < |rooms'| && items'[i].roomId == Some(rooms'[j].id)
      ensures items'[i].id in rooms'[j].items
    {
      assert rooms'[j].id == rooms[j].id;
      if items[i].id != itemId {
        assert items[i].id in rooms[j].items;
      }
    }
  }

  /** The game state held by the store. */
  class GameStore {
    var userId: string
    var currentDay: int
    var money: int
    var reputation: real
    var rooms: seq<Room>
    var items: seq<Item>
    var bookings: seq<Booking>
    var dailyStats: seq<DailyStats>
    var inventory: seq<InventoryItem>
    var schedule: DaySchedule

    /** The whole record, as the store's readers see it. */
    function State(): GameState
      reads this
    {
      GameState(userId, currentDay, money, reputation, rooms, items, bookings, dailyStats, inventory, schedule)
    }

    /** The store's initial record: day 1, 10000 in money, reputation 50 and
        nothing else. */
    constructor ()
      ensures State() == GameState("", 1, 10000, 50.0, [], [], [], [], [], DaySchedule(1, []))
    {
      userId, currentDay, money, reputation := "", 1, 10000, 50.0;
      rooms, items, bookings, dailyStats := [], [], [], [];
      inventory, schedule := [], DaySchedule(1, []);
    }

    /** setGameState: each field present in the update replaces the stored one. */
    method SetGameState(
      newUserId: Option<string>, newDay: Option<int>, newMoney: Option<int>, newReputation: Option<real>,
      newRooms: Option<seq<Room>>, newItems: Option<seq<Item>>, newBookings: Option<seq<Booking>>,
      newDailyStats: Option<seq<DailyStats>>, newInventory: Option<seq<InventoryItem>>,
      newSchedule: Option<DaySchedule>)
      modifies this
      ensures State() == GameState(
        Pick(newUserId, old(userId)), Pick(newDay, old(currentDay)), Pick(newMoney, old(money)),
        Pick(newReputation, old(reputation)), Pick(newRooms, old(rooms)), Pick(newItems, old(items)),
        Pick(newBookings, old(bookings)), Pick(newDailyStats, old(dailyStats)),
        Pick(newInventory, old(inventory)), Pick(newSchedule, old(schedule)))
    {
      var next := GameState(
        Pick(newUserId, userId), Pick(newDay, currentDay), Pick(newMoney, money),
        Pick(newReputation, reputation), Pick(newRooms, rooms), Pick(newItems, items),
        Pick(newBookings, bookings), Pick(newDailyStats, dailyStats),
        Pick(newInventory, inventory), Pick(newSchedule, schedule));
      userId, currentDay, money, reputation, rooms := next.userId, next.currentDay, next.money, next.reputation, next.rooms;
      items, bookings, dailyStats, inventory, schedule := next.items, next.bookings, next.dailyStats, next.inventory, next.schedule;
    }

    method AddRoom(room: Room)
      modifies this
      ensures State() == old(State()).(rooms := old(rooms) + [room])
    {
      rooms := rooms + [room];
    }

    method AddItem(item: Item)
      modifies this
      ensures State() == old(State()).(items := old(items) + [item])
    {
      items := items + [item];
    }

    /** assignItemToRoom: no check of the room's size limit or of duplicates. */
    method AssignItemToRoom(itemId: string, roomId: string)
      modifies this
      ensures State() == old(State()).(
        items := PlaceItem(old(items), itemId, roomId),
        rooms := AppendItemToRoom(old(rooms), roomId, itemId))
    {
      items := PlaceItem(items, itemId, roomId);
      rooms := AppendItemToRoom(rooms, roomId, itemId);
    }

    method AddBooking(booking: Booking)
      modifies this
      ensures State() == old(State()).(bookings := old(bookings) + [booking])
    {
      bookings := bookings + [booking];
    }

    method UpdateBooking(bookingId: string, updates: BookingPatch)
      modifies this
      ensures State() == old(State()).(bookings := UpdateBookings(old(bookings), bookingId, updates))
    {
      bookings := UpdateBookings(bookings, bookingId, updates);
    }

    /** endDay: only the day counter moves. */
    method EndDay()
      modifies this
      ensures State() == old(State()).(currentDay := old(currentDay) + 1)
    {
      currentDay := currentDay + 1;
    }

    /** spendMoney: no lower bound is checked here; callers guard it. */
    method SpendMoney(amount: int)
      modifies this
      ensures State() == old(State()).(money := old(money) - amount)
    {
      money := money - amount;
    }

    method AddToInventory(item: InventoryItem)
      modifies this
      ensures State() == old(State()).(inventory := old(inventory) + [item])
    {
      inventory := inventory + [item];
    }

    method AddToSchedule(slot: ScheduleSlot)
      modifies this
      ensures State() == old(State()).(schedule := old(schedule).(slots := old(schedule).slots + [slot]))
    {
      schedule := schedule.(slots := schedule.slots + [slot]);
    }

    /** Frees a time: every slot at that time is dropped, the others keep their order. */
    method RemoveFromSchedule(time: string)
      modifies this
      ensures State() == old(State()).(schedule := old(schedule).(slots := SlotsNotAt(old(schedule).slots, time)))
    {
      schedule := schedule.(slots := SlotsNotAt(schedule.slots, time));
    }
  }

  /** `bookings.forEach(booking => addBooking(booking))` */
  method AddBookings(store: GameStore, newBookings: seq<Booking>)
    modifies store
    ensures store.State() == old(store.State()).(bookings := old(store.bookings) + newBookings)
  {
    var k := 0;
    while k < |newBookings|
      invariant 0 <= k <= |newBookings|
      invariant store.State() == old(store.State()).(bookings := old(store.bookings) + newBookings[..k])
    {
      store.AddBooking(newBookings[k]);
      assert newBookings[..k + 1] == newBookings[..k] + [newBookings[k]];
      k := k + 1;
    }
    assert newBookings[..|newBookings|] == newBookings;
  }

  function SlotsNotAt(slots: seq<ScheduleSlot>, time: string): (r: seq<ScheduleSlot>)
    ensures forall s :: s in r <==> s in slots && s.time != time
  {
    var keep := (s: ScheduleSlot) => s.time != time;
    forall s ensures s in Filter(slots, keep) <==> s in slots && s.time != time {
      FilterMember(slots, keep, s);
    }
    Filter(slots, keep)
  }
}
