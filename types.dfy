/** The records of the game state: rooms, items, bookings, daily statistics,
    and the inventory and schedule shapes that the store is seeded with. */
module Types {
  import opened Text

  datatype Option<+T> = None | Some(value: T)

  /** JavaScript's truthiness test on a nullable string: null and "" are both falsy. */
  predicate Truthy(s: Option<string>) {
    s.Some? && s.value != ""
  }

  /** What a screen action did: changed the state, returned early without a
      message, or refused with the alert it shows. */
  datatype Outcome = Applied | Ignored | Rejected(message: string)

  datatype RoomSize = Small | Medium | Large | XLarge
  datatype ItemType = Game | Entertainment | Decoration
  datatype CustomerType = Birthday | Friends | Company | Couple | Gaming
  datatype BookingStatus = Pending | Confirmed | Completed

  /** The string spelling of each enumerated value, as stored in the game state. */
  function SizeName(s: RoomSize): string {
    match s
    case Small => "small"
    case Medium => "medium"
    case Large => "large"
    case XLarge => "xlarge"
  }

  function ItemTypeName(t: ItemType): string {
    match t
    case Game => "game"
    case Entertainment => "entertainment"
    case Decoration => "decoration"
  }

  function CustomerTypeName(t: CustomerType): string {
    match t
    case Birthday => "birthday"
    case Friends => "friends"
    case Company => "company"
    case Couple => "couple"
    case Gaming => "gaming"
  }

  datatype Room = Room(
    id: string,
    name: string,
    size: RoomSize,
    capacity: nat,
    maxItems: nat,
    rent: nat,
    items: seq<string>)

  datatype Item = Item(
    id: string,
    name: string,
    itemType: ItemType,
    attraction: int,
    price: int,
    roomId: Option<string>)

  datatype Booking = Booking(
    id: string,
    customerName: string,
    customerType: CustomerType,
    peopleCount: nat,
    requirements: seq<string>,
    roomId: Option<string>,
    timeSlot: string,
    date: string,
    satisfaction: real,
    revenue: int,
    status: BookingStatus)

  datatype DailyStats = DailyStats(
    day: int,
    revenue: int,
    expenses: int,
    profit: int,
    avgSatisfaction: real,
    bookingsCompleted: nat)

  /** A purchased item waiting to be installed. The catalog has no install
      time, so the copied value is always absent. */
  datatype InventoryItem = InventoryItem(
    id: string,
    name: string,
    itemType: ItemType,
    attraction: int,
    price: int,
    installTime: Option<int>,
    purchaseDate: string)

  /** One entry of the day's time table; `activity` is a free string
      ("cleaning", "install_item", "booking", "free" in practice). */
  datatype ScheduleSlot = ScheduleSlot(
    time: string,
    activity: string,
    roomId: Option<string>,
    itemId: Option<string>,
    description: Option<string>)

  datatype DaySchedule = DaySchedule(day: int, slots: seq<ScheduleSlot>)

  datatype GameState = GameState(
    userId: string,
    currentDay: int,
    money: int,
    reputation: real,
    rooms: seq<Room>,
    items: seq<Item>,
    bookings: seq<Booking>,
    dailyStats: seq<DailyStats>,
    inventory: seq<InventoryItem>,
    schedule: DaySchedule)

  /** The date label of a day: `Day ${day}`. */
  function DayLabel(day: int): string {
    "Day " + IntToString(day)
  }

  function Min(a: real, b: real): real { if a <= b then a else b }
  function Max(a: real, b: real): real { if a >= b then a else b }

  /** Math.max(lo, Math.min(hi, x)) */
  function Clamp(x: real, lo: real, hi: real): (r: real)
    requires lo <= hi
    ensures lo <= r <= hi
    ensures lo <= x <= hi ==> r == x
    ensures x < lo ==> r == lo
    ensures x > hi ==> r == hi
  {
    Max(lo, Min(hi, x))
  }
}
