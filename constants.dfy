/** The fixed game tables: room sizes, the shop catalog, the requirement tags
    of each customer type and the four time slots of a day. */
module Constants {
  import opened Types

  datatype RoomConfig = RoomConfig(capacity: nat, maxItems: nat, rent: nat)

  /** ROOM_CONFIG */
  function RoomConfigOf(size: RoomSize): RoomConfig {
    match size
    case Small => RoomConfig(3, 8, 500)
    case Medium => RoomConfig(6, 15, 1000)
    case Large => RoomConfig(12, 25, 2000)
    case XLarge => RoomConfig(20, 35, 3500)
  }

  /** The sizes in increasing order. */
  const RoomSizes: seq<RoomSize> := [Small, Medium, Large, XLarge]

  /** Every size's capacity, item slots and rent grow strictly from one size to the next. */
  lemma RoomConfigIncreasing(i: nat, j: nat)
    requires i < j < |RoomSizes|
    ensures RoomConfigOf(RoomSizes[i]).capacity < RoomConfigOf(RoomSizes[j]).capacity
    ensures RoomConfigOf(RoomSizes[i]).maxItems < RoomConfigOf(RoomSizes[j]).maxItems
    ensures RoomConfigOf(RoomSizes[i]).rent < RoomConfigOf(RoomSizes[j]).rent
  {
  }

  /** An entry of the shop catalog. */
  datatype CatalogItem = CatalogItem(id: string, name: string, itemType: ItemType, attraction: int, price: int)

  /** INITIAL_ITEMS */
  const Catalog: seq<CatalogItem> := [
    CatalogItem("ps5", "PlayStation 5", Game, 80, 5000),
    CatalogItem("switch", "Nintendo Switch", Game, 70, 3000),
    CatalogItem("boardgame1", "狼人殺", Game, 40, 300),
    CatalogItem("ktv-basic", "基礎 KTV", Entertainment, 60, 2000),
    CatalogItem("ktv-pro", "專業 KTV", Entertainment, 90, 5000),
    CatalogItem("led-lights", "LED 燈帶", Decoration, 30, 500),
    CatalogItem("birthday-deco", "生日裝飾", Decoration, 40, 800)
  ]

  /** The catalog has seven entries with distinct ids and positive attraction and price. */
  lemma CatalogWellFormed()
    ensures |Catalog| == 7
    ensures forall i, j :: 0 <= i < j < |Catalog| ==> Catalog[i].id != Catalog[j].id
    ensures forall c :: c in Catalog ==> c.attraction > 0 && c.price > 0
  {
  }

  /** CUSTOMER_REQUIREMENTS: the requirement tags of each customer type. */
  function Requirements(t: CustomerType): (r: seq<string>)
    ensures |r| > 0
  {
    match t
    case Birthday => ["ktv", "decoration", "photo"]
    case Friends => ["game", "boardgame", "sound"]
    case Company => ["boardgame", "ktv", "large-space"]
    case Couple => ["decoration", "ktv", "small-space"]
    case Gaming => ["game-console", "comfortable-seats"]
  }

  /** The customer types in the order the booking generator draws from. */
  const CustomerTypes: seq<CustomerType> := [Birthday, Friends, Company, Couple, Gaming]

  lemma CustomerTypesComplete(t: CustomerType)
    ensures t in CustomerTypes
  {
  }

  /** TIME_SLOTS */
  const TimeSlots: seq<string> := ["09:00-13:00", "13:30-17:30", "18:00-22:00", "22:30-02:30"]

  lemma TimeSlotsDistinct()
    ensures |TimeSlots| == 4
    ensures forall i, j :: 0 <= i < j < |TimeSlots| ==> TimeSlots[i] != TimeSlots[j]
  {
  }
}
