/** The room screen: renting a room of a chosen size when the money covers its
    rent, and the size labels. */
module RoomManagement {
  import opened Types
  import opened Text
  import opened Constants
  import opened Utils
  import Store

  const NotEnoughMoney: string := "金錢不足！"

  /** The room a rental adds: `room-${now}`, named after the number of rooms
      it makes, with the size's configuration and no items. */
  function NewRoom(size: RoomSize, roomCount: nat, now: nat): (r: Room)
    ensures r.id == "room-" + NatToString(now)
    ensures r.name == "房間 " + NatToString(roomCount + 1)
    ensures r.size == size && r.items == []
    ensures r.capacity == RoomConfigOf(size).capacity
    ensures r.maxItems == RoomConfigOf(size).maxItems && r.rent == RoomConfigOf(size).rent
  {
    var config := RoomConfigOf(size);
    Room("room-" + NatToString(now), "房間 " + NatToString(roomCount + 1), size,
      config.capacity, config.maxItems, config.rent, [])
  }

  /** Rooms rented at different instants get different ids. */
  lemma NewRoomIdsDistinct(s1: RoomSize, n1: nat, t1: nat, s2: RoomSize, n2: nat, t2: nat)
    requires t1 != t2
    ensures NewRoom(s1, n1, t1).id != NewRoom(s2, n2, t2).id
  {
    if NewRoom(s1, n1, t1).id == NewRoom(s2, n2, t2).id {
      CancelPrefix("room-", NatToString(t1), NatToString(t2));
      NatToStringInjective(t1, t2);
    }
  }

  /** handleRentRoom. The clock reading `Date.now()` is the parameter `now`;
      an unselected size is `None`. */
  method HandleRentRoom(store: Store.GameStore, selectedSize: Option<RoomSize>, now: nat)
    returns (outcome: Outcome)
    modifies store
    ensures outcome == Ignored <==> selectedSize.None?
    ensures outcome == Rejected(NotEnoughMoney) <==>
      selectedSize.Some? && old(store.money) < RoomConfigOf(selectedSize.value).rent
    ensures outcome in {Applied, Ignored, Rejected(NotEnoughMoney)}
    ensures outcome != Applied ==> store.State() == old(store.State())
    ensures outcome == Applied ==> store.State() == old(store.State()).(
      rooms := old(store.rooms) + [NewRoom(selectedSize.value, |old(store.rooms)|, now)],
      money := old(store.money) - RoomConfigOf(selectedSize.value).rent)
    ensures 0 <= old(store.money) ==> 0 <= store.money <= old(store.money)
  {
    if selectedSize.None? {
      return Ignored;
    }
    var config := RoomConfigOf(selectedSize.value);
    if store.money < config.rent {
      return Rejected(NotEnoughMoney);
    }
    store.AddRoom(NewRoom(selectedSize.value, |store.rooms|, now));
    store.SpendMoney(config.rent);
    outcome := Applied;
  }

  const SizeLabels: map<string, string> :=
    map["small" := "小房間", "medium" := "中房間", "large" := "大房間", "xlarge" := "超大房間"]

  /** getRoomSizeLabel */
  function GetRoomSizeLabel(size: string): (r: string)
    ensures size !in SizeLabels ==> r == size
    ensures size in SizeLabels ==> r != size
  {
    LookupOr(SizeLabels, size, size)
  }

  /** No size label is the empty string, so the lookup falls back only for an
      unknown size. */
  lemma SizeLabelsNonEmpty()
    ensures NoEmptyValues(SizeLabels)
  {
  }

  /** Each of the four sizes has its own label, and every label is one of theirs. */
  lemma SizeLabelsDistinct(a: RoomSize, b: RoomSize)
    ensures SizeName(a) in SizeLabels
    ensures GetRoomSizeLabel(SizeName(a)) == GetRoomSizeLabel(SizeName(b)) <==> a == b
  {
  }
}
