/** The inventory screen: scheduling the installation of a purchased item in a
    room, refused for an item already scheduled and for a full or unknown room. */
module Inventory {
  import opened Types
  import MyItems
  import Store
  import Schedule

  const AlreadyScheduled: string := "此物品已經安排過安裝！"
  const RoomFullOrMissing: string := "房間已滿或不存在！"

  predicate IsInstallOf(s: ScheduleSlot, itemId: string) {
    s.activity == "install_item" && s.itemId == Some(itemId)
  }

  /** `schedule.slots?.find(slot => slot.activity === 'install_item' && slot.itemId === item.id)` */
  predicate InstallScheduled(slots: seq<ScheduleSlot>, itemId: string) {
    exists s :: s in slots && IsInstallOf(s, itemId)
  }

  /** No item has two installation slots. */
  predicate AtMostOneInstallPerItem(slots: seq<ScheduleSlot>) {
    forall i, j ::
      (0 <= i < j < |slots| && slots[i].activity == "install_item" &&
       slots[j].activity == "install_item" && slots[i].itemId.Some?) ==> slots[i].itemId != slots[j].itemId
  }

  /** A room can take another item while it lists fewer than its limit. */
  predicate HasRoomFor(room: Room) {
    |room.items| < room.maxItems
  }

  /** The installation slot the screen appends. */
  function InstallSlot(item: InventoryItem, room: Room, time: string): (s: ScheduleSlot)
    ensures IsInstallOf(s, item.id) && s.time == time && s.roomId == Some(room.id)
  {
    ScheduleSlot(time, "install_item", Some(room.id), Some(item.id),
      Some("安裝 " + item.name + " 到 " + room.name))
  }

  /** Appending the slot of an item that has none keeps one slot per item. */
  lemma InstallKeepsOnePerItem(slots: seq<ScheduleSlot>, item: InventoryItem, room: Room, time: string)
    requires AtMostOneInstallPerItem(slots)
    requires !InstallScheduled(slots, item.id)
    ensures AtMostOneInstallPerItem(slots + [InstallSlot(item, room, time)])
  {
    var slots' := slots + [InstallSlot(item, room, time)];
    forall i, j | 0 <= i < j < |slots'| && slots'[i].activity == "install_item" &&
      slots'[j].activity == "install_item" && slots'[i].itemId.Some?
      ensures slots'[i].itemId != slots'[j].itemId
    {
      if j == |slots| {
        assert slots[i] in slots;
      }
    }
  }

  /** handleScheduleInstallation */
  method HandleScheduleInstallation(store: Store.GameStore, selectedItem: Option<InventoryItem>,
                                    selectedRoom: string, selectedTime: string)
    returns (outcome: Outcome)
    modifies store
    ensures outcome == Ignored <==> selectedItem.None? || selectedRoom == "" || selectedTime == ""
    ensures outcome == Rejected(AlreadyScheduled) <==>
      outcome != Ignored && InstallScheduled(old(store.schedule.slots), selectedItem.value.id)
    ensures outcome == Rejected(RoomFullOrMissing) <==>
      outcome != Ignored && !InstallScheduled(old(store.schedule.slots), selectedItem.value.id) &&
      (MyItems.FindRoom(old(store.rooms), selectedRoom).None? ||
       !HasRoomFor(MyItems.FindRoom(old(store.rooms), selectedRoom).value))
    ensures outcome in {Applied, Ignored, Rejected(AlreadyScheduled), Rejected(RoomFullOrMissing)}
    ensures outcome != Applied ==> store.State() == old(store.State())
    ensures outcome == Applied ==> store.State() == old(store.State()).(schedule := old(store.schedule).(
      slots := old(store.schedule.slots) +
        [InstallSlot(selectedItem.value, MyItems.FindRoom(old(store.rooms), selectedRoom).value, selectedTime)]))
    ensures AtMostOneInstallPerItem(old(store.schedule.slots)) ==> AtMostOneInstallPerItem(store.schedule.slots)
    ensures outcome == Applied ==> selectedTime !in Schedule.AvailableTimes(store.schedule.slots)
  {
    if selectedItem.None? || selectedRoom == "" || selectedTime == "" {
      return Ignored;
    }
    var item := selectedItem.value;
    if InstallScheduled(store.schedule.slots, item.id) {
      return Rejected(AlreadyScheduled);
    }
    var found := MyItems.FindRoom(store.rooms, selectedRoom);
    if found.None? || !HasRoomFor(found.value) {
      return Rejected(RoomFullOrMissing);
    }
    var slot := InstallSlot(item, found.value, selectedTime);
    if AtMostOneInstallPerItem(store.schedule.slots) {
      InstallKeepsOnePerItem(store.schedule.slots, item, found.value, selectedTime);
    }
    store.AddToSchedule(slot);
    assert slot in store.schedule.slots;
    outcome := Applied;
  }

  /** The time-table screen does not make this check: adding an installation
      there for an item that already has one leaves two slots for the item. */
  lemma ScheduleScreenCanDuplicateInstall(slots: seq<ScheduleSlot>, time: string, roomId: string, itemId: string,
                                          rooms: seq<Room>, inventory: seq<InventoryItem>)
    requires roomId != "" && itemId != ""
    requires InstallScheduled(slots, itemId)
    ensures !AtMostOneInstallPerItem(slots + [Schedule.BuildSlot(time, "install_item", roomId, itemId, rooms, inventory)])
  {
    var s :| s in slots && IsInstallOf(s, itemId);
    var i :| 0 <= i < |slots| && slots[i] == s;
    var slots' := slots + [Schedule.BuildSlot(time, "install_item", roomId, itemId, rooms, inventory)];
    assert slots'[i] == s && slots'[|slots|].itemId == Some(itemId);
  }
}
