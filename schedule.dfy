/** The time-table screen: free times of the day, adding a slot built from the
    dialog's fields, the per-activity counts and the activity labels. */
module Schedule {
  import opened Types
  import opened Lists
  import opened Constants
  import opened Utils
  import MyItems
  import Store

  /** `slots.map(slot => slot.time)` */
  function OccupiedTimes(slots: seq<ScheduleSlot>): (r: seq<string>)
    ensures |r| == |slots|
    ensures forall t :: t in r <==> exists s :: s in slots && s.time == t
  {
    var r := seq(|slots|, k requires 0 <= k < |slots| => slots[k].time);
    assert forall t :: t in r ==> exists s :: s in slots && s.time == t by {
      forall t | t in r ensures exists s :: s in slots && s.time == t {
        var k :| 0 <= k < |r| && r[k] == t;
        assert slots[k] in slots;
      }
    }
    assert forall s :: s in slots ==> s.time in r by {
      forall s | s in slots ensures s.time in r {
        var k :| 0 <= k < |slots| && slots[k] == s;
        assert r[k] == s.time;
      }
    }
    r
  }

  predicate IsFreeTime(slots: seq<ScheduleSlot>, t: string) {
    t !in OccupiedTimes(slots)
  }

  /** getAvailableTimes: TIME_SLOTS, in their order, without the occupied times. */
  function AvailableTimes(slots: seq<ScheduleSlot>): (r: seq<string>)
    ensures forall t :: t in r <==> t in TimeSlots && forall s :: s in slots ==> s.time != t
  {
    var free := (t: string) => IsFreeTime(slots, t);
    forall t ensures t in Filter(TimeSlots, free) <==> t in TimeSlots && IsFreeTime(slots, t) {
      FilterMember(TimeSlots, free, t);
    }
    Filter(TimeSlots, free)
  }

  /** An empty day offers all four times. */
  lemma AllTimesFreeInitially()
    ensures AvailableTimes([]) == TimeSlots
  {
    FilterAll(TimeSlots, (t: string) => IsFreeTime([], t));
  }

  /** Taking a slot removes exactly its time from the free times and keeps the
      order of the rest. */
  lemma AddingSlotTakesItsTime(slots: seq<ScheduleSlot>, s: ScheduleSlot)
    ensures AvailableTimes(slots + [s]) == Filter(AvailableTimes(slots), (t: string) => t != s.time)
  {
    var p := (t: string) => IsFreeTime(slots, t);
    var q := (t: string) => IsFreeTime(slots + [s], t);
    var q' := (t: string) => t != s.time;
    assert forall t :: q(t) ==> p(t);
    FilterFilter(TimeSlots, p, q);
    forall t | t in Filter(TimeSlots, p) ensures q(t) == q'(t) {
      FilterMember(TimeSlots, p, t);
    }
    FilterCongruent(Filter(TimeSlots, p), q, q');
  }

  /** The "free time" card: TIME_SLOTS.length - slots.length. */
  function FreeSlotCount(slots: seq<ScheduleSlot>): int {
    |TimeSlots| - |slots|
  }

  /** The card never shows a negative number while the slot times are distinct
      members of TIME_SLOTS, which the time picker guarantees. */
  lemma FreeSlotCountNonNegative(slots: seq<ScheduleSlot>)
    requires Distinct(OccupiedTimes(slots))
    requires forall s :: s in slots ==> s.time in TimeSlots
    ensures 0 <= FreeSlotCount(slots) <= |TimeSlots|
  {
    DistinctWithin(OccupiedTimes(slots), TimeSlots);
  }

  predicate HasActivity(activity: string, s: ScheduleSlot) {
    s.activity == activity
  }

  /** `slots.filter(s => s.activity === activity).length` */
  function ActivityCount(slots: seq<ScheduleSlot>, activity: string): (r: nat)
    ensures r <= |slots|
    ensures r == 0 <==> forall s :: s in slots ==> s.activity != activity
  {
    var p := (s: ScheduleSlot) => HasActivity(activity, s);
    forall s ensures s in Filter(slots, p) <==> s in slots && s.activity == activity {
      FilterMember(slots, p, s);
    }
    assert |Filter(slots, p)| > 0 ==> Filter(slots, p)[0] in Filter(slots, p);
    |Filter(slots, p)|
  }

  /** The cleaning and installation cards together count no more than the slots. */
  lemma ActivityCountsBounded(slots: seq<ScheduleSlot>)
    ensures ActivityCount(slots, "cleaning") + ActivityCount(slots, "install_item") <= |slots|
  {
    FilterDisjointLength(slots, (s: ScheduleSlot) => HasActivity("cleaning", s),
      (s: ScheduleSlot) => HasActivity("install_item", s));
  }

  const ActivityLabels: map<string, string> :=
    map["cleaning" := "清潔", "install_item" := "安裝物品", "booking" := "客戶預約", "free" := "空閒"]

  /** getActivityLabel */
  function GetActivityLabel(activity: string): (r: string)
    ensures activity !in ActivityLabels ==> r == activity
  {
    LookupOr(ActivityLabels, activity, activity)
  }

  /** No activity label is the empty string, so the lookup falls back only for
      an unknown activity. */
  lemma ActivityLabelsNonEmpty()
    ensures NoEmptyValues(ActivityLabels)
  {
  }

  /** The four activities get four distinct labels, none equal to its key. */
  lemma ActivityLabelsDistinct(a: string, b: string)
    requires a in ActivityLabels && b in ActivityLabels && a != b
    ensures GetActivityLabel(a) != GetActivityLabel(b)
    ensures GetActivityLabel(a) != a
  {
  }

  const UnknownItem: string := "未知物品"

  /** The schedule screen's getRoomName: no "unplaced" case, only unknown rooms. */
  function RoomNameOr(rooms: seq<Room>, roomId: string): (r: string)
    ensures (forall room :: room in rooms ==> room.id != roomId) ==> r == MyItems.UnknownRoom
    ensures forall k ::
      (0 <= k < |rooms| && rooms[k].id == roomId && forall j :: 0 <= j < k ==> rooms[j].id != roomId) ==>
        r == rooms[k].name
  {
    match MyItems.FindRoom(rooms, roomId)
    case None => MyItems.UnknownRoom
    case Some(room) =>
      assert forall k ::
        (0 <= k < |rooms| && rooms[k].id == roomId && forall j :: 0 <= j < k ==> rooms[j].id != roomId) ==>
          MyItems.FindRoomIndex(rooms, roomId) == Some(k);
      room.name
  }

  /** getItemName: the name of the first inventory entry with that id. */
  function ItemNameOr(inventory: seq<InventoryItem>, itemId: string): (r: string)
    ensures (forall it :: it in inventory ==> it.id != itemId) ==> r == UnknownItem
    ensures forall k ::
      (0 <= k < |inventory| && inventory[k].id == itemId && forall j :: 0 <= j < k ==> inventory[j].id != itemId) ==>
        r == inventory[k].name
  {
    if inventory == [] then UnknownItem
    else if inventory[0].id == itemId then inventory[0].name
    else
      var rest := inventory[1..];
      assert forall it :: it in inventory ==> it == inventory[0] || it in rest;
      assert forall k :: 1 <= k < |inventory| ==> rest[k - 1] == inventory[k];
      ItemNameOr(rest, itemId)
  }

  /** The `scheduleData` record built from the dialog's fields; an empty string
      is an unselected field. */
  function BuildSlot(time: string, activity: string, roomId: string, itemId: string,
                     rooms: seq<Room>, inventory: seq<InventoryItem>): (s: ScheduleSlot)
    ensures s.time == time && s.activity == activity
    ensures s.roomId.Some? <==>
      roomId != "" && (activity == "cleaning" || (activity == "install_item" && itemId != ""))
    ensures s.roomId.Some? ==> s.roomId.value == roomId && s.description.Some?
    ensures s.itemId.Some? <==> activity == "install_item" && roomId != "" && itemId != ""
    ensures s.itemId.Some? ==> s.itemId.value == itemId
    ensures s.description.Some? <==> s.roomId.Some?
  {
    if activity == "cleaning" && roomId != "" then
      ScheduleSlot(time, activity, Some(roomId), None, Some("清潔 " + RoomNameOr(rooms, roomId)))
    else if activity == "install_item" && roomId != "" && itemId != "" then
      ScheduleSlot(time, activity, Some(roomId), Some(itemId),
        Some("安裝 " + ItemNameOr(inventory, itemId) + " 到 " + RoomNameOr(rooms, roomId)))
    else
      ScheduleSlot(time, activity, None, None, None)
  }

  /** handleAddSchedule: nothing happens without a time and an activity;
      otherwise exactly one slot is appended. The time is not checked against
      the occupied ones here (the picker offers only free times) and an item
      may be scheduled for installation more than once. */
  method HandleAddSchedule(store: Store.GameStore, time: string, activity: string, roomId: string, itemId: string)
    returns (outcome: Outcome)
    modifies store
    ensures outcome == Ignored <==> time == "" || activity == ""
    ensures outcome != Ignored ==> outcome == Applied
    ensures outcome == Ignored ==> store.State() == old(store.State())
    ensures outcome == Applied ==> store.State() == old(store.State()).(schedule := old(store.schedule).(
      slots := old(store.schedule).slots + [BuildSlot(time, activity, roomId, itemId, old(store.rooms), old(store.inventory))]))
  {
    if time == "" || activity == "" {
      return Ignored;
    }
    var slot := BuildSlot(time, activity, roomId, itemId, store.rooms, store.inventory);
    store.AddToSchedule(slot);
    outcome := Applied;
  }
}
