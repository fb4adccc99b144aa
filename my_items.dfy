/** The item overview: items grouped by the room they are placed in, the
    unplaced ones, room names and per-room attraction. */
module MyItems {
  import opened Types
  import opened Lists

  const NotPlaced: string := "未放置"
  const UnknownRoom: string := "未知房間"

  /** The position of the first room with the given id. */
  function FindRoomIndex(rooms: seq<Room>, roomId: string): (r: Option<nat>)
    ensures r.None? <==> forall room :: room in rooms ==> room.id != roomId
    ensures r.Some? ==> r.value < |rooms| && rooms[r.value].id == roomId
    ensures r.Some? ==> forall j :: 0 <= j < r.value ==> rooms[j].id != roomId
  {
    if rooms == [] then None
    else if rooms[0].id == roomId then Some(0)
    else
      var rest := FindRoomIndex(rooms[1..], roomId);
      assert forall room :: room in rooms ==> room == rooms[0] || room in rooms[1..];
      if rest.Some? then Some(rest.value + 1) else None
  }

  /** `rooms.find(r => r.id === roomId)`: the first room with that id. */
  function FindRoom(rooms: seq<Room>, roomId: string): (r: Option<Room>)
    ensures r.None? <==> forall room :: room in rooms ==> room.id != roomId
    ensures r.Some? ==> r.value in rooms && r.value.id == roomId
  {
    match FindRoomIndex(rooms, roomId)
    case None => None
    case Some(k) => Some(rooms[k])
  }

  /** getRoomName: "未放置" for an unplaced item, "未知房間" for an id no room has,
      otherwise the name of the first room with that id. */
  function GetRoomName(rooms: seq<Room>, roomId: Option<string>): (r: string)
    ensures !Truthy(roomId) ==> r == NotPlaced
    ensures Truthy(roomId) && (forall room :: room in rooms ==> room.id != roomId.value) ==> r == UnknownRoom
    ensures Truthy(roomId) && FindRoom(rooms, roomId.value).Some? ==> r == FindRoom(rooms, roomId.value).value.name
  {
    if !Truthy(roomId) then NotPlaced
    else
      match FindRoom(rooms, roomId.value)
      case None => UnknownRoom
      case Some(room) => room.name
  }

  predicate PlacedIn(roomId: string, it: Item) {
    it.roomId == Some(roomId)
  }

  /** `items.filter(item => item.roomId === room.id)`: the room's group. */
  function RoomGroup(items: seq<Item>, roomId: string): (r: seq<Item>)
    ensures forall it :: it in r <==> it in items && it.roomId == Some(roomId)
  {
    var p := (it: Item) => PlacedIn(roomId, it);
    forall it ensures it in Filter(items, p) <==> it in items && it.roomId == Some(roomId) {
      FilterMember(items, p, it);
    }
    Filter(items, p)
  }

  function Attraction(it: Item): int { it.attraction }

  /** getRoomTotalAttraction: the attraction of the room's group, 0 when it is empty. */
  function GetRoomTotalAttraction(items: seq<Item>, roomId: string): (r: int)
    ensures RoomGroup(items, roomId) == [] ==> r == 0
    ensures (forall it :: it in items ==> it.attraction >= 0) ==> r >= 0
  {
    var group := RoomGroup(items, roomId);
    if forall it :: it in items ==> it.attraction >= 0 then
      SumNonNegative(group, Attraction);
      Sum(group, Attraction)
    else
      Sum(group, Attraction)
  }

  /** `items.filter(item => !item.roomId)`: the unplaced list. */
  function Unplaced(items: seq<Item>): (r: seq<Item>)
    ensures forall it :: it in r <==> it in items && !Truthy(it.roomId)
  {
    var p := (it: Item) => !Truthy(it.roomId);
    forall it ensures it in Filter(items, p) <==> it in items && !Truthy(it.roomId) {
      FilterMember(items, p, it);
    }
    Filter(items, p)
  }

  /** With distinct room ids, an item with a room id appears in the group of
      exactly the room carrying that id and in no other group. */
  lemma ItemInExactlyOneGroup(rooms: seq<Room>, items: seq<Item>, it: Item, k: nat)
    requires forall i, j :: 0 <= i < j < |rooms| ==> rooms[i].id != rooms[j].id
    requires it in items && k < |rooms| && it.roomId == Some(rooms[k].id)
    ensures it in RoomGroup(items, rooms[k].id)
    ensures forall j :: 0 <= j < |rooms| && j != k ==> it !in RoomGroup(items, rooms[j].id)
  {
  }

  /** An item is shown in a room group or in the unplaced list, unless its
      room id names no room. */
  lemma EveryItemShown(rooms: seq<Room>, items: seq<Item>, it: Item)
    requires it in items
    requires Truthy(it.roomId) ==> exists room :: room in rooms && room.id == it.roomId.value
    ensures it in Unplaced(items) || exists room :: room in rooms && it in RoomGroup(items, room.id)
  {
  }

  /** Adding an item placed elsewhere leaves a room's attraction unchanged;
      adding one placed in the room adds its attraction. */
  lemma RoomAttractionAppend(items: seq<Item>, roomId: string, x: Item)
    ensures GetRoomTotalAttraction(items + [x], roomId)
         == GetRoomTotalAttraction(items, roomId) + (if x.roomId == Some(roomId) then x.attraction else 0)
  {
    var p := (it: Item) => PlacedIn(roomId, it);
    FilterAppend(items, [x], p);
    FilterOne(x, p);
    SumAppend(Filter(items, p), Filter([x], p), Attraction);
    assert [x][..0] == [];
  }
}
