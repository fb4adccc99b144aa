/** The record a new player starts from, as the game is seeded for a user id. */
module NewGame {
  import opened Types
  import opened Constants
  import RoomManagement
  import Inventory

  /** Day 1, 10000 in money, reputation 50, one small room and nothing else. */
  function InitialState(userId: string): (gs: GameState)
    ensures gs.userId == userId && gs.currentDay == 1 && gs.money == 10000 && gs.reputation == 50.0
    ensures |gs.rooms| == 1 && gs.rooms[0].size == Small && gs.rooms[0].items == []
    ensures gs.items == [] && gs.bookings == [] && gs.dailyStats == [] && gs.inventory == []
    ensures gs.schedule == DaySchedule(1, [])
  {
    GameState(userId, 1, 10000, 50.0,
      [Room("room-1", "房間 1", Small, 3, 8, 500, [])],
      [], [], [], [], DaySchedule(1, []))
  }

  /** The seeded room is the room that renting a small room yields when there
      are no rooms yet and the clock reads 1, so it carries the small size's
      configuration; and the empty schedule has no duplicate installation. */
  lemma InitialRoomIsRentedSmallRoom(userId: string)
    ensures InitialState(userId).rooms == [RoomManagement.NewRoom(Small, 0, 1)]
    ensures InitialState(userId).rooms[0].capacity == RoomConfigOf(Small).capacity
    ensures Inventory.AtMostOneInstallPerItem(InitialState(userId).schedule.slots)
  {
    assert RoomManagement.NewRoom(Small, 0, 1).id == "room-1";
    assert RoomManagement.NewRoom(Small, 0, 1).name == "房間 1";
  }
}
