# Party-room manager, modelled in Dafny

A model of the game logic of a browser game in which the player runs a
party-room business. Day by day the player rents rooms of four sizes, buys
items from a shop, installs them in rooms, schedules cleaning and
installations, assigns customer bookings to rooms and closes the day.

Closing the day completes the confirmed bookings of the day. It records the
day's statistics: revenue, rent, profit, average satisfaction. Then it moves
money and reputation, advances the day and generates the next day's bookings.

The model follows the program's own layout:

- the fixed tables (`Constants`) and the shared label lookups (`Utils`);
- the pure calculations: `SatisfactionCalculator`, `DailySettlement` and `BookingGenerator`;
- the game-state store, a class whose actions replace its fields (`Store`);
- one module per screen: `MyItems`, `Schedule`, `Inventory`, `RoomManagement`,
  `ItemShop`, `BookingManagement` and `SettlementPanel`;
- the record a new game starts from (`NewGame`).

Each screen handler is a method over the store.
- It returns `Applied`, `Ignored` (a required selection is missing) or
  `Rejected(message)` (the alert the screen shows).
- It states exactly which new store state results.

Randomness, the clock and timestamps are inputs:
- each `Math.random()` draw is the index it is turned into (`BookingGenerator.Draw`);
- `Date.now()` is a natural number `now`;
- ISO timestamps are strings.

Numbers are exact: JavaScript's doubles become `int` where the source only
ever holds whole numbers, and `real` elsewhere (satisfaction, reputation,
averages). Rounding of doubles is not modelled; "## Left out" lists where it
can change a result.

## Model

| member | source | states |
|---|---|---|
| Constants.RoomConfigIncreasing | src/lib/constants.ts:1-6 | capacity, item slots and rent all grow strictly from small to medium to large to extra large |
| Constants.CatalogWellFormed | src/lib/constants.ts:8-16 | the shop catalog has seven entries with distinct ids and positive attraction and price |
| Constants.Requirements | src/lib/constants.ts:18-24 | every customer type has a nonempty list of requirement tags |
| Constants.CustomerTypesComplete | src/lib/bookingGenerator.ts:9-10 | the list the generator draws customer types from contains every customer type |
| Constants.TimeSlotsDistinct | src/lib/constants.ts:26-31 | a day has four distinct time slots |
| Utils.LookupOrMissingOnly | src/lib/utils.ts:7 | the or-fallback lookup over a table with no empty entry yields the entry for a listed key and the fallback exactly for an unlisted one |
| Utils.ItemTypeTablesNonEmpty | src/lib/utils.ts:2-7 | no item-type icon or label is the empty string, and no listed type maps to the fallback icon |
| Utils.GetItemTypeIcon | src/lib/utils.ts:1-8 | the fallback icon 📦 is returned exactly for a type with no entry |
| Utils.GetItemTypeLabel | src/lib/utils.ts:10-17 | an unknown type is shown as itself; a known type gets a label different from its key |
| Utils.ItemTypeIconsDistinct | src/lib/utils.ts:1-8 | the three item types have three distinct icons, none of them the fallback |
| Utils.ItemTypeLabelsDistinct | src/lib/utils.ts:10-17 | the three item types have three distinct labels |
| Utils.ItemTypeTablesComplete | src/lib/utils.ts:1-17 | both tables have exactly the item type names as keys |
| SatisfactionCalculator.RoomItems | src/lib/satisfactionCalculator.ts:15 | an item is among the room's items iff the room lists its id |
| SatisfactionCalculator.MatchedRequirements | src/lib/satisfactionCalculator.ts:16-18 | a tag is matched iff it is required and some room item's type or name contains it |
| SatisfactionCalculator.CapacityScore | src/lib/satisfactionCalculator.ts:11-12 | the base term is 70 iff the room holds the party and 30 iff it does not |
| SatisfactionCalculator.RequirementScore | src/lib/satisfactionCalculator.ts:19 | the requirement term lies in [0, 30] and is 30 iff every tag is matched |
| SatisfactionCalculator.AttractionBonus | src/lib/satisfactionCalculator.ts:22-23 | the attraction term is at most 20, is not negative for a nonnegative total, and reaches 20 iff the total is at least 200 |
| SatisfactionCalculator.CalculateSatisfaction | src/lib/satisfactionCalculator.ts:3-26 | the score lies in [0, 100]; it is at most 80 when the party does not fit; with nonnegative attractions it is at least the capacity term |
| SatisfactionCalculator.SatisfactionUsesRoomItemsOnly | src/lib/satisfactionCalculator.ts:15 | the score over all items equals the score over the room's own items |
| SatisfactionCalculator.SatisfactionIgnoresForeignItem | src/lib/satisfactionCalculator.ts:15 | adding an item the room does not list leaves the score unchanged |
| SatisfactionCalculator.SatisfactionWithoutItems | src/lib/satisfactionCalculator.ts:3-26 | a room without items scores exactly 70 when the party fits and 30 when it does not |
| SatisfactionCalculator.CalculateRevenue | src/lib/satisfactionCalculator.ts:28-32 | revenue lies between 0 and 50 per person; it is 0 at satisfaction 0 and the full fee at 100 |
| SatisfactionCalculator.RevenueMonotone | src/lib/satisfactionCalculator.ts:28-32 | a higher satisfaction never earns less |
| SatisfactionCalculator.RevenueExample | src/lib/satisfactionCalculator.ts:28-32 | four guests at satisfaction 80 pay 160 |
| DailySettlement.CompletedToday | src/lib/dailySettlement.ts:4-6 | a booking counts iff it is completed and dated the given day |
| DailySettlement.Expenses | src/lib/dailySettlement.ts:9 | the rent total of the rooms is not negative |
| DailySettlement.AverageSatisfaction | src/lib/dailySettlement.ts:11-13 | the average is 0 with no bookings, otherwise it times their count is their satisfaction total |
| DailySettlement.CalculateDailySettlement | src/lib/dailySettlement.ts:3-23 | the record's day, completed count, expenses and profit = revenue - expenses; a day without completions has zero revenue and average and loses exactly the rent |
| DailySettlement.AverageBetween | src/lib/dailySettlement.ts:11-13 | the average lies between any lower and upper bound of the averaged satisfactions |
| DailySettlement.AverageOfBounded | src/lib/dailySettlement.ts:11-13 | the mean of a nonempty list of bounded satisfactions keeps the bounds |
| DailySettlement.AverageInRange | src/lib/dailySettlement.ts:11-13 | satisfactions in [0, 100] give an average in [0, 100] |
| DailySettlement.SettlementIgnoresOtherBookings | src/lib/dailySettlement.ts:4-6 | a booking of another day or status does not change the statistics |
| DailySettlement.SettlementUsesCompletedTodayOnly | src/lib/dailySettlement.ts:4-6 | keeping only the day's completed bookings gives the same statistics |
| DailySettlement.SettlementExample | src/lib/dailySettlement.ts:3-23 | one small room and one completed booking earning 160 give revenue 160, expenses 500, profit -340 |
| BookingGenerator.BookingCount | src/lib/bookingGenerator.ts:5 | the count is at most 8, at least 3 iff reputation is not negative, and 8 iff reputation is at least 100 |
| BookingGenerator.NewBooking | src/lib/bookingGenerator.ts:9-27 | a generated booking is pending, unassigned and unscored, seats 2 to 16 people, has a listed slot and type, carries its type's tags and is dated the day |
| BookingGenerator.BookingsFor | src/lib/bookingGenerator.ts:8-28 | the k-th booking of a run is the booking built from the k-th draw, and the run has exactly the requested length |
| BookingGenerator.Batch | src/lib/bookingGenerator.ts:4-31 | the batch holds as many bookings as the count says, or none when the count is not positive; every one is pending, unassigned and dated for the requested day |
| BookingGenerator.GenerateDailyBookings | src/lib/bookingGenerator.ts:4-31 | the loop returns exactly the batch |
| BookingGenerator.BatchIdsDistinct | src/lib/bookingGenerator.ts:14 | the ids within one batch are pairwise distinct |
| BookingGenerator.BookingIdInjective | src/lib/bookingGenerator.ts:14 | for days that are not negative, the id determines the day and the index, so batches of different days never share an id |
| BookingGenerator.BatchSize | src/lib/bookingGenerator.ts:5 | with reputation in [0, 100] a batch holds 3 to 8 bookings |
| Store.ApplyBookingPatch | src/store/gameStore.ts:37-39 | the empty patch changes nothing; a present status replaces the status; an absent id keeps the id |
| Store.UpdateBookings | src/store/gameStore.ts:37-39 | only the bookings with the given id are patched; the others and the length stay as they were |
| Store.UpdateBookingsKeepsIds | src/store/gameStore.ts:37-39 | a patch without an id keeps every booking's id |
| Store.PlaceItem | src/store/gameStore.ts:28-35 | the items with the given id get the room id; the others stay as they were |
| Store.AppendItemToRoom | src/store/gameStore.ts:28-35 | the rooms with the given id list the item at the end; the others stay as they were |
| Store.AssignKeepsPlacementsListed | src/store/gameStore.ts:28-35 | assigning an item keeps every placed item listed by the room it points to |
| Store.GameStore.constructor | src/store/gameStore.ts:15-23 | the initial record: day 1, money 10000, reputation 50, no rooms, items, bookings or statistics |
| Store.GameStore.SetGameState | src/store/gameStore.ts:25 | each field present in the update replaces the stored one; the rest are kept |
| Store.GameStore.AddRoom | src/store/gameStore.ts:26 | appends the room and changes nothing else |
| Store.GameStore.AddItem | src/store/gameStore.ts:27 | appends the item and changes nothing else |
| Store.GameStore.AssignItemToRoom | src/store/gameStore.ts:28-35 | places the item and lists it in the room, with no other change |
| Store.GameStore.AddBooking | src/store/gameStore.ts:36 | appends the booking and changes nothing else |
| Store.GameStore.UpdateBooking | src/store/gameStore.ts:37-39 | patches the bookings with the id and changes nothing else |
| Store.GameStore.EndDay | src/store/gameStore.ts:40 | only the day counter moves, by one |
| Store.GameStore.SpendMoney | src/store/gameStore.ts:41 | money drops by the amount, with no lower bound |
| Store.GameStore.AddToInventory | src/components/ItemShop.tsx:38 | appends the inventory entry and changes nothing else |
| Store.GameStore.AddToSchedule | src/components/Schedule.tsx:78 | appends the slot to the day's schedule and changes nothing else |
| Store.GameStore.RemoveFromSchedule | src/components/Schedule.tsx:253 | drops exactly the slots at the given time |
| Store.AddBookings | src/components/DailySettlement.tsx:98 | adding bookings one by one appends them all, in order |
| Store.SlotsNotAt | src/components/Schedule.tsx:253 | a slot is kept iff it is not at the given time |
| MyItems.FindRoomIndex | src/components/MyItems.tsx:33 | finds the first room with the id, or reports that no room has it |
| MyItems.FindRoom | src/components/MyItems.tsx:33 | `None` iff no room has the id; otherwise a listed room with that id |
| MyItems.GetRoomName | src/components/MyItems.tsx:31-35 | "未放置" for an unplaced item, "未知房間" for an unknown id, otherwise the room's name |
| MyItems.RoomGroup | src/components/MyItems.tsx:62-63 | an item is in a room's group iff it is placed in that room |
| MyItems.GetRoomTotalAttraction | src/components/MyItems.tsx:37-40 | an empty group scores 0; nonnegative attractions give a nonnegative total |
| MyItems.Unplaced | src/components/MyItems.tsx:128 | an item is listed as unplaced iff it has no room id |
| MyItems.ItemInExactlyOneGroup | src/components/MyItems.tsx:62-63 | with distinct room ids a placed item is shown under exactly one room |
| MyItems.EveryItemShown | src/components/MyItems.tsx:62-63 | an item whose room id names a room is shown under it; an item with no room id is listed as unplaced |
| MyItems.RoomAttractionAppend | src/components/MyItems.tsx:37-40 | a new item adds its attraction to its own room's total and nothing to other rooms |
| Schedule.OccupiedTimes | src/components/Schedule.tsx:86-89 | a time is occupied iff some slot is at that time |
| Schedule.AvailableTimes | src/components/Schedule.tsx:86-89 | a time is offered iff it is a day slot that no scheduled slot uses |
| Schedule.AllTimesFreeInitially | src/components/Schedule.tsx:86-89 | an empty day offers all four times, in order |
| Schedule.AddingSlotTakesItsTime | src/components/Schedule.tsx:86-89 | a new slot removes exactly its time from the offered times and keeps the order of the rest |
| Schedule.FreeSlotCountNonNegative | src/components/Schedule.tsx:306 | the free-time card lies in [0, 4] while slot times are distinct day slots |
| Schedule.ActivityCount | src/components/Schedule.tsx:278 | the count is at most the number of slots and 0 iff no slot has the activity |
| Schedule.ActivityCountsBounded | src/components/Schedule.tsx:278-292 | the cleaning and installation counts together never exceed the number of slots |
| Schedule.ActivityLabelsNonEmpty | src/components/Schedule.tsx:32-38 | no activity label is empty, so only an unknown activity falls back to itself |
| Schedule.GetActivityLabel | src/components/Schedule.tsx:31-39 | an unknown activity is shown as itself |
| Schedule.ActivityLabelsDistinct | src/components/Schedule.tsx:31-39 | the four activities have four distinct labels, none equal to its key |
| Schedule.RoomNameOr | src/components/Schedule.tsx:51-54 | an id no room has gives "未知房間"; otherwise the name of the first room with the id |
| Schedule.ItemNameOr | src/components/Schedule.tsx:56-59 | an unknown item gives "未知物品"; the first entry with the id gives its name |
| Schedule.BuildSlot | src/components/Schedule.tsx:64-76 | the slot carries a room iff a room was chosen for cleaning or an installation with an item; it carries an item iff it is such an installation; it has a description iff it has a room |
| Schedule.HandleAddSchedule | src/components/Schedule.tsx:61-84 | nothing happens without a time and an activity; otherwise exactly the built slot is appended |
| Inventory.InstallSlot | src/components/Inventory.tsx:49-55 | the slot installs the item in the room at the chosen time |
| Inventory.InstallKeepsOnePerItem | src/components/Inventory.tsx:32-39 | appending the slot of an item with no installation keeps one installation per item |
| Inventory.HandleScheduleInstallation | src/components/Inventory.tsx:28-61 | ignored iff a selection is missing; refused for an already scheduled item, then for an unknown or full room; otherwise exactly the slot is appended; one installation per item is preserved and the time is no longer free |
| Inventory.ScheduleScreenCanDuplicateInstall | src/components/Schedule.tsx:61-84 | the time-table screen can add a second installation of an item, breaking one installation per item |
| RoomManagement.NewRoom | src/components/RoomManagement.tsx:35-45 | the rented room has id `room-<now>`, is named after the new room count, carries its size's configuration and no items |
| RoomManagement.NewRoomIdsDistinct | src/components/RoomManagement.tsx:36 | rooms rented at different instants have different ids |
| RoomManagement.HandleRentRoom | src/components/RoomManagement.tsx:26-49 | ignored iff no size is chosen; refused iff money is below the rent; otherwise the room is appended and the rent paid; money never turns negative |
| RoomManagement.SizeLabelsNonEmpty | src/components/RoomManagement.tsx:52-58 | no size label is empty, so only an unknown size falls back to itself |
| RoomManagement.GetRoomSizeLabel | src/components/RoomManagement.tsx:51-59 | an unknown size is shown as itself; a known one gets a different label |
| RoomManagement.SizeLabelsDistinct | src/components/RoomManagement.tsx:51-59 | the four sizes have four distinct labels |
| ItemShop.PurchasedItem | src/components/ItemShop.tsx:28-36 | the inventory entry has id `<catalog id>-<now>` and the catalog entry's fields |
| ItemShop.PurchasedIdsDistinct | src/components/ItemShop.tsx:29 | two purchases at different instants get different ids |
| ItemShop.HandlePurchase | src/components/ItemShop.tsx:21-42 | refused iff the buy button is disabled (money below price); otherwise the entry is appended and the price paid; money never turns negative |
| ItemShop.CatalogTab | src/components/ItemShop.tsx:63-67 | the "all" tab is the whole catalog; an entry is under a tab iff the tab is "all" or names its type |
| ItemShop.TypeTabSizes | src/components/ItemShop.tsx:63-67 | the game tab lists three catalog entries, the entertainment and decoration tabs two each |
| ItemShop.TypeTabsPartitionCatalog | src/components/ItemShop.tsx:63-67 | an entry is under its own type's tab only, and the three type tabs' sizes add up to the catalog's |
| BookingManagement.TotalAttraction | src/components/BookingManagement.tsx:26-29 | no rooms give 0; nonnegative attractions give a nonnegative total |
| BookingManagement.TotalAttractionSplit | src/components/BookingManagement.tsx:26-29 | the total is the total of all rooms but the last plus the last room's |
| BookingManagement.TotalAttractionIgnoresUnplaced | src/components/BookingManagement.tsx:26-29 | an item placed in no room adds nothing |
| BookingManagement.TotalAttractionAddsPlaced | src/components/BookingManagement.tsx:26-29 | with a unique room id, an item placed in that room adds exactly its attraction |
| BookingManagement.QueryCount | src/components/BookingManagement.tsx:92-95 | at most 5; at least 1 for nonnegative inputs; 5 from reputation 80 on |
| BookingManagement.SliceEnd | src/components/BookingManagement.tsx:98 | the JavaScript slice end: clamped to the length, and counted from the back when negative |
| BookingManagement.QueriesShape | src/components/BookingManagement.tsx:91-99 | at most 5 queries for a nonnegative count and at least 1 in the normal range; every query is pending and dated today; ids are distinct |
| BookingManagement.GenerateCustomerQueries | src/components/BookingManagement.tsx:91-99 | appends exactly the sliced batch to the bookings |
| BookingManagement.StartOfDay | src/components/BookingManagement.tsx:102-108 | nothing happens when a booking is dated today; otherwise the queries are added, after which one is dated today |
| BookingManagement.RecommendIndex | src/components/BookingManagement.tsx:110-124 | `None` iff no room suits; otherwise a suitable room of least capacity mismatch, the first one among equals |
| BookingManagement.GetRoomRecommendation | src/components/BookingManagement.tsx:110-124 | no recommendation iff no room fits the party with space for items; otherwise a suitable room with the least mismatch |
| BookingManagement.ExactFitRecommended | src/components/BookingManagement.tsx:119-123 | when a suitable room fits exactly, the recommendation fits exactly |
| BookingManagement.AssignPatch | src/components/BookingManagement.tsx:75-83 | the update confirms the booking in the room with a satisfaction in [0, 100] and a revenue in [0, 50 per person] |
| BookingManagement.AssignedBooking | src/components/BookingManagement.tsx:75-83 | the assigned booking differs from the original only in room, status, satisfaction and revenue |
| BookingManagement.HandleAssignRoom | src/components/BookingManagement.tsx:69-88 | ignored iff no booking, no room or an unknown room is selected; otherwise the booking is updated with the computed patch |
| BookingManagement.BookingTablesNonEmpty | src/components/BookingManagement.tsx:32-66 | no customer-type label, customer-type icon or requirement label is empty, so each lookup falls back only for an unknown key |
| BookingManagement.GetCustomerTypeLabel | src/components/BookingManagement.tsx:31-40 | an unknown type is shown as itself; a known one gets a different label |
| BookingManagement.GetCustomerTypeIcon | src/components/BookingManagement.tsx:42-51 | the fallback icon 👤 is returned exactly for an unknown type |
| BookingManagement.GetRequirementLabel | src/components/BookingManagement.tsx:53-67 | an unknown tag is shown as itself; a known one gets a different label |
| BookingManagement.CustomerTypeLabelsDistinct | src/components/BookingManagement.tsx:31-51 | the five customer types have five distinct labels, and none falls back to the default icon |
| BookingManagement.RequirementsLabelled | src/components/BookingManagement.tsx:53-67 | every requirement tag of every customer type has a label of its own |
| SettlementPanel.ConfirmedToday | src/components/DailySettlement.tsx:38 | a booking is listed iff it is confirmed and dated the day |
| SettlementPanel.CompleteConfirmedToday | src/components/DailySettlement.tsx:72-76 | every booking is kept in place, completed exactly when confirmed for the day |
| SettlementPanel.CompletionAddsConfirmed | src/components/DailySettlement.tsx:66-81 | after completion the day's completed count is the earlier completed count plus the confirmed count |
| SettlementPanel.CompletionAddsConfirmedRevenue | src/components/DailySettlement.tsx:66-81 | after completion the day's revenue is the earlier completed revenue plus the confirmed revenue |
| SettlementPanel.EndOfDayStatsCounts | src/components/DailySettlement.tsx:66-81 | the day's record counts completed and confirmed bookings, with their revenue, and profit = revenue - rent |
| SettlementPanel.MarkCompleted | src/components/DailySettlement.tsx:60-62 | a booking becomes completed iff its id is marked; the others are unchanged |
| SettlementPanel.MarkCompletedIsMap | src/components/DailySettlement.tsx:60-76 | with distinct ids, completing by id equals the mapped list the statistics use |
| SettlementPanel.NewReputation | src/components/DailySettlement.tsx:85 | reputation stays in [0, 100], rises for an average of at least 50, falls for at most 50, and moves by at most 5 |
| SettlementPanel.NewReputationExample | src/components/DailySettlement.tsx:85 | reputation 50 and average 90 give 54 |
| SettlementPanel.EndOfDayStateShape | src/components/DailySettlement.tsx:55-105 | with distinct ids: next day, money plus profit, reputation in [0, 100], the record appended, today's confirmed bookings completed, and new pending bookings dated the next day appended |
| SettlementPanel.HandleEndDay | src/components/DailySettlement.tsx:55-105 | the store ends in the end-of-day state of the state it started from |
| SettlementPanel.CloseDay | src/components/DailySettlement.tsx:60-94 | completes, records, pays and advances the day, returning the new reputation |
| SettlementPanel.CompleteByIds | src/components/DailySettlement.tsx:60-62 | updating the bookings one id at a time marks exactly those ids completed |
| SettlementPanel.EndDayCompletesConfirmed | src/components/DailySettlement.tsx:60-62 | with distinct ids, a booking is completed by the close iff it was confirmed for the day; others are unchanged |
| SettlementPanel.GetSatisfactionColor | src/components/DailySettlement.tsx:107-111 | green iff at least 80, yellow iff in [60, 80), red iff below 60 |
| SettlementPanel.GetSatisfactionIcon | src/components/DailySettlement.tsx:113-117 | 😊 iff at least 80, 😐 iff in [60, 80), 😞 iff below 60 |
| SettlementPanel.ColourMatchesIcon | src/components/DailySettlement.tsx:107-117 | the colour and the icon always name the same band |
| NewGame.InitialState | src/lib/firestore.ts:17-40 | a new game: day 1, money 10000, reputation 50, one empty small room, nothing else |
| NewGame.InitialRoomIsRentedSmallRoom | src/lib/firestore.ts:22-31 | the seeded room is the room renting a small room would yield, and the empty schedule has no duplicate installation |

## Left out

- SatisfactionCalculator.CalculateRevenue: arithmetic is exact (`real`), whereas the source computes in IEEE doubles. `satisfaction / 100` is rounded before the product, so the floored fee can come out one lower than in the model. For example, 7 people at satisfaction 70 give 350 * 0.7, which is 244.99999999999997 in doubles, so the source's fee is 244 while the model's is 245. The same happens for 13 and 14 people at 70.
- DailySettlement.AverageSatisfaction: the mean is an exact rational; the source's double division rounds it.
- SettlementPanel.NewReputation: `(avg - 50) / 10` and the sum with the old reputation are exact; the source rounds each to a double, so the stored reputation can differ in the last binary places.
- BookingGenerator.BookingCount: `floor(reputation / 20)` is taken over the exact quotient of the model's exact reputation. When the source's double reputation differs from the exact one (see SettlementPanel.NewReputation) and sits at a multiple of 20, the count can differ by one.
- SatisfactionCalculator.CalculateSatisfaction: requires a nonempty list of requirement tags. Without tags the source divides 0 by 0, and the resulting NaN is not modelled.
- BookingManagement.HandleAssignRoom: requires a nonempty tag list on the selected booking, for the same reason. Every generated booking has one.
- BookingManagement.AssignPatch: the same requirement.
- BookingManagement.QueriesShape: the bound of five queries is stated only for a nonnegative query count. A count below zero (a large negative total attraction) makes `slice(0, n)` count from the back, and then up to seven bookings are kept. The model computes that case faithfully.
- BookingGenerator.NewBooking: the requirement list is the type's tag list. The generator reads `.required` and `.wanted` from that plain array and spreads them into the list. Neither property exists, so as written the spread fails. The extra `requiredItems` and `wantedItems` fields are not part of the booking record and are left out.
- BookingGenerator.GenerateDailyBookings: the total attraction argument is accepted and ignored, as in the source. The end-of-day call omits it.
- Store.GameStore.constructor: the source's initial store record has no `inventory` or `schedule` field; both stay undefined until a saved game is loaded. The model has no undefined value for them and starts them as the empty inventory and an empty schedule for day 1.
- Store.GameStore.AddToInventory, Store.GameStore.AddToSchedule, Store.GameStore.RemoveFromSchedule: the store file does not define these actions, though the screens call them. They are defined over the inventory and schedule shapes of the new-game record. Removal drops every slot at the given time.
- The inventory entry's install time: catalog entries have none, so a purchase leaves it absent.
- The time-table screen imports `SCHEDULE_ACTIVITIES` but never uses it. The activity picker offers the three literals `cleaning`, `install_item` and `free`, while Schedule.HandleAddSchedule accepts any nonempty activity string; the picker's restriction is not modelled.
- The room `cleanliness` field is written by the new-game seed and read by the time-table screen, but it is not part of the room record. It is not modelled.
- Label tables are keyed lookups. JavaScript object-prototype keys (such as `constructor`) would resolve to inherited members; that is not modelled.
- Schedule.HandleAddSchedule: it does not check that the time is free; the picker offers only free times. It does not refuse a second installation of an item; see Inventory.ScheduleScreenCanDuplicateInstall.
- Colour and icon maps of the time-table cards, and every piece of rendering (JSX, dialogs, buttons other than the disabled buy button), are left out.
- The room screen's size selection is an optional size rather than a free string; an empty selection is `None`.
- The item overview's own item-type label table is identical to the shared one and is modelled once (`Utils.GetItemTypeLabel`).
- SettlementPanel.HandleEndDay: modelled as one atomic transition over the state the screen rendered. The source's asynchronous handler, its try/catch and the React re-render timing are not modelled.
- SettlementPanel.HandleEndDay: the stored bookings are completed by id, while the statistics use a mapped copy of the list. The two agree when booking ids are distinct, which EndOfDayStateShape and MarkCompletedIsMap assume. Duplicate ids are not analysed further.
- BookingManagement.StartOfDay: the effect's dependency on the day alone and its stale closure over the bookings are not modelled. The check runs against the current store.
- The `handleGenerateBookings` button handler referenced by the booking screen is not defined anywhere in the source, so it is not modelled.
- Loading and saving the game in Firestore, authentication, routing, hooks and page layout are left out. Randomness (`Math.random`), the clock (`Date.now`) and ISO dates are parameters.
