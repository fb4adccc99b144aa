/** The end-of-day screen: completing today's confirmed bookings, settling the
    day, moving money and reputation, starting the next day with a fresh batch
    of bookings, and the colour and icon of a satisfaction score. */
module SettlementPanel {
  import opened Types
  import opened Lists
  import DailySettlement
  import BookingGenerator
  import Store

  /** A booking the day's close completes: confirmed and dated that day. */
  predicate ConfirmedOn(day: int, b: Booking) {
    b.status == Confirmed && b.date == DayLabel(day)
  }

  function ConfirmedToday(bookings: seq<Booking>, day: int): (r: seq<Booking>)
    ensures forall b :: b in r <==> b in bookings && ConfirmedOn(day, b)
  {
    var p := (b: Booking) => ConfirmedOn(day, b);
    forall b ensures b in Filter(bookings, p) <==> b in bookings && ConfirmedOn(day, b) {
      FilterMember(bookings, p, b);
    }
    Filter(bookings, p)
  }

  function Complete(day: int, b: Booking): Booking {
    if ConfirmedOn(day, b) then b.(status := Completed) else b
  }

  /** The list the statistics are computed from:
      `bookings.map(b => confirmed today ? { ...b, status: 'completed' } : b)`. */
  function CompleteConfirmedToday(bookings: seq<Booking>, day: int): (r: seq<Booking>)
    ensures |r| == |bookings|
    ensures forall k :: 0 <= k < |r| ==> r[k] == Complete(day, bookings[k])
  {
    seq(|bookings|, k requires 0 <= k < |bookings| => Complete(day, bookings[k]))
  }

  /** After completion, the bookings completed today are the ones completed
      before plus the ones that were confirmed. */
  lemma CompletionAddsConfirmed(bookings: seq<Booking>, day: int)
    ensures |DailySettlement.CompletedToday(CompleteConfirmedToday(bookings, day), day)|
         == |DailySettlement.CompletedToday(bookings, day)| + |ConfirmedToday(bookings, day)|
  {
    FilterMergeLength(bookings, CompleteConfirmedToday(bookings, day),
      (x: Booking) => DailySettlement.CompletedOn(day, x), (x: Booking) => ConfirmedOn(day, x));
  }

  /** ... and so is their revenue. */
  lemma CompletionAddsConfirmedRevenue(bookings: seq<Booking>, day: int)
    ensures Sum(DailySettlement.CompletedToday(CompleteConfirmedToday(bookings, day), day), DailySettlement.BookingRevenue)
         == Sum(DailySettlement.CompletedToday(bookings, day), DailySettlement.BookingRevenue)
          + Sum(ConfirmedToday(bookings, day), DailySettlement.BookingRevenue)
  {
    FilterMergeSum(bookings, CompleteConfirmedToday(bookings, day),
      (x: Booking) => DailySettlement.CompletedOn(day, x), (x: Booking) => ConfirmedOn(day, x),
      DailySettlement.BookingRevenue);
  }

  /** The statistics handleEndDay records: the settlement of the pre-close
      state with today's confirmed bookings already completed. */
  function EndOfDayStats(gs: GameState): DailyStats {
    DailySettlement.CalculateDailySettlement(gs.(bookings := CompleteConfirmedToday(gs.bookings, gs.currentDay)))
  }

  /** The recorded day counts the bookings completed earlier that day and the
      ones confirmed for it, earns their revenue, and pays the rent of every room. */
  lemma EndOfDayStatsCounts(gs: GameState)
    ensures EndOfDayStats(gs).day == gs.currentDay
    ensures EndOfDayStats(gs).bookingsCompleted
         == |DailySettlement.CompletedToday(gs.bookings, gs.currentDay)| + |ConfirmedToday(gs.bookings, gs.currentDay)|
    ensures EndOfDayStats(gs).revenue
         == Sum(DailySettlement.CompletedToday(gs.bookings, gs.currentDay), DailySettlement.BookingRevenue)
          + Sum(ConfirmedToday(gs.bookings, gs.currentDay), DailySettlement.BookingRevenue)
    ensures EndOfDayStats(gs).profit == EndOfDayStats(gs).revenue - DailySettlement.Expenses(gs.rooms)
  {
    CompletionAddsConfirmed(gs.bookings, gs.currentDay);
    CompletionAddsConfirmedRevenue(gs.bookings, gs.currentDay);
  }

  /** The patch `{ status: 'completed' }`. */
  const CompletedPatch := Store.EmptyBookingPatch.(status := Some(Completed))

  function Ids(bookings: seq<Booking>): (r: seq<string>)
    ensures |r| == |bookings| && forall k :: 0 <= k < |r| ==> r[k] == bookings[k].id
  {
    seq(|bookings|, k requires 0 <= k < |bookings| => bookings[k].id)
  }

  /** What the store holds after `updateBooking(id, { status: 'completed' })`
      for each id in turn: every booking whose id is among them is completed,
      whatever its date or status; the others are untouched. */
  function MarkCompleted(bookings: seq<Booking>, ids: seq<string>): (r: seq<Booking>)
    ensures |r| == |bookings|
    ensures forall k :: 0 <= k < |r| ==>
      r[k] == if bookings[k].id in ids then bookings[k].(status := Completed) else bookings[k]
  {
    if ids == [] then bookings
    else
      var n := |ids| - 1;
      var before := MarkCompleted(bookings, ids[..n]);
      assert forall id :: id in ids <==> id in ids[..n] || id == ids[n] by {
        assert ids == ids[..n] + [ids[n]];
      }
      Store.UpdateBookings(before, ids[n], CompletedPatch)
  }

  /** With distinct booking ids, completing by id in the store and mapping the
      list for the statistics give the same bookings. */
  lemma MarkCompletedIsMap(bookings: seq<Booking>, day: int)
    requires forall i, j :: 0 <= i < j < |bookings| ==> bookings[i].id != bookings[j].id
    ensures MarkCompleted(bookings, Ids(ConfirmedToday(bookings, day))) == CompleteConfirmedToday(bookings, day)
  {
    var conf := ConfirmedToday(bookings, day);
    var ids := Ids(conf);
    var a, b := MarkCompleted(bookings, ids), CompleteConfirmedToday(bookings, day);
    forall k | 0 <= k < |bookings| ensures a[k] == b[k] {
      if ConfirmedOn(day, bookings[k]) {
        assert bookings[k] in conf;
        var m :| 0 <= m < |conf| && conf[m] == bookings[k];
        assert ids[m] == bookings[k].id;
      }
      if bookings[k].id in ids {
        var m :| 0 <= m < |ids| && ids[m] == bookings[k].id;
        assert conf[m] in conf;
        var j :| 0 <= j < |bookings| && bookings[j] == conf[m];
        assert j == k;
      }
    }
  }

  /** `Math.max(0, Math.min(100, reputation + (avgSatisfaction - 50) / 10))` */
  function NewReputation(reputation: real, avgSatisfaction: real): (r: real)
    ensures 0.0 <= r <= 100.0
    ensures 0.0 <= reputation <= 100.0 && avgSatisfaction >= 50.0 ==> r >= reputation
    ensures 0.0 <= reputation <= 100.0 && avgSatisfaction <= 50.0 ==> r <= reputation
    ensures 0.0 <= reputation <= 100.0 && 0.0 <= avgSatisfaction <= 100.0 ==>
      reputation - 5.0 <= r <= reputation + 5.0
  {
    Clamp(reputation + (avgSatisfaction - 50.0) / 10.0, 0.0, 100.0)
  }

  /** A day averaging 90 raises a reputation of 50 to 54. */
  lemma NewReputationExample()
    ensures NewReputation(50.0, 90.0) == 54.0
  {
  }

  /** The state once the day is closed: today's confirmed bookings completed,
      the day's profit added to the money, the reputation moved by the day's
      average satisfaction, the day's statistics recorded and the day advanced. */
  function ClosedState(gs: GameState): GameState {
    var stats := EndOfDayStats(gs);
    gs.(
      bookings := MarkCompleted(gs.bookings, Ids(ConfirmedToday(gs.bookings, gs.currentDay))),
      money := gs.money + stats.profit,
      reputation := NewReputation(gs.reputation, stats.avgSatisfaction),
      dailyStats := gs.dailyStats + [stats],
      currentDay := gs.currentDay + 1)
  }

  /** The state after handleEndDay: the closed day with the next day's batch,
      drawn with the new reputation, appended to the bookings. */
  function EndOfDayState(gs: GameState, draws: seq<BookingGenerator.Draw>): GameState
    requires BookingGenerator.DrawsCover(draws, 8)
  {
    var closed := ClosedState(gs);
    closed.(bookings := closed.bookings + BookingGenerator.Batch(gs.currentDay + 1, closed.reputation, draws))
  }

  /** What the close promises: the day advances by one, the money moves by the
      day's profit, the reputation stays in [0, 100], exactly one statistics
      record is added, the old bookings keep their places with today's
      confirmed ones completed, and behind them come pending bookings for the
      new day; rooms, items, inventory and schedule are untouched. */
  lemma EndOfDayStateShape(gs: GameState, draws: seq<BookingGenerator.Draw>)
    requires BookingGenerator.DrawsCover(draws, 8)
    requires forall i, j :: 0 <= i < j < |gs.bookings| ==> gs.bookings[i].id != gs.bookings[j].id
    ensures var r := EndOfDayState(gs, draws);
      && r.currentDay == gs.currentDay + 1
      && r.money == gs.money + EndOfDayStats(gs).profit
      && 0.0 <= r.reputation <= 100.0
      && r.dailyStats == gs.dailyStats + [EndOfDayStats(gs)]
      && r.bookings[..|gs.bookings|] == CompleteConfirmedToday(gs.bookings, gs.currentDay)
      && (forall b :: b in r.bookings[|gs.bookings|..] ==> b.status == Pending && b.date == DayLabel(gs.currentDay + 1))
      && r.userId == gs.userId && r.rooms == gs.rooms && r.items == gs.items
      && r.inventory == gs.inventory && r.schedule == gs.schedule
  {
    var closed := ClosedState(gs);
    var batch := BookingGenerator.Batch(gs.currentDay + 1, closed.reputation, draws);
    var r := EndOfDayState(gs, draws);
    assert closed.bookings == CompleteConfirmedToday(gs.bookings, gs.currentDay) by {
      MarkCompletedIsMap(gs.bookings, gs.currentDay);
    }
    assert r.bookings == closed.bookings + batch;
    assert r.bookings[..|gs.bookings|] == closed.bookings;
    assert r.bookings[|gs.bookings|..] == batch;
  }

  /** handleEndDay, as one transition from the state the screen rendered.
      The draws cover the largest batch a reputation in [0, 100] can ask for.
      The source omits the total attraction when generating; it has no effect. */
  method HandleEndDay(store: Store.GameStore, draws: seq<BookingGenerator.Draw>)
    requires BookingGenerator.DrawsCover(draws, 8)
    modifies store
    ensures store.State() == EndOfDayState(old(store.State()), draws)
  {
    ghost var gs := store.State();
    var day := store.currentDay;
    var reputation := CloseDay(store);
    ghost var closed := store.State();
    assert closed == ClosedState(gs);
    ghost var batch := BookingGenerator.Batch(gs.currentDay + 1, closed.reputation, draws);
    assert EndOfDayState(gs, draws) == closed.(bookings := closed.bookings + batch);
    var newBookings := BookingGenerator.GenerateDailyBookings(day + 1, reputation, 0, draws);
    assert newBookings == batch;
    Store.AddBookings(store, newBookings);
    assert store.State() == closed.(bookings := closed.bookings + newBookings);
  }

  /** Steps 1 to 4 of handleEndDay; returns the new reputation. */
  method CloseDay(store: Store.GameStore) returns (reputation: real)
    modifies store
    ensures store.State() == ClosedState(old(store.State()))
    ensures reputation == store.reputation
  {
    // The values the screen rendered with; every step below reads them, not the store.
    var gs := store.State();
    var stats := EndOfDayStats(gs);
    reputation := NewReputation(gs.reputation, stats.avgSatisfaction);
    ghost var closed := ClosedState(gs);
    CompleteByIds(store, Ids(ConfirmedToday(gs.bookings, gs.currentDay)));
    assert store.State() == gs.(bookings := closed.bookings);
    store.SetGameState(None, None, Some(gs.money + stats.profit), Some(reputation),
      None, None, None, Some(gs.dailyStats + [stats]), None, None);
    assert store.State() == closed.(currentDay := gs.currentDay);
    store.EndDay();
  }

  /** `confirmedBookings.forEach(booking => updateBooking(booking.id, { status: 'completed' }))` */
  method CompleteByIds(store: Store.GameStore, ids: seq<string>)
    modifies store
    ensures store.State() == old(store.State()).(bookings := MarkCompleted(old(store.bookings), ids))
  {
    var i := 0;
    while i < |ids|
      invariant 0 <= i <= |ids|
      invariant store.State() == old(store.State()).(bookings := MarkCompleted(old(store.bookings), ids[..i]))
    {
      store.UpdateBooking(ids[i], CompletedPatch);
      assert ids[..i + 1][..i] == ids[..i];
      i := i + 1;
    }
    assert ids[..|ids|] == ids;
  }

  /** After the close, today's confirmed bookings are completed and every other
      booking is as it was, provided booking ids are distinct. */
  lemma EndDayCompletesConfirmed(bookings: seq<Booking>, day: int, k: nat)
    requires forall i, j :: 0 <= i < j < |bookings| ==> bookings[i].id != bookings[j].id
    requires k < |bookings|
    ensures ConfirmedOn(day, bookings[k]) ==>
      MarkCompleted(bookings, Ids(ConfirmedToday(bookings, day)))[k].status == Completed
    ensures !ConfirmedOn(day, bookings[k]) ==>
      MarkCompleted(bookings, Ids(ConfirmedToday(bookings, day)))[k] == bookings[k]
  {
    MarkCompletedIsMap(bookings, day);
  }

  const Green: string := "text-green-600"
  const Yellow: string := "text-yellow-600"
  const Red: string := "text-red-600"

  /** getSatisfactionColor */
  function GetSatisfactionColor(satisfaction: real): (r: string)
    ensures r == Green <==> satisfaction >= 80.0
    ensures r == Yellow <==> 60.0 <= satisfaction < 80.0
    ensures r == Red <==> satisfaction < 60.0
  {
    if satisfaction >= 80.0 then Green
    else if satisfaction >= 60.0 then Yellow
    else Red
  }

  /** getSatisfactionIcon */
  function GetSatisfactionIcon(satisfaction: real): (r: string)
    ensures r == "😊" <==> satisfaction >= 80.0
    ensures r == "😐" <==> 60.0 <= satisfaction < 80.0
    ensures r == "😞" <==> satisfaction < 60.0
  {
    if satisfaction >= 80.0 then "😊"
    else if satisfaction >= 60.0 then "😐"
    else "😞"
  }

  /** The colour and the icon always tell the same story. */
  lemma ColourMatchesIcon(satisfaction: real)
    ensures GetSatisfactionColor(satisfaction) == Green <==> GetSatisfactionIcon(satisfaction) == "😊"
    ensures GetSatisfactionColor(satisfaction) == Yellow <==> GetSatisfactionIcon(satisfaction) == "😐"
    ensures GetSatisfactionColor(satisfaction) == Red <==> GetSatisfactionIcon(satisfaction) == "😞"
  {
  }
}
