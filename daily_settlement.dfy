/** calculateDailySettlement: the statistics of one day, folded over the
    bookings completed that day and the rent of every room. */
module DailySettlement {
  import opened Types
  import opened Lists

  /** A booking that counts for the day: completed and dated that day. */
  predicate CompletedOn(day: int, b: Booking) {
    b.status == Completed && b.date == DayLabel(day)
  }

  function CompletedToday(bookings: seq<Booking>, day: int): (r: seq<Booking>)
    ensures forall b :: b in r <==> b in bookings && CompletedOn(day, b)
  {
    var p := (b: Booking) => CompletedOn(day, b);
    forall b ensures b in Filter(bookings, p) <==> b in bookings && CompletedOn(day, b) {
      FilterMember(bookings, p, b);
    }
    Filter(bookings, p)
  }

  function BookingRevenue(b: Booking): int { b.revenue }
  function BookingSatisfaction(b: Booking): real { b.satisfaction }
  function RoomRent(room: Room): int { room.rent }

  /** Total daily rent of the rooms; it does not depend on the bookings. */
  function Expenses(rooms: seq<Room>): (r: int)
    ensures r >= 0
  {
    SumNonNegative(rooms, RoomRent);
    Sum(rooms, RoomRent)
  }

  /** The mean satisfaction of the given bookings, 0 when there are none. */
  function AverageSatisfaction(done: seq<Booking>): (r: real)
    ensures done == [] ==> r == 0.0
    ensures done != [] ==> r * (|done| as real) == SumReal(done, BookingSatisfaction)
  {
    if |done| > 0 then SumReal(done, BookingSatisfaction) / (|done| as real) else 0.0
  }

  /** calculateDailySettlement */
  function CalculateDailySettlement(gs: GameState): (r: DailyStats)
    ensures r.day == gs.currentDay
    ensures r.bookingsCompleted == |CompletedToday(gs.bookings, gs.currentDay)|
    ensures r.expenses == Expenses(gs.rooms) >= 0
    ensures r.profit == r.revenue - r.expenses
    ensures r.bookingsCompleted == 0 ==>
      r.revenue == 0 && r.avgSatisfaction == 0.0 && r.profit == -Expenses(gs.rooms)
  {
    var done := CompletedToday(gs.bookings, gs.currentDay);
    var revenue := Sum(done, BookingRevenue);
    var expenses := Expenses(gs.rooms);
    DailyStats(gs.currentDay, revenue, expenses, revenue - expenses, AverageSatisfaction(done), |done|)
  }

  /** The average lies between any bounds of the satisfactions it averages,
      in particular between their minimum and maximum. */
  lemma AverageBetween(gs: GameState, lo: real, hi: real)
    requires CompletedToday(gs.bookings, gs.currentDay) != []
    requires forall b :: b in CompletedToday(gs.bookings, gs.currentDay) ==> lo <= b.satisfaction <= hi
    ensures lo <= CalculateDailySettlement(gs).avgSatisfaction <= hi
  {
    AverageOfBounded(CompletedToday(gs.bookings, gs.currentDay), lo, hi);
  }

  lemma AverageOfBounded(done: seq<Booking>, lo: real, hi: real)
    requires done != []
    requires forall b :: b in done ==> lo <= b.satisfaction <= hi
    ensures lo <= AverageSatisfaction(done) <= hi
  {
    var n, total := |done| as real, SumReal(done, BookingSatisfaction);
    SumRealBounds(done, BookingSatisfaction, lo, hi);
    QuotientBetween(total, n, lo, hi);
  }

  lemma QuotientBetween(sum: real, n: real, lo: real, hi: real)
    requires n > 0.0 && n * lo <= sum <= n * hi
    ensures lo <= sum / n <= hi
  {
    var q := sum / n;
    assert q * n == sum;
  }

  /** Scores in [0, 100] give an average in [0, 100]. */
  lemma AverageInRange(gs: GameState)
    requires forall b :: b in gs.bookings ==> 0.0 <= b.satisfaction <= 100.0
    ensures 0.0 <= CalculateDailySettlement(gs).avgSatisfaction <= 100.0
  {
    if CompletedToday(gs.bookings, gs.currentDay) != [] {
      AverageBetween(gs, 0.0, 100.0);
    }
  }

  /** A booking of another day or another status does not change the result. */
  lemma SettlementIgnoresOtherBookings(gs: GameState, b: Booking)
    requires !CompletedOn(gs.currentDay, b)
    ensures CalculateDailySettlement(gs.(bookings := gs.bookings + [b]))
         == CalculateDailySettlement(gs)
  {
    FilterIgnores(gs.bookings, b, (x: Booking) => CompletedOn(gs.currentDay, x));
  }

  /** Only the day's completed bookings matter: keeping just those gives the same stats. */
  lemma SettlementUsesCompletedTodayOnly(gs: GameState)
    ensures CalculateDailySettlement(gs.(bookings := CompletedToday(gs.bookings, gs.currentDay)))
         == CalculateDailySettlement(gs)
  {
    FilterIdempotent(gs.bookings, (x: Booking) => CompletedOn(gs.currentDay, x));
  }

  /** One small room and one completed booking of four guests at satisfaction 80
      earning 160: revenue 160, expenses 500, profit -340. */
  lemma SettlementExample(gs: GameState, b: Booking)
    requires b.status == Completed && b.date == DayLabel(gs.currentDay)
    requires b.peopleCount == 4 && b.satisfaction == 80.0 && b.revenue == 160
    requires gs.bookings == [b]
    requires |gs.rooms| == 1 && gs.rooms[0].rent == 500
    ensures CalculateDailySettlement(gs)
         == DailyStats(gs.currentDay, 160, 500, -340, 80.0, 1)
  {
    var done := CompletedToday(gs.bookings, gs.currentDay);
    assert done == [b] by {
      FilterOne(b, (x: Booking) => CompletedOn(gs.currentDay, x));
    }
    assert Sum(done, BookingRevenue) == 160 by {
      SumOne(b, BookingRevenue);
    }
    assert SumReal(done, BookingSatisfaction) == 80.0 by {
      assert done[..0] == [];
    }
    assert Expenses(gs.rooms) == 500 by {
      assert gs.rooms == [gs.rooms[0]];
      SumOne(gs.rooms[0], RoomRent);
    }
  }
}
