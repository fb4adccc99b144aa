/** generateDailyBookings: a batch of pending bookings for one day, its size
    driven by reputation. Each `Math.random()` draw is passed in as the index
    it is turned into (`Math.floor(Math.random() * k)`). */
module BookingGenerator {
  import opened Types
  import opened Text
  import opened Constants
  import Lists

  /** The three indices drawn for one booking: customer type (of 5),
      party size offset (of 15) and time slot (of 4). */
  datatype Draw = Draw(customer: nat, people: nat, slot: nat)

  predicate ValidDraw(d: Draw) {
    d.customer < |CustomerTypes| && d.people < 15 && d.slot < |TimeSlots|
  }

  /** `Math.min(3 + Math.floor(reputation / 20), 8)` */
  function BookingCount(reputation: real): (r: int)
    ensures r <= 8
    ensures r >= 3 <==> reputation >= 0.0
    ensures r == 8 <==> reputation >= 100.0
  {
    var bonus := (reputation / 20.0).Floor;
    if 3 + bonus <= 8 then 3 + bonus else 8
  }

  /** `booking-${day}-${i}` */
  function BookingId(day: int, i: nat): string {
    "booking-" + IntToString(day) + "-" + NatToString(i)
  }

  /** The i-th booking of the batch for the given day. */
  function NewBooking(day: int, i: nat, d: Draw): (b: Booking)
    requires ValidDraw(d)
    ensures b.id == BookingId(day, i)
    ensures b.status == Pending && b.roomId == None
    ensures b.satisfaction == 0.0 && b.revenue == 0
    ensures 2 <= b.peopleCount <= 16
    ensures b.timeSlot in TimeSlots && b.customerType in CustomerTypes
    ensures b.requirements == Requirements(b.customerType) && |b.requirements| > 0
    ensures b.date == DayLabel(day)
  {
    var t := CustomerTypes[d.customer];
    Booking(
      BookingId(day, i),
      "客戶 " + NatToString(i + 1),
      t,
      d.people + 2,
      Requirements(t),
      None,
      TimeSlots[d.slot],
      DayLabel(day),
      0.0,
      0,
      Pending)
  }

  /** Draws enough, and in range, for a batch of the given size. */
  predicate DrawsCover(draws: seq<Draw>, count: int) {
    |draws| >= count && forall d :: d in draws ==> ValidDraw(d)
  }

  /** The first `n` bookings of a batch: one per draw, in order. */
  function BookingsFor(day: int, n: nat, draws: seq<Draw>): (r: seq<Booking>)
    requires DrawsCover(draws, n)
    ensures |r| == n
    ensures forall k :: 0 <= k < n ==> ValidDraw(draws[k]) && r[k] == NewBooking(day, k, draws[k])
  {
    assert forall k :: 0 <= k < n ==> draws[k] in draws;
    seq(n, i requires 0 <= i < n => NewBooking(day, i, draws[i]))
  }

  /** The batch the generator returns: one booking per draw, in order, as many as
      BookingCount says (none when that count is not positive). The total
      attraction the source accepts is not an input: it has no effect. */
  function Batch(day: int, reputation: real, draws: seq<Draw>): (r: seq<Booking>)
    requires DrawsCover(draws, BookingCount(reputation))
    ensures |r| == if BookingCount(reputation) > 0 then BookingCount(reputation) else 0
    ensures forall b :: b in r ==> b.status == Pending && b.roomId == None && b.date == DayLabel(day)
  {
    BookingsFor(day, if BookingCount(reputation) > 0 then BookingCount(reputation) else 0, draws)
  }

  /** generateDailyBookings */
  method GenerateDailyBookings(day: int, reputation: real, totalAttraction: int, draws: seq<Draw>)
    returns (bookings: seq<Booking>)
    requires DrawsCover(draws, BookingCount(reputation))
    ensures bookings == Batch(day, reputation, draws)
  {
    var count := BookingCount(reputation);
    var n := if count > 0 then count else 0;
    bookings := [];
    var i := 0;
    while i < n
      invariant 0 <= i <= n
      invariant bookings == BookingsFor(day, n, draws)[..i]
    {
      BookingsForStep(day, n, draws, i);
      bookings := bookings + [NewBooking(day, i, draws[i])];
      i := i + 1;
    }
    assert BookingsFor(day, n, draws)[..n] == BookingsFor(day, n, draws);
  }

  /** One more booking extends the prefix built so far. */
  lemma BookingsForStep(day: int, n: nat, draws: seq<Draw>, i: nat)
    requires DrawsCover(draws, n) && i < n
    ensures ValidDraw(draws[i])
    ensures BookingsFor(day, n, draws)[..i + 1] == BookingsFor(day, n, draws)[..i] + [NewBooking(day, i, draws[i])]
  {
    Lists.TakeOneMore(BookingsFor(day, n, draws), i);
  }

  /** The ids of one batch are pairwise distinct. */
  lemma BatchIdsDistinct(day: int, reputation: real, draws: seq<Draw>, i: nat, j: nat)
    requires DrawsCover(draws, BookingCount(reputation))
    requires i < j < |Batch(day, reputation, draws)|
    ensures Batch(day, reputation, draws)[i].id != Batch(day, reputation, draws)[j].id
  {
    if BookingId(day, i) == BookingId(day, j) {
      var pre := "booking-" + IntToString(day) + "-";
      assert BookingId(day, i) == pre + NatToString(i);
      assert BookingId(day, j) == pre + NatToString(j);
      CancelPrefix(pre, NatToString(i), NatToString(j));
      NatToStringInjective(i, j);
    }
  }

  /** For days that are not negative, the id determines both the day and the index,
      so bookings generated for different days never share an id. */
  lemma BookingIdInjective(d1: nat, i1: nat, d2: nat, i2: nat)
    requires BookingId(d1, i1) == BookingId(d2, i2)
    ensures d1 == d2 && i1 == i2
  {
    var s1, s2 := NatToString(d1), NatToString(d2);
    var t1, t2 := NatToString(i1), NatToString(i2);
    assert "booking-" + s1 + "-" + t1 == "booking-" + s2 + "-" + t2;
    NatToStringDigits(d1);
    NatToStringDigits(d2);
    SameDigitsBeforeSeparator("booking-", s1, s2, t1, t2);
    NatToStringInjective(d1, d2);
    CancelPrefix("booking-" + s1 + "-", t1, t2);
    NatToStringInjective(i1, i2);
  }

  /** Two digit strings each followed by "-" in equal strings are equal. */
  lemma SameDigitsBeforeSeparator(pre: string, a: string, b: string, t1: string, t2: string)
    requires forall k :: 0 <= k < |a| ==> '0' <= a[k] <= '9'
    requires forall k :: 0 <= k < |b| ==> '0' <= b[k] <= '9'
    requires pre + a + "-" + t1 == pre + b + "-" + t2
    ensures a == b
  {
    if |a| < |b| {
      SeparatorIsNotDigit(pre, a, b, t1, t2);
    } else if |b| < |a| {
      SeparatorIsNotDigit(pre, b, a, t2, t1);
    }
    var id := pre + a + "-" + t1;
    assert a == id[|pre|..|pre| + |a|];
    assert b == id[|pre|..|pre| + |b|];
  }

  /** A digit string followed by "-" is not a proper prefix of a longer digit string. */
  lemma SeparatorIsNotDigit(pre: string, short: string, long: string, t1: string, t2: string)
    requires |short| < |long|
    requires forall k :: 0 <= k < |long| ==> '0' <= long[k] <= '9'
    ensures pre + short + "-" + t1 != pre + long + "-" + t2
  {
    var a, b := pre + short + "-" + t1, pre + long + "-" + t2;
    assert a[|pre| + |short|] == '-';
    assert b[|pre| + |short|] == long[|short|];
  }

  /** With reputation in [0, 100] a batch holds between 3 and 8 bookings. */
  lemma BatchSize(day: int, reputation: real, draws: seq<Draw>)
    requires 0.0 <= reputation <= 100.0
    requires DrawsCover(draws, BookingCount(reputation))
    ensures 3 <= |Batch(day, reputation, draws)| <= 8
  {
  }
}
