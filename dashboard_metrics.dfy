/**
 * The arithmetic of the dashboard metrics: the reporting window chosen by a
 * period name, the previous window it is compared with, the change between
 * two values in percent and the success rate.
 *
 * Instants are whole seconds counted from `datetime.min`, the earliest
 * instant Python can represent, so a subtraction below 0 is the
 * `OverflowError` Python raises.
 */
module DashboardMetrics {
  import opened Common

  const SecondsPerDay: int := 86400

  /** `datetime.min`. */
  const MinInstant: int := 0

  datatype TimeError = Overflow

  /** The number of days a period name looks back; `None` for any other name (all time). */
  function PeriodDays(period: string): (r: Option<nat>)
    ensures r.Some? <==> period in ["7days", "30days", "90days"]
  {
    if period == "7days" then Some(7)
    else if period == "30days" then Some(30)
    else if period == "90days" then Some(90)
    else None
  }

  /** `end_date - timedelta(days=n)`, or `datetime.min` for all time. */
  function StartInstant(period: string, now: int): (r: Result<int, TimeError>)
    requires now >= MinInstant
    ensures PeriodDays(period).None? ==> r == Success(MinInstant)
    ensures PeriodDays(period).Some? ==>
      (r.Failure? <==> now < PeriodDays(period).value * SecondsPerDay)
    ensures r.Success? ==> MinInstant <= r.value <= now
    ensures r.Success? && PeriodDays(period).Some? ==> now - r.value == PeriodDays(period).value * SecondsPerDay
  {
    match PeriodDays(period)
    case None => Success(MinInstant)
    case Some(days) =>
      var start := now - days * SecondsPerDay;
      if start < MinInstant then Failure(Overflow) else Success(start)
  }

  /**
   * The previous window as the code computes it: it starts at
   * `start - (end - start)` and ends at `start`.
   */
  function PreviousWindow(start: int, end: int): (r: Result<(int, int), TimeError>)
    ensures r.Failure? <==> start - (end - start) < MinInstant
    ensures r.Success? ==> r.value.1 == start && r.value.1 - r.value.0 == end - start
  {
    var previousStart := start - (end - start);
    if previousStart < MinInstant then Failure(Overflow) else Success((previousStart, start))
  }

  /**
   * The all-time period cannot be compared with a previous window: its
   * start is `datetime.min`, so any later `now` pushes the previous start
   * below it.
   */
  lemma AllTimeOverflows(period: string, now: int)
    requires PeriodDays(period).None?
    requires now > MinInstant
    ensures StartInstant(period, now).Success?
    ensures PreviousWindow(StartInstant(period, now).value, now).Failure?
  {
  }

  /**
   * The previous window with its start clamped at `datetime.min`: never an
   * error, it ends where the current window starts, is never longer than
   * the current window, and equals the computed window whenever that one
   * exists.
   */
  function PreviousWindowClamped(start: int, end: int): (r: (int, int))
    requires MinInstant <= start <= end
    ensures r.1 == start && MinInstant <= r.0 <= r.1
    ensures r.1 - r.0 <= end - start
    ensures PreviousWindow(start, end).Success? ==> r == PreviousWindow(start, end).value
  {
    var previousStart := start - (end - start);
    (if previousStart < MinInstant then MinInstant else previousStart, start)
  }

  /** For the three named periods the two windows have exactly the period's length. */
  lemma NamedPeriodWindows(period: string, now: int)
    requires PeriodDays(period).Some?
    requires now >= 2 * PeriodDays(period).value * SecondsPerDay
    ensures StartInstant(period, now).Success?
    ensures var start := StartInstant(period, now).value;
            && PreviousWindow(start, now).Success?
            && PreviousWindow(start, now).value == (now - 2 * PeriodDays(period).value * SecondsPerDay, start)
  {
  }

  /** `round(x)` to an integer, halves to the even neighbour. */
  function RoundHalfEven(x: real): (r: int)
    ensures -0.5 <= r as real - x <= 0.5
  {
    var f := x.Floor;
    var frac := x - f as real;
    if frac < 0.5 then f
    else if frac > 0.5 then f + 1
    else if f % 2 == 0 then f
    else f + 1
  }

  /** `round(x, 1)`: a value with one decimal, within half a tenth of x. */
  function Round1(x: real): (r: real)
    ensures -0.05 <= r - x <= 0.05
    ensures (r * 10.0).Floor as real == r * 10.0
  {
    var n := RoundHalfEven(x * 10.0);
    var r := n as real / 10.0;
    assert r * 10.0 == n as real;
    assert (n as real).Floor == n;
    r
  }

  /** Rounding to one decimal keeps a value's sign, weakly. */
  lemma Round1KeepsSign(x: real)
    ensures x >= 0.0 ==> Round1(x) >= 0.0
    ensures x <= 0.0 ==> Round1(x) <= 0.0
  {
    var n := RoundHalfEven(x * 10.0);
    if x >= 0.0 {
      assert n as real >= x * 10.0 - 0.5;
      assert n >= 0;
    } else {
      assert n as real <= x * 10.0 + 0.5;
      assert n <= 0;
    }
  }

  /** `calculate_change`: the change from `previous` to `current`, in percent. */
  function CalculateChange(current: real, previous: real): (r: real)
    ensures previous == 0.0 ==> r == (if current > 0.0 then 100.0 else 0.0)
    ensures previous != 0.0 ==>
      -0.05 <= r - (current - previous) / previous * 100.0 <= 0.05
    ensures (r * 10.0).Floor as real == r * 10.0
  {
    if previous == 0.0 then (if current > 0.0 then 100.0 else 0.0)
    else Round1((current - previous) / previous * 100.0)
  }

  /** From a positive baseline, growth never reads as a drop and a drop never as growth. */
  lemma ChangeFollowsDirection(current: real, previous: real)
    requires previous > 0.0
    ensures current >= previous ==> CalculateChange(current, previous) >= 0.0
    ensures current <= previous ==> CalculateChange(current, previous) <= 0.0
    ensures current == previous ==> CalculateChange(current, previous) == 0.0
  {
    var x := (current - previous) / previous * 100.0;
    Round1KeepsSign(x);
    if current == previous {
      assert x == 0.0;
      assert RoundHalfEven(0.0) == 0;
    }
  }

  /** The success rate: completed over total, in percent; 0 without simulations. */
  function SuccessRate(completed: int, total: int): (r: real)
    ensures total <= 0 ==> r == 0.0
    ensures total > 0 ==> r * total as real == completed as real * 100.0
    ensures 0 <= completed <= total ==> 0.0 <= r <= 100.0
  {
    if total > 0 then completed as real / total as real * 100.0 else 0.0
  }
}
