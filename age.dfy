/**
 * The AGE column: a creation instant, seen from `now`, as a whole number of
 * days, hours, minutes or seconds. Instants and durations are Go
 * `time.Duration` values, i.e. integers counting nanoseconds.
 */
module Age {
  import opened Wrappers
  import opened Text

  const Second: int := 1_000_000_000
  const Minute: int := 60 * Second
  const Hour: int := 60 * Minute
  const Day: int := 24 * Hour

  /** Euclidean division of a natural number brackets it between two multiples of the divisor. */
  lemma DivBrackets(a: int, b: int)
    requires a >= 0 && b > 0
    ensures 0 <= a / b
    ensures (a / b) * b <= a < (a / b) * b + b
  {
    var q, r := a / b, a % b;
    assert a == b * q + r && 0 <= r < b;
    assert b * q == q * b;
  }

  /** Go's conversion of a quotient to `int` truncates toward zero. */
  function TruncDiv(a: int, b: int): (q: int)
    requires b > 0
    ensures a >= 0 ==> 0 <= q && q * b <= a < q * b + b
    ensures a < 0 ==> q <= 0 && q * b - b < a <= q * b
  {
    if a >= 0 then
      DivBrackets(a, b);
      a / b
    else
      DivBrackets(-a, b);
      var p := (-a) / b;
      assert (-p) * b == -(p * b);
      -p
  }

  /** The nanoseconds in one unit named by the suffix letter of an age. */
  function UnitLength(suffix: char): (n: int)
    ensures n > 0
  {
    match suffix
    case 'd' => Day
    case 'h' => Hour
    case 'm' => Minute
    case _ => Second
  }

  /**
   * formatAge. The buckets are tested in order: days when the duration is
   * strictly more than 24 hours (so exactly 24 hours reads "24h"), hours
   * from one hour, minutes from one minute, seconds otherwise (negative
   * durations included). The count is truncated toward zero in each.
   */
  function FormatAge(created: int, now: int): (r: string)
    ensures |r| >= 2
    ensures r[|r| - 1] == 'd' <==> now - created > Day
    ensures r[|r| - 1] == 'h' <==> Hour <= now - created <= Day
    ensures r[|r| - 1] == 'm' <==> Minute <= now - created < Hour
    ensures r[|r| - 1] == 's' <==> now - created < Minute
    ensures IsDecimal(r[..|r| - 1])
    ensures ParseInt(r[..|r| - 1]) == Some(TruncDiv(now - created, UnitLength(r[|r| - 1])))
  {
    var d := now - created;
    var suffix := if d > Day then 'd' else if d >= Hour then 'h' else if d >= Minute then 'm' else 's';
    var digits := IntToString(TruncDiv(d, UnitLength(suffix)));
    assert (digits + [suffix])[..|digits|] == digits;
    digits + [suffix]
  }

  /** How coarse the unit of an age is: seconds 0, minutes 1, hours 2, days 3. */
  function Coarseness(age: string): (g: nat)
    requires |age| > 0
    ensures g <= 3
  {
    match age[|age| - 1]
    case 'd' => 3
    case 'h' => 2
    case 'm' => 1
    case _ => 0
  }

  /** An older object never shows its age in a finer unit than a younger one. */
  lemma CoarsenessMonotone(created: int, now1: int, now2: int)
    requires now1 <= now2
    ensures Coarseness(FormatAge(created, now1)) <= Coarseness(FormatAge(created, now2))
  {
    var a1, a2 := FormatAge(created, now1), FormatAge(created, now2);
    assert a1[|a1| - 1] in "dhms" && a2[|a2| - 1] in "dhms";
  }

  /** Exactly one day is still shown in hours: the day test is strict. */
  lemma ExactlyOneDayShowsHours()
    ensures FormatAge(0, Day) == "24h"
  {
    assert TruncDiv(Day, Hour) == 24;
    assert NatToString(24) == "24";
  }

  /** Twenty-five hours is one whole day. */
  lemma TwentyFiveHoursShowsOneDay()
    ensures FormatAge(0, 25 * Hour) == "1d"
  {
    assert TruncDiv(25 * Hour, Day) == 1;
  }

  /** One second short of a day is truncated to 23 hours, not rounded up. */
  lemma AlmostADayShowsHours()
    ensures FormatAge(0, 23 * Hour + 59 * Minute + 59 * Second) == "23h"
  {
    assert TruncDiv(23 * Hour + 59 * Minute + 59 * Second, Hour) == 23;
    assert NatToString(23) == "23";
  }

  /** Ninety seconds is truncated to one minute. */
  lemma NinetySecondsShowsOneMinute()
    ensures FormatAge(0, 90 * Second) == "1m"
  {
    assert TruncDiv(90 * Second, Minute) == 1;
  }

  /** A negative duration (clock skew) is counted in seconds, truncated toward zero. */
  lemma SkewedClockShowsNegativeSeconds()
    ensures FormatAge(3 * Second / 2, 0) == "-1s"
  {
    assert TruncDiv(-(3 * Second / 2), Second) == -1;
  }
}
