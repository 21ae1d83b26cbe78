// System.DateTime as the core uses it: an instant is a count of 100 ns
// ticks since 0001-01-01 00:00 (DateTime.Ticks); `.Date`, `AddDays`,
// `new DateTime(y, m, 1)`, `AddMonths(1)` and `.Year` / `.Month` are
// written out on that count with the proleptic Gregorian calendar.

module Calendar {
  import opened Wrappers

  type Ticks = int

  const TicksPerDay: int := 864_000_000_000
  const TicksPerMinute: int := 600_000_000

  /** Days from 0001-01-01 to 1970-01-01; the civil-date arithmetic below counts from 1970. */
  const DaysTo1970: int := 719162

  /** `t.Date`: midnight at the start of `t`'s day. */
  function DateOf(t: Ticks): (d: Ticks)
    ensures d <= t < d + TicksPerDay
    ensures d % TicksPerDay == 0
  {
    t - t % TicksPerDay
  }

  /** Taking `.Date` twice is the same as taking it once. */
  lemma DateOfIdempotent(t: Ticks)
    ensures DateOf(DateOf(t)) == DateOf(t)
  {
  }

  /** `t.AddDays(n)`. */
  function AddDays(t: Ticks, n: int): (r: Ticks)
    ensures r - t == n * TicksPerDay
  {
    t + n * TicksPerDay
  }

  predicate IsLeapYear(y: int)
  {
    y % 4 == 0 && (y % 100 != 0 || y % 400 == 0)
  }

  function DaysInMonth(y: int, m: int): (n: int)
    requires 1 <= m <= 12
    ensures 28 <= n <= 31
  {
    if m == 2 then (if IsLeapYear(y) then 29 else 28)
    else if m == 4 || m == 6 || m == 9 || m == 11 then 30
    else 31
  }

  /** The arguments `new DateTime(y, m, d)` accepts without throwing. */
  predicate ValidDate(y: int, m: int, d: int)
  {
    1 <= y <= 9999 && 1 <= m <= 12 && 1 <= d <= DaysInMonth(y, m)
  }

  /** Days from 1970-01-01 to the civil date y-m-d (negative before it). */
  function DaysFromCivil(y: int, m: int, d: int): int
  {
    var y1 := if m <= 2 then y - 1 else y;
    var era := y1 / 400;
    var yoe := y1 - era * 400;
    var mp := (m + 9) % 12;
    var doy := (153 * mp + 2) / 5 + d - 1;
    var doe := yoe * 365 + yoe / 4 - yoe / 100 + doy;
    era * 146097 + doe - 719468
  }

  /** The civil date (year, month, day) of a day count from 1970-01-01. */
  function CivilFromDays(z: int): (int, int, int)
  {
    var z1 := z + 719468;
    var era := z1 / 146097;
    var doe := z1 - era * 146097;
    var yoe := (doe - doe / 1460 + doe / 36524 - doe / 146096) / 365;
    var doy := doe - (365 * yoe + yoe / 4 - yoe / 100);
    var mp := (5 * doy + 2) / 153;
    var d := doy - (153 * mp + 2) / 5 + 1;
    var m := if mp < 10 then mp + 3 else mp - 9;
    (if m <= 2 then yoe + era * 400 + 1 else yoe + era * 400, m, d)
  }

  /** `new DateTime(y, m, d)` for a date it accepts: midnight of that day. */
  function MakeDate(y: int, m: int, d: int): (t: Ticks)
    ensures t % TicksPerDay == 0
  {
    (DaysFromCivil(y, m, d) + DaysTo1970) * TicksPerDay
  }

  /** `t.Year`. */
  function YearOf(t: Ticks): int
  {
    CivilFromDays(t / TicksPerDay - DaysTo1970).0
  }

  /** `t.Month`. */
  function MonthOf(t: Ticks): int
  {
    CivilFromDays(t / TicksPerDay - DaysTo1970).1
  }

  /** The month after (y, m): what `AddMonths(1)` does to the first of a month. */
  function NextMonth(y: int, m: int): (int, int)
  {
    if m == 12 then (y + 1, 1) else (y, m + 1)
  }

  /**
   * `start = new DateTime(y, m, 1)` and `end = start.AddMonths(1).AddDays(-1)`:
   * midnight of the first and of the last day of the month, or None when the
   * constructor or `AddMonths` would throw (month outside 1..12, year outside
   * 1..9999, or December 9999).
   */
  function MonthBounds(y: int, m: int): (r: Option<(Ticks, Ticks)>)
    ensures r.Some? <==> ValidDate(y, m, 1) && !(y == 9999 && m == 12)
    ensures r.Some? ==> r.value.0 == MakeDate(y, m, 1) && r.value.1 + TicksPerDay == MakeDate(NextMonth(y, m).0, NextMonth(y, m).1, 1)
  {
    if ValidDate(y, m, 1) && !(y == 9999 && m == 12) then
      var next := NextMonth(y, m);
      Some((MakeDate(y, m, 1), AddDays(MakeDate(next.0, next.1, 1), -1)))
    else None
  }

  /** Both month bounds are midnights. */
  lemma MonthBoundsAreMidnights(y: int, m: int)
    requires MonthBounds(y, m).Some?
    ensures MonthBounds(y, m).value.0 % TicksPerDay == 0 && MonthBounds(y, m).value.1 % TicksPerDay == 0
  {
    var next := NextMonth(y, m);
    var nextStart := MakeDate(next.0, next.1, 1);
    var q := nextStart / TicksPerDay;
    assert nextStart == q * TicksPerDay;
    assert MonthBounds(y, m).value.1 == (q - 1) * TicksPerDay;
  }
}
