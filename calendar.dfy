/** Proleptic Gregorian calendar dates as (year, month, day), the granularity at
    which the services compare and print dates (`toDateString()`). */
module Calendar {
  import opened PhpValues

  datatype Date = Date(year: int, month: int, day: int)

  predicate IsLeapYear(y: int) {
    y % 4 == 0 && (y % 100 != 0 || y % 400 == 0)
  }

  function DaysInMonth(y: int, m: int): (n: int)
    requires 1 <= m <= 12
    ensures 28 <= n <= 31
    ensures m == 2 ==> (n == 29 <==> IsLeapYear(y))
  {
    if m == 2 then (if IsLeapYear(y) then 29 else 28)
    else if m == 4 || m == 6 || m == 9 || m == 11 then 30
    else 31
  }

  predicate Valid(d: Date) {
    1 <= d.month <= 12 && 1 <= d.day <= DaysInMonth(d.year, d.month)
  }

  /** A date a `Carbon` instance can denote. */
  type ValidDate = d: Date | Valid(d) witness Date(2000, 1, 1)

  /** Strict chronological order. */
  predicate Before(a: Date, b: Date) {
    a.year < b.year
    || (a.year == b.year && a.month < b.month)
    || (a.year == b.year && a.month == b.month && a.day < b.day)
  }

  predicate AtMost(a: Date, b: Date) {
    a == b || Before(a, b)
  }

  function NextDay(d: Date): (r: Date)
    requires Valid(d)
    ensures Valid(r) && Before(d, r)
  {
    if d.day < DaysInMonth(d.year, d.month) then Date(d.year, d.month, d.day + 1)
    else if d.month < 12 then Date(d.year, d.month + 1, 1)
    else Date(d.year + 1, 1, 1)
  }

  function PrevDay(d: Date): (r: Date)
    requires Valid(d)
    ensures Valid(r) && Before(r, d)
    ensures NextDay(r) == d
  {
    if d.day > 1 then Date(d.year, d.month, d.day - 1)
    else if d.month > 1 then Date(d.year, d.month - 1, DaysInMonth(d.year, d.month - 1))
    else Date(d.year - 1, 12, 31)
  }

  /** No valid date lies strictly between a date and the next one. */
  lemma NextDayIsImmediate(d: Date, x: Date)
    requires Valid(d) && Valid(x)
    requires Before(d, x)
    ensures AtMost(NextDay(d), x)
  {
  }

  /** `subDays(n)`. */
  function SubDays(d: Date, n: nat): (r: Date)
    requires Valid(d)
    ensures Valid(r) && AtMost(r, d)
    ensures n > 0 ==> Before(r, d)
  {
    if n == 0 then d else PrevDay(SubDays(d, n - 1))
  }

  function StartOfMonth(d: Date): (r: Date)
    requires Valid(d)
    ensures Valid(r) && AtMost(r, d)
    ensures r.year == d.year && r.month == d.month && r.day == 1
  {
    Date(d.year, d.month, 1)
  }

  function EndOfMonth(d: Date): (r: Date)
    requires Valid(d)
    ensures Valid(r) && AtMost(d, r)
    ensures r.year == d.year && r.month == d.month && NextDay(r).day == 1
  {
    Date(d.year, d.month, DaysInMonth(d.year, d.month))
  }

  /** `subMonthNoOverflow()`: the same day in the previous month, clamped to
      that month's length. */
  function SubMonthNoOverflow(d: Date): (r: Date)
    requires Valid(d)
    ensures Valid(r) && Before(r, d)
    ensures d.month > 1 ==> r.year == d.year && r.month == d.month - 1
    ensures d.month == 1 ==> r.year == d.year - 1 && r.month == 12
  {
    var y := if d.month == 1 then d.year - 1 else d.year;
    var m := if d.month == 1 then 12 else d.month - 1;
    Date(y, m, if d.day <= DaysInMonth(y, m) then d.day else DaysInMonth(y, m))
  }

  /** Every calendar day from `s` to `e` inclusive, in order (empty when `e` is
      before `s`): what iterating a daily `CarbonPeriod` yields. */
  function DaysFromTo(s: Date, e: Date): (r: seq<Date>)
    requires Valid(s) && Valid(e)
    ensures Before(e, s) <==> r == []
    ensures r != [] ==> r[0] == s && r[|r| - 1] == e
    ensures forall k :: 0 <= k < |r| ==> Valid(r[k]) && AtMost(s, r[k]) && AtMost(r[k], e)
    ensures forall k :: 0 <= k < |r| - 1 ==> r[k + 1] == NextDay(r[k])
    decreases e.year - s.year, 12 - s.month, 31 - s.day
  {
    if Before(e, s) then []
    else if s == e then [s]
    else [s] + DaysFromTo(NextDay(s), e)
  }

  /** The days of `DaysFromTo` are strictly increasing, hence distinct. */
  lemma {:induction false} DaysFromToIncreasing(s: Date, e: Date, i: nat, j: nat)
    requires Valid(s) && Valid(e)
    requires i < j < |DaysFromTo(s, e)|
    ensures Before(DaysFromTo(s, e)[i], DaysFromTo(s, e)[j])
    decreases e.year - s.year, 12 - s.month, 31 - s.day
  {
    var r := DaysFromTo(s, e);
    if i == 0 {
      assert r[0] == s;
      assert r[j] == DaysFromTo(NextDay(s), e)[j - 1];
    } else {
      assert r[i] == DaysFromTo(NextDay(s), e)[i - 1];
      assert r[j] == DaysFromTo(NextDay(s), e)[j - 1];
      DaysFromToIncreasing(NextDay(s), e, i - 1, j - 1);
    }
  }

  /** A day is listed by `DaysFromTo(s, e)` exactly when it lies in [s, e]. */
  lemma {:induction false} DaysFromToMembership(s: Date, e: Date, x: Date)
    requires Valid(s) && Valid(e) && Valid(x)
    ensures x in DaysFromTo(s, e) <==> AtMost(s, x) && AtMost(x, e)
    decreases e.year - s.year, 12 - s.month, 31 - s.day
  {
    if Before(e, s) || s == e {
    } else {
      DaysFromToMembership(NextDay(s), e, x);
      if Before(s, x) {
        NextDayIsImmediate(s, x);
      }
    }
  }

  /** The range that ends at `d` and starts `n` days earlier has `n + 1` days. */
  lemma {:induction false} DaysFromToLength(d: Date, n: nat)
    requires Valid(d)
    ensures |DaysFromTo(SubDays(d, n), d)| == n + 1
  {
    if n > 0 {
      DaysFromToLength(d, n - 1);
      var s := SubDays(d, n - 1);
      assert SubDays(d, n) == PrevDay(s);
      assert DaysFromTo(PrevDay(s), d) == [PrevDay(s)] + DaysFromTo(s, d);
    }
  }

  /** Counting back fewer days than the day of the month stays in the month. */
  lemma {:induction false} SubDaysWithinMonth(d: Date, n: nat)
    requires Valid(d) && n < d.day
    ensures SubDays(d, n) == Date(d.year, d.month, d.day - n)
  {
    if n > 0 {
      SubDaysWithinMonth(d, n - 1);
    }
  }

  /** The month-to-date range ending at `d` has as many days as `d`'s day of the month. */
  lemma MonthToDateLength(d: Date)
    requires Valid(d)
    ensures |DaysFromTo(StartOfMonth(d), d)| == d.day
  {
    SubDaysWithinMonth(d, d.day - 1);
    DaysFromToLength(d, d.day - 1);
  }

  /** The month before `d` ends on the day before `d`'s month starts, and its
      first-to-last-day range covers all of its days. */
  lemma PreviousMonth(d: Date)
    requires Valid(d)
    ensures NextDay(EndOfMonth(SubMonthNoOverflow(d))) == StartOfMonth(d)
    ensures |DaysFromTo(StartOfMonth(SubMonthNoOverflow(d)), EndOfMonth(SubMonthNoOverflow(d)))|
            == DaysInMonth(SubMonthNoOverflow(d).year, SubMonthNoOverflow(d).month)
  {
    var p := SubMonthNoOverflow(d);
    MonthToDateLength(EndOfMonth(p));
    assert StartOfMonth(EndOfMonth(p)) == StartOfMonth(p);
  }

  /** `str_pad($s, $width, '0', STR_PAD_LEFT)`: zeros in front up to the width. */
  function Pad(s: string, width: nat): (r: string)
    ensures |s| >= width ==> r == s
    ensures |s| < width ==> r == seq(width - |s|, _ => '0') + s
    decreases width - |s|
  {
    if |s| >= width then s
    else
      var r := Pad("0" + s, width);
      assert seq(width - |s| - 1, _ => '0') + ("0" + s) == seq(width - |s|, _ => '0') + s;
      r
  }

  predicate AllDigits(s: string) {
    forall k :: 0 <= k < |s| ==> IsDigit(s[k])
  }

  /** Padding a number's rendering keeps it all digits and keeps its value. */
  lemma PadNumber(n: nat, width: nat)
    ensures AllDigits(Pad(NatToString(n), width))
    ensures DigitsValue(Pad(NatToString(n), width)) == n
    ensures |Pad(NatToString(n), width)| >= width
    ensures n < 100 && width == 2 ==> |Pad(NatToString(n), width)| == 2
  {
    NatToStringValue(n);
    var t := NatToString(n);
    if |t| < width {
      LeadingZerosValue(width - |t|, t);
    }
  }

  /** The year field of `toDateString()`: at least four digits, after a "-" when negative. */
  function YearString(y: int): string {
    if y < 0 then "-" + Pad(NatToString(-y), 4) else Pad(NatToString(y), 4)
  }

  /** `toDateString()`: "Y-m-d", the year with at least four digits. */
  function DateString(d: Date): (s: string)
    requires Valid(d)
    ensures |s| >= 10
  {
    YearString(d.year) + "-" + Pad(NatToString(d.month), 2) + "-" + Pad(NatToString(d.day), 2)
  }

  lemma YearStringLayout(y: int)
    ensures 0 <= y ==> |YearString(y)| >= 4 && AllDigits(YearString(y)) && DigitsValue(YearString(y)) == y
    ensures y < 0 ==> (|YearString(y)| >= 5 && YearString(y)[0] == '-'
                       && AllDigits(YearString(y)[1..]) && DigitsValue(YearString(y)[1..]) == -y)
  {
    if y < 0 {
      NegativeYearLayout(y);
    } else {
      PadNumber(y, 4);
    }
  }

  lemma NegativeYearLayout(y: int)
    requires y < 0
    ensures |YearString(y)| >= 5 && YearString(y)[0] == '-'
    ensures YearString(y)[1..] == Pad(NatToString(-y), 4)
    ensures AllDigits(YearString(y)[1..]) && DigitsValue(YearString(y)[1..]) == -y
  {
    PadNumber(-y, 4);
    SignedDigits(Pad(NatToString(-y), 4));
  }

  lemma SignedDigits(t: string)
    ensures |"-" + t| == |t| + 1 && ("-" + t)[0] == '-' && ("-" + t)[1..] == t
  {
  }

  lemma ConcatLayout(y: string, m: string, dd: string)
    requires |m| == 2 && |dd| == 2
    ensures var s := y + "-" + m + "-" + dd;
      |s| == |y| + 6 && s[|s| - 6] == '-' && s[|s| - 3] == '-'
      && s[..|s| - 6] == y && s[|s| - 5..|s| - 3] == m && s[|s| - 2..] == dd
  {
  }

  /** The layout of `toDateString()`: a year of at least four digits (after a
      "-" when negative), a dash, two month digits, a dash, two day digits;
      each field reads back as the date's own. */
  lemma DateStringLayout(d: Date)
    requires Valid(d)
    ensures var s := DateString(d);
      s[|s| - 6] == '-' && s[|s| - 3] == '-'
      && AllDigits(s[|s| - 5..|s| - 3]) && DigitsValue(s[|s| - 5..|s| - 3]) == d.month
      && AllDigits(s[|s| - 2..]) && DigitsValue(s[|s| - 2..]) == d.day
    ensures var s := DateString(d); s[..|s| - 6] == YearString(d.year)
    ensures var s := DateString(d);
      0 <= d.year ==> AllDigits(s[..|s| - 6]) && DigitsValue(s[..|s| - 6]) == d.year
    ensures var s := DateString(d);
      d.year < 0 ==> s[0] == '-' && AllDigits(s[1..|s| - 6]) && DigitsValue(s[1..|s| - 6]) == -d.year
  {
    FieldsLayout(d.year, d.month, d.day);
  }

  /** `DateStringLayout` for the rendered fields of any year and any month
      and day below 100. */
  lemma FieldsLayout(year: int, month: nat, day: nat)
    requires month < 100 && day < 100
    ensures var s := YearString(year) + "-" + Pad(NatToString(month), 2) + "-" + Pad(NatToString(day), 2);
      s[|s| - 6] == '-' && s[|s| - 3] == '-'
      && AllDigits(s[|s| - 5..|s| - 3]) && DigitsValue(s[|s| - 5..|s| - 3]) == month
      && AllDigits(s[|s| - 2..]) && DigitsValue(s[|s| - 2..]) == day
      && s[..|s| - 6] == YearString(year)
      && (0 <= year ==> AllDigits(s[..|s| - 6]) && DigitsValue(s[..|s| - 6]) == year)
      && (year < 0 ==> s[0] == '-' && AllDigits(s[1..|s| - 6]) && DigitsValue(s[1..|s| - 6]) == -year)
  {
    PadNumber(month, 2);
    PadNumber(day, 2);
    YearStringLayout(year);
    var y := YearString(year);
    ConcatLayout(y, Pad(NatToString(month), 2), Pad(NatToString(day), 2));
    var s := y + "-" + Pad(NatToString(month), 2) + "-" + Pad(NatToString(day), 2);
    if year < 0 {
      assert s[1..|s| - 6] == y[1..];
    }
  }

  /** Reads a "Y-m-d" string back into a date. */
  function ParseDate(s: string): Date {
    if |s| < 10 then Date(0, 0, 0)
    else
      var year := if s[0] == '-' then -DigitsValue(s[1..|s| - 6]) else DigitsValue(s[..|s| - 6]);
      Date(year, DigitsValue(s[|s| - 5..|s| - 3]), DigitsValue(s[|s| - 2..]))
  }

  /** Reading a date string back gives the date. */
  lemma DateStringRoundTrip(d: Date)
    requires Valid(d)
    ensures ParseDate(DateString(d)) == d
  {
    var s := DateString(d);
    DateStringLayout(d);
    YearStringLayout(d.year);
    if 0 <= d.year {
      assert s[..|s| - 6][0] == s[0];
    }
  }

  /** Different dates have different date strings, so per-day buckets and
      per-period cache keys never collide. */
  lemma DateStringInjective(a: Date, b: Date)
    requires Valid(a) && Valid(b) && DateString(a) == DateString(b)
    ensures a == b
  {
    DateStringRoundTrip(a);
    DateStringRoundTrip(b);
  }

  /** 3 April 2025 renders as "2025-04-03". */
  lemma DateStringExample()
    ensures DateString(Date(2025, 4, 3)) == "2025-04-03"
  {
  }
}
