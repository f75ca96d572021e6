/**
 * Calendar dates as Python's `datetime.date` treats them: proleptic-Gregorian
 * (year, month, day) triples in years 1..9999, the day ordinal of `toordinal`
 * (0001-01-01 is day 1), its inverse `fromordinal`, `date + timedelta(days=i)`,
 * the lexicographic comparison of dates, and the ISO 8601 extended calendar-date
 * rendering `YYYY-MM-DD` (section 4.1.2.2 of ISO 8601:2004) that `strftime('%Y-%m-%d')`
 * produces.
 */
module Calendar {
  import opened Wrappers

  datatype Ymd = Ymd(year: int, month: int, day: int)

  const MinYear := 1
  const MaxYear := 9999
  /** `date.max.toordinal()`, the ordinal of 9999-12-31. */
  const MaxOrdinal := 3652059

  predicate IsLeap(y: int) {
    y % 4 == 0 && (y % 100 != 0 || y % 400 == 0)
  }

  function DaysInYear(y: int): int {
    if IsLeap(y) then 366 else 365
  }

  function DaysInMonth(y: int, m: int): int
    requires 1 <= m <= 12
  {
    if m == 2 then (if IsLeap(y) then 29 else 28)
    else if m == 4 || m == 6 || m == 9 || m == 11 then 30
    else 31
  }

  /** Days in the months of year `y` before month `m`, counted month by month. */
  function DaysBeforeMonth(y: int, m: int): int
    requires 1 <= m <= 12
  {
    if m == 1 then 0 else DaysBeforeMonth(y, m - 1) + DaysInMonth(y, m - 1)
  }

  /** Days in the years before year `y`, counted year by year. */
  function DaysBeforeYear(y: int): int
    requires y >= 1
  {
    if y == 1 then 0 else DaysBeforeYear(y - 1) + DaysInYear(y - 1)
  }

  /** Python's `_days_before_month`: a table of common-year offsets plus the leap day after February. */
  lemma {:induction false} DaysBeforeMonthTable(y: int, m: int)
    requires 1 <= m <= 12
    ensures DaysBeforeMonth(y, m)
         == [0, 31, 59, 90, 120, 151, 181, 212, 243, 273, 304, 334][m - 1] + (if m > 2 && IsLeap(y) then 1 else 0)
  {
    if m > 1 {
      DaysBeforeMonthTable(y, m - 1);
    }
  }

  /** Python's `_days_before_year`: 365 days a year plus the leap days of the Gregorian rule. */
  lemma {:induction false} DaysBeforeYearFormula(y: int)
    requires y >= 1
    ensures DaysBeforeYear(y) == (y - 1) * 365 + (y - 1) / 4 - (y - 1) / 100 + (y - 1) / 400
  {
    if y > 1 {
      var z := y - 1;
      DaysBeforeYearFormula(z);
      DivStep4(z);
      DivStep100(z);
      DivStep400(z);
      LeapTerms(z);
      assert z * 365 == (z - 1) * 365 + 365;
    }
  }

  /** A year's length as the three terms of the Gregorian rule. */
  lemma LeapTerms(z: int)
    ensures DaysInYear(z)
         == 365 + (if z % 4 == 0 then 1 else 0) - (if z % 100 == 0 then 1 else 0) + (if z % 400 == 0 then 1 else 0)
  {
    if z % 400 == 0 {
      var q := z / 400;
      assert z == 100 * (4 * q) && z == 4 * (100 * q);
    } else if z % 100 == 0 {
      var q := z / 100;
      assert z == 4 * (25 * q);
    }
  }

  lemma DivStep4(y: int)
    ensures y / 4 - (y - 1) / 4 == if y % 4 == 0 then 1 else 0
  {
  }

  lemma DivStep100(y: int)
    ensures y / 100 - (y - 1) / 100 == if y % 100 == 0 then 1 else 0
  {
  }

  lemma DivStep400(y: int)
    ensures y / 400 - (y - 1) / 400 == if y % 400 == 0 then 1 else 0
  {
  }

  /** The day after the last of year 9999 has ordinal `MaxOrdinal + 1`. */
  lemma DaysBeforeYear10000()
    ensures DaysBeforeYear(MaxYear + 1) == MaxOrdinal
  {
    DaysBeforeYearFormula(MaxYear + 1);
  }

  predicate ValidYmd(d: Ymd) {
    MinYear <= d.year <= MaxYear && 1 <= d.month <= 12 && 1 <= d.day <= DaysInMonth(d.year, d.month)
  }

  /** A date `datetime.date` accepts. */
  type Date = d: Ymd | ValidYmd(d) witness Ymd(1, 1, 1)

  /** `date.toordinal()`: 0001-01-01 is day 1. */
  function ToOrdinal(d: Date): (n: int)
    ensures 1 <= n <= MaxOrdinal
  {
    OrdinalBounds(d);
    DaysBeforeYear(d.year) + DaysBeforeMonth(d.year, d.month) + d.day
  }

  lemma OrdinalBounds(d: Date)
    ensures 1 <= DaysBeforeYear(d.year) + DaysBeforeMonth(d.year, d.month) + d.day <= MaxOrdinal
  {
    MonthSpan(d.year, d.month);
    DaysBeforeYearGrows(1, d.year);
    DaysBeforeYearGrows(d.year + 1, MaxYear + 1);
    DaysBeforeYear10000();
  }

  /** The ordinal of a date lies within its year's days. */
  lemma OrdinalInYear(d: Date)
    ensures DaysBeforeYear(d.year) < ToOrdinal(d) <= DaysBeforeYear(d.year + 1)
  {
    MonthSpan(d.year, d.month);
  }

  /** Each year adds at least 365 days. */
  lemma {:induction false} DaysBeforeYearGrows(a: int, b: int)
    requires 1 <= a <= b
    ensures DaysBeforeYear(b) - DaysBeforeYear(a) >= 365 * (b - a)
    decreases b - a
  {
    if a < b {
      DaysBeforeYearGrows(a, b - 1);
    }
  }

  /** Month `m` occupies the days after `DaysBeforeMonth(y, m)` up to the start of the next month. */
  lemma MonthSpan(y: int, m: int)
    requires 1 <= m <= 12
    ensures 0 <= DaysBeforeMonth(y, m)
    ensures m < 12 ==> DaysBeforeMonth(y, m + 1) == DaysBeforeMonth(y, m) + DaysInMonth(y, m)
    ensures m == 12 ==> DaysBeforeMonth(y, m) + DaysInMonth(y, m) == DaysInYear(y)
    ensures DaysBeforeMonth(y, m) + DaysInMonth(y, m) <= DaysInYear(y)
  {
    DaysBeforeMonthTable(y, m);
  }

  lemma {:induction false} MonthsGrow(y: int, a: int, b: int)
    requires 1 <= a < b <= 12
    ensures DaysBeforeMonth(y, a) + DaysInMonth(y, a) <= DaysBeforeMonth(y, b)
    decreases b - a
  {
    MonthSpan(y, a);
    if a + 1 < b {
      MonthSpan(y, b - 1);
      MonthsGrow(y, a, b - 1);
      assert DaysInMonth(y, b - 1) >= 0;
    }
  }

  /** The year holding day ordinal `n`, searched upwards from year `y`. */
  function YearOf(n: int, y: int): (r: int)
    requires MinYear <= y <= MaxYear && DaysBeforeYear(y) < n <= MaxOrdinal
    ensures y <= r <= MaxYear && DaysBeforeYear(r) < n <= DaysBeforeYear(r + 1)
    decreases MaxYear - y
  {
    DaysBeforeYear10000();
    if n <= DaysBeforeYear(y + 1) then y else YearOf(n, y + 1)
  }

  /** The month holding day `k` of year `y`, searched upwards from month `m`. */
  function MonthOf(y: int, k: int, m: int): (r: int)
    requires 1 <= m <= 12 && DaysBeforeMonth(y, m) < k <= DaysInYear(y)
    ensures m <= r <= 12 && DaysBeforeMonth(y, r) < k <= DaysBeforeMonth(y, r) + DaysInMonth(y, r)
    decreases 12 - m
  {
    MonthSpan(y, m);
    if k <= DaysBeforeMonth(y, m) + DaysInMonth(y, m) then m else MonthOf(y, k, m + 1)
  }

  /** `date.fromordinal(n)`: the date whose ordinal is `n`. */
  function FromOrdinal(n: int): (d: Date)
    requires 1 <= n <= MaxOrdinal
    ensures ToOrdinal(d) == n
  {
    var y := YearOf(n, MinYear);
    var k := n - DaysBeforeYear(y);
    var m := MonthOf(y, k, 1);
    Ymd(y, m, k - DaysBeforeMonth(y, m))
  }

  /** Python's date comparison: lexicographic on (year, month, day). */
  predicate DateLe(a: Date, b: Date) {
    a.year < b.year || (a.year == b.year && (a.month < b.month || (a.month == b.month && a.day <= b.day)))
  }

  /** A date strictly earlier in the calendar has a strictly smaller ordinal. */
  lemma OrdinalIncreasing(a: Date, b: Date)
    requires DateLe(a, b) && a != b
    ensures ToOrdinal(a) < ToOrdinal(b)
  {
    if a.year < b.year {
      OrdinalInYear(a);
      OrdinalInYear(b);
      DaysBeforeYearGrows(a.year + 1, b.year);
    } else if a.month < b.month {
      MonthsGrow(a.year, a.month, b.month);
    }
  }

  /** Comparing dates and comparing their ordinals agree. */
  lemma OrdinalOrder(a: Date, b: Date)
    ensures DateLe(a, b) <==> ToOrdinal(a) <= ToOrdinal(b)
  {
    if DateLe(a, b) {
      if a != b { OrdinalIncreasing(a, b); }
    } else {
      OrdinalIncreasing(b, a);
    }
  }

  /** Distinct dates have distinct ordinals. */
  lemma OrdinalInjective(a: Date, b: Date)
    requires ToOrdinal(a) == ToOrdinal(b)
    ensures a == b
  {
    OrdinalOrder(a, b);
    OrdinalOrder(b, a);
  }

  /** `date.fromordinal(d.toordinal()) == d`. */
  lemma FromToOrdinal(d: Date)
    ensures FromOrdinal(ToOrdinal(d)) == d
  {
    OrdinalInjective(FromOrdinal(ToOrdinal(d)), d);
  }

  /**
   * `d + timedelta(days=i)`: the date `i` days after `d`, or `None` where Python
   * raises `OverflowError` because the result leaves years 1..9999.
   */
  function AddDays(d: Date, i: int): (r: Option<Date>)
    ensures r.Some? <==> 1 <= ToOrdinal(d) + i <= MaxOrdinal
    ensures r.Some? ==> ToOrdinal(r.value) == ToOrdinal(d) + i
  {
    var o := ToOrdinal(d) + i;
    if 0 < o <= MaxOrdinal then Some(FromOrdinal(o)) else None
  }

  // ---- ISO 8601 rendering: strftime('%Y-%m-%d') ----

  function Pow10(n: nat): (r: nat)
    ensures r >= 1
  {
    if n == 0 then 1 else 10 * Pow10(n - 1)
  }

  predicate IsDigit(c: char) {
    '0' <= c <= '9'
  }

  predicate AllDigits(s: string) {
    forall i :: 0 <= i < |s| ==> IsDigit(s[i])
  }

  /** `n` in decimal, zero-padded to exactly `width` digits. */
  function Pad(n: nat, width: nat): (s: string)
    requires n < Pow10(width)
    ensures |s| == width && AllDigits(s)
  {
    if width == 0 then "" else Pad(n / 10, width - 1) + [('0' as int + n % 10) as char]
  }

  /** The number a string of decimal digits spells. */
  function DigitsValue(s: string): (n: nat)
    requires AllDigits(s)
    ensures n < Pow10(|s|)
  {
    if s == [] then 0 else 10 * DigitsValue(s[..|s| - 1]) + (s[|s| - 1] as int - '0' as int)
  }

  lemma {:induction false} PadValue(n: nat, width: nat)
    requires n < Pow10(width)
    ensures DigitsValue(Pad(n, width)) == n
  {
    if width > 0 {
      PadValue(n / 10, width - 1);
      var s := Pad(n, width);
      assert s[..width - 1] == Pad(n / 10, width - 1);
    }
  }

  lemma {:induction false} ValuePad(s: string)
    requires AllDigits(s)
    ensures Pad(DigitsValue(s), |s|) == s
  {
    if s != [] {
      var init := s[..|s| - 1];
      var c := s[|s| - 1];
      var v := DigitsValue(init);
      var d := c as int - '0' as int;
      ValuePad(init);
      DigitStep(v, d);
      assert DigitsValue(s) == 10 * v + d;
      assert Pad(DigitsValue(s), |s|) == Pad(v, |s| - 1) + [c];
      assert s == init + [c];
    }
  }

  /** Appending the digit `d` to the number `v` and splitting it off again. */
  lemma DigitStep(v: nat, d: int)
    requires 0 <= d < 10
    ensures (10 * v + d) / 10 == v && (10 * v + d) % 10 == d
  {
  }

  /** `d.strftime('%Y-%m-%d')`. */
  function IsoDate(d: Date): (s: string)
    ensures |s| == 10 && s[4] == '-' && s[7] == '-'
  {
    Pad(d.year, 4) + "-" + Pad(d.month, 2) + "-" + Pad(d.day, 2)
  }

  /** Reads a `YYYY-MM-DD` string back; `None` for anything else or an impossible date. */
  function ParseIsoDate(s: string): Option<Date>
  {
    if |s| == 10 && s[4] == '-' && s[7] == '-'
       && AllDigits(s[..4]) && AllDigits(s[5..7]) && AllDigits(s[8..])
    then
      var ymd := Ymd(DigitsValue(s[..4]), DigitsValue(s[5..7]), DigitsValue(s[8..]));
      if ValidYmd(ymd) then Some(ymd) else None
    else None
  }

  /** The three fields of a rendered date, between the dashes. */
  lemma IsoDateFields(d: Date)
    ensures IsoDate(d)[..4] == Pad(d.year, 4)
    ensures IsoDate(d)[5..7] == Pad(d.month, 2)
    ensures IsoDate(d)[8..] == Pad(d.day, 2)
  {
  }

  /** Two `YYYY-MM-DD`-shaped strings with the same three fields are equal. */
  lemma SameFields(s: string, t: string)
    requires |s| == |t| == 10 && s[4] == t[4] && s[7] == t[7]
    requires s[..4] == t[..4] && s[5..7] == t[5..7] && s[8..] == t[8..]
    ensures s == t
  {
    forall k | 0 <= k < 10 ensures s[k] == t[k] {
      if k < 4 {
        assert s[k] == s[..4][k] && t[k] == t[..4][k];
      } else if 5 <= k < 7 {
        assert s[k] == s[5..7][k - 5] && t[k] == t[5..7][k - 5];
      } else if 8 <= k {
        assert s[k] == s[8..][k - 8] && t[k] == t[8..][k - 8];
      }
    }
  }

  /** Every rendered date reads back as itself. */
  lemma ParseIsoDateOfIsoDate(d: Date)
    ensures ParseIsoDate(IsoDate(d)) == Some(d)
  {
    IsoDateFields(d);
    PadValue(d.year, 4);
    PadValue(d.month, 2);
    PadValue(d.day, 2);
  }

  /** Every string that reads as a date is that date's rendering, so the format is canonical. */
  lemma IsoDateOfParseIsoDate(s: string)
    requires ParseIsoDate(s).Some?
    ensures IsoDate(ParseIsoDate(s).value) == s
  {
    var d := ParseIsoDate(s).value;
    IsoDateFields(d);
    ValuePad(s[..4]);
    ValuePad(s[5..7]);
    ValuePad(s[8..]);
    SameFields(IsoDate(d), s);
  }

  /** Rendering is injective: different dates give different strings. */
  lemma IsoDateInjective(a: Date, b: Date)
    requires IsoDate(a) == IsoDate(b)
    ensures a == b
  {
    ParseIsoDateOfIsoDate(a);
    ParseIsoDateOfIsoDate(b);
  }
}
