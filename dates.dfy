/** The slice of Python's `datetime.date` that `Meter.get_data` relies on:
    proleptic Gregorian dates in 0001-01-01 .. 9999-12-31, day arithmetic
    through ordinals (`date + timedelta(days=n)`, OverflowError out of
    range) and `str(date)`, the ISO form YYYY-MM-DD. */
module Dates {
  import opened Errors

  datatype Date = Date(year: int, month: int, day: int)

  /** `date.max.toordinal()`, the ordinal of 9999-12-31. */
  const MaxOrdinal: int := 3652059

  predicate IsLeap(y: int)
  {
    y % 4 == 0 && (y % 100 != 0 || y % 400 == 0)
  }

  function DaysInYear(y: int): int
  {
    if IsLeap(y) then 366 else 365
  }

  function DaysInMonth(y: int, m: int): int
    requires 1 <= m <= 12
  {
    if m == 2 then (if IsLeap(y) then 29 else 28)
    else if m == 4 || m == 6 || m == 9 || m == 11 then 30
    else 31
  }

  /** The invariant of every `date` object. */
  predicate Valid(d: Date)
  {
    1 <= d.year <= 9999 && 1 <= d.month <= 12 && 1 <= d.day <= DaysInMonth(d.year, d.month)
  }

  /** Days in the years before `y` (CPython's `_days_before_year`). */
  function DaysBeforeYear(y: int): int
    requires y >= 1
  {
    var p := y - 1;
    p * 365 + p / 4 - p / 100 + p / 400
  }

  /** Days in the months of year `y` before month `m`; month 13 closes the year. */
  function DaysBeforeMonth(y: int, m: int): int
    requires 1 <= m <= 13
  {
    if m == 1 then 0 else DaysBeforeMonth(y, m - 1) + DaysInMonth(y, m - 1)
  }

  /** `date.toordinal()`: 0001-01-01 is day 1. */
  function ToOrdinal(d: Date): int
    requires Valid(d)
  {
    DaysBeforeYear(d.year) + DaysBeforeMonth(d.year, d.month) + d.day
  }

  /** The closed form counts each year's days exactly once. */
  lemma YearStep(y: int)
    requires y >= 1
    ensures DaysBeforeYear(y + 1) == DaysBeforeYear(y) + DaysInYear(y)
  {
    var p := y - 1;
    assert y / 4 == p / 4 + (if y % 4 == 0 then 1 else 0);
    assert y / 100 == p / 100 + (if y % 100 == 0 then 1 else 0);
    assert y / 400 == p / 400 + (if y % 400 == 0 then 1 else 0);
  }

  lemma {:induction false} YearMonotone(a: int, b: int)
    requires 1 <= a <= b
    ensures DaysBeforeYear(a) + 365 * (b - a) <= DaysBeforeYear(b)
    decreases b - a
  {
    if a < b {
      YearMonotone(a, b - 1);
      YearStep(b - 1);
    }
  }

  lemma MonthsFillYear(y: int)
    ensures DaysBeforeMonth(y, 13) == DaysInYear(y)
  {
    var f := DaysInMonth(y, 2);
    assert DaysBeforeMonth(y, 2) == 31;
    assert DaysBeforeMonth(y, 3) == 31 + f;
    assert DaysBeforeMonth(y, 4) == 62 + f;
    assert DaysBeforeMonth(y, 5) == 92 + f;
    assert DaysBeforeMonth(y, 6) == 123 + f;
    assert DaysBeforeMonth(y, 7) == 153 + f;
    assert DaysBeforeMonth(y, 8) == 184 + f;
    assert DaysBeforeMonth(y, 9) == 215 + f;
    assert DaysBeforeMonth(y, 10) == 245 + f;
    assert DaysBeforeMonth(y, 11) == 276 + f;
    assert DaysBeforeMonth(y, 12) == 306 + f;
  }

  lemma {:induction false} MonthMonotone(y: int, a: int, b: int)
    requires 1 <= a <= b <= 13
    ensures DaysBeforeMonth(y, a) + 28 * (b - a) <= DaysBeforeMonth(y, b)
    decreases b - a
  {
    if a < b {
      MonthMonotone(y, a, b - 1);
    }
  }

  /** The year holding day `n`, searched upwards from `y`. */
  function FindYear(n: int, y: int): (r: int)
    requires y >= 1 && DaysBeforeYear(y) < n
    ensures r >= y && DaysBeforeYear(r) < n <= DaysBeforeYear(r + 1)
    decreases n - DaysBeforeYear(y)
  {
    YearStep(y);
    if n <= DaysBeforeYear(y + 1) then y else FindYear(n, y + 1)
  }

  /** The month holding day `rest` of year `y`, searched upwards from `m`. */
  function FindMonth(y: int, rest: int, m: int): (r: int)
    requires 1 <= m <= 12 && DaysBeforeMonth(y, m) < rest <= DaysInYear(y)
    ensures m <= r <= 12 && DaysBeforeMonth(y, r) < rest <= DaysBeforeMonth(y, r + 1)
    decreases 13 - m
  {
    MonthsFillYear(y);
    if rest <= DaysBeforeMonth(y, m + 1) then m else FindMonth(y, rest, m + 1)
  }

  /** `date.fromordinal(n)`, defined for the ordinals of valid dates. */
  function FromOrdinal(n: int): (d: Date)
    requires 1 <= n <= MaxOrdinal
    ensures Valid(d) && ToOrdinal(d) == n
  {
    var y := FindYear(n, 1);
    assert y <= 9999 by {
      if y >= 10000 {
        YearMonotone(10000, y);
      }
    }
    YearStep(y);
    var rest := n - DaysBeforeYear(y);
    var m := FindMonth(y, rest, 1);
    Date(y, m, rest - DaysBeforeMonth(y, m))
  }

  /** Every valid date has an ordinal in range, inside its own year. */
  lemma OrdinalRange(d: Date)
    requires Valid(d)
    ensures 1 <= ToOrdinal(d) <= MaxOrdinal
    ensures DaysBeforeYear(d.year) < ToOrdinal(d) <= DaysBeforeYear(d.year + 1)
    ensures DaysBeforeMonth(d.year, d.month) < ToOrdinal(d) - DaysBeforeYear(d.year) <= DaysBeforeMonth(d.year, d.month + 1)
  {
    assert DaysBeforeYear(1) == 0;
    var y := d.year;
    MonthMonotone(y, 1, d.month);
    MonthMonotone(y, d.month + 1, 13);
    assert DaysBeforeMonth(y, d.month + 1) == DaysBeforeMonth(y, d.month) + DaysInMonth(y, d.month);
    MonthsFillYear(y);
    YearStep(y);
    YearMonotone(y + 1, 10000);
    YearMonotone(1, y);
    assert DaysBeforeYear(10000) == MaxOrdinal;
  }

  /** Only one year's range of ordinals holds `n`. */
  lemma YearUnique(n: int, a: int, b: int)
    requires 1 <= a && 1 <= b
    requires DaysBeforeYear(a) < n <= DaysBeforeYear(a + 1)
    requires DaysBeforeYear(b) < n <= DaysBeforeYear(b + 1)
    ensures a == b
  {
    if a < b {
      YearMonotone(a + 1, b);
    } else if a > b {
      YearMonotone(b + 1, a);
    }
  }

  /** Only one month's range of days holds `rest`. */
  lemma MonthUnique(y: int, rest: int, a: int, b: int)
    requires 1 <= a <= 12 && 1 <= b <= 12
    requires DaysBeforeMonth(y, a) < rest <= DaysBeforeMonth(y, a + 1)
    requires DaysBeforeMonth(y, b) < rest <= DaysBeforeMonth(y, b + 1)
    ensures a == b
  {
    if a < b {
      MonthMonotone(y, a + 1, b);
    } else if a > b {
      MonthMonotone(y, b + 1, a);
    }
  }

  /** The conversions are inverse: a valid date comes back from its ordinal. */
  lemma OrdinalRoundTrip(d: Date)
    requires Valid(d)
    ensures 1 <= ToOrdinal(d) <= MaxOrdinal
    ensures FromOrdinal(ToOrdinal(d)) == d
  {
    OrdinalRange(d);
    var n := ToOrdinal(d);
    var e := FromOrdinal(n);
    OrdinalRange(e);
    YearUnique(n, e.year, d.year);
    MonthUnique(d.year, n - DaysBeforeYear(d.year), e.month, d.month);
  }

  /** `date + timedelta(days=n)`: OverflowError when the result leaves the
      range of dates. */
  function AddDays(d: Date, n: int): Result<Date>
    requires Valid(d)
  {
    var o := ToOrdinal(d) + n;
    if 1 <= o <= MaxOrdinal then Ok(FromOrdinal(o)) else Err(OverflowError)
  }

  /** Adding days moves the ordinal by exactly that many days, and fails
      exactly when the target ordinal is out of range. */
  lemma AddDaysOrdinal(d: Date, n: int)
    requires Valid(d)
    ensures AddDays(d, n).Ok? <==> 1 <= ToOrdinal(d) + n <= MaxOrdinal
    ensures AddDays(d, n).Err? ==> AddDays(d, n).error == OverflowError
    ensures AddDays(d, n).Ok? ==> Valid(AddDays(d, n).value) && ToOrdinal(AddDays(d, n).value) == ToOrdinal(d) + n
  {
  }

  /** Adding no days gives the same date. */
  lemma AddDaysZero(d: Date)
    requires Valid(d)
    ensures AddDays(d, 0) == Ok(d)
  {
    OrdinalRoundTrip(d);
  }

  /** Adding days twice adds their sum. */
  lemma AddDaysCompose(d: Date, a: int, b: int)
    requires Valid(d)
    requires AddDays(d, a).Ok? && AddDays(AddDays(d, a).value, b).Ok?
    ensures AddDays(d, a + b) == AddDays(AddDays(d, a).value, b)
  {
    var e := AddDays(d, a).value;
    assert ToOrdinal(e) == ToOrdinal(d) + a;
    assert ToOrdinal(e) + b == ToOrdinal(d) + (a + b);
  }

  /** The character of a decimal digit. */
  function DigitChar(k: int): char
    requires 0 <= k < 10
  {
    ('0' as int + k) as char
  }

  predicate IsDigit(c: char)
  {
    '0' <= c <= '9'
  }

  function Pow10(w: nat): nat
  {
    if w == 0 then 1 else 10 * Pow10(w - 1)
  }

  /** `%0*d`: the last `w` decimal digits of `n`, zero padded. */
  function Pad(n: nat, w: nat): (s: string)
    ensures |s| == w
    ensures forall i :: 0 <= i < |s| ==> IsDigit(s[i])
  {
    if w == 0 then [] else Pad(n / 10, w - 1) + [DigitChar(n % 10)]
  }

  /** The number a string of decimal digits spells. */
  function DigitsValue(s: string): int
  {
    if s == [] then 0 else DigitsValue(s[..|s| - 1]) * 10 + (s[|s| - 1] as int - '0' as int)
  }

  lemma {:induction false} PadValue(n: nat, w: nat)
    requires n < Pow10(w)
    ensures DigitsValue(Pad(n, w)) == n
  {
    if w > 0 {
      PadValue(n / 10, w - 1);
      var s := Pad(n, w);
      assert s[..|s| - 1] == Pad(n / 10, w - 1);
    }
  }

  /** `str(date)`: `YYYY-MM-DD`. */
  function IsoFormat(d: Date): string
    requires Valid(d)
  {
    Pad(d.year, 4) + "-" + Pad(d.month, 2) + "-" + Pad(d.day, 2)
  }

  /** Reads back a `YYYY-MM-DD` string. */
  function ParseIso(s: string): Option<Date>
  {
    if |s| == 10 && s[4] == '-' && s[7] == '-' then
      Some(Date(DigitsValue(s[..4]), DigitsValue(s[5..7]), DigitsValue(s[8..])))
    else None
  }

  /** The ISO form has ten characters, dashes at 4 and 7 and digits
      elsewhere, and it determines the date. */
  lemma IsoRoundTrip(d: Date)
    requires Valid(d)
    ensures |IsoFormat(d)| == 10 && IsoFormat(d)[4] == '-' && IsoFormat(d)[7] == '-'
    ensures forall i :: 0 <= i < 10 && i != 4 && i != 7 ==> IsDigit(IsoFormat(d)[i])
    ensures ParseIso(IsoFormat(d)) == Some(d)
  {
    var s := IsoFormat(d);
    assert s[..4] == Pad(d.year, 4);
    assert s[5..7] == Pad(d.month, 2);
    assert s[8..] == Pad(d.day, 2);
    PadValue(d.year, 4);
    PadValue(d.month, 2);
    PadValue(d.day, 2);
  }

  /** Two valid dates print alike only when they are the same date. */
  lemma IsoInjective(d: Date, e: Date)
    requires Valid(d) && Valid(e)
    ensures IsoFormat(d) == IsoFormat(e) <==> d == e
  {
    IsoRoundTrip(d);
    IsoRoundTrip(e);
  }
}
