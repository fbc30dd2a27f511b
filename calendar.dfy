/**
 * The calendar date the program works with (chrono's `NaiveDate`) and its
 * textual form, which is what the meal lookup receives (`date.to_string()`).
 */
module Calendar {

  /** The year range a `NaiveDate` can hold. */
  const MinYear: int := -262144
  const MaxYear: int := 262143

  /** Proleptic Gregorian leap years. */
  predicate IsLeapYear(y: int)
  {
    y % 4 == 0 && (y % 100 != 0 || y % 400 == 0)
  }

  function DaysInMonth(y: int, m: int): (n: int)
    requires 1 <= m <= 12
    ensures 28 <= n <= 31
    ensures n == 29 <==> m == 2 && IsLeapYear(y)
  {
    if m == 2 then (if IsLeapYear(y) then 29 else 28)
    else if m == 4 || m == 6 || m == 9 || m == 11 then 30
    else 31
  }

  datatype CalendarDate = CalendarDate(year: int, month: int, day: int)

  predicate ValidDate(d: CalendarDate)
  {
    MinYear <= d.year <= MaxYear && 1 <= d.month <= 12 && 1 <= d.day <= DaysInMonth(d.year, d.month)
  }

  /** A `NaiveDate` is always a real calendar date. */
  type Date = d: CalendarDate | ValidDate(d) witness CalendarDate(1970, 1, 1)

  function DigitChar(v: nat): (c: char)
    requires v < 10
    ensures '0' <= c <= '9' && DigitValue(c) == v
  {
    (('0' as int) + v) as char
  }

  function DigitValue(c: char): int
  {
    (c as int) - ('0' as int)
  }

  predicate AllDigits(s: string)
  {
    forall i :: 0 <= i < |s| ==> '0' <= s[i] <= '9'
  }

  /** The decimal digits of `n`, most significant first, without leading zeros. */
  function Decimal(n: nat): (s: string)
    ensures 1 <= |s| && AllDigits(s)
    ensures n < 10 <==> |s| == 1
  {
    if n < 10 then [DigitChar(n)] else Decimal(n / 10) + [DigitChar(n % 10)]
  }

  /** `n` in decimal, padded on the left with zeros to at least `width` digits. */
  function ZeroPad(n: nat, width: nat): (s: string)
    ensures AllDigits(s) && |s| >= width && |s| >= 1
  {
    var digits := Decimal(n);
    if |digits| >= width then digits else seq(width - |digits|, _ => '0') + digits
  }

  /** A year as chrono prints it: four digits inside 0..=9999, otherwise `{:+05}`. */
  function YearString(y: int): string
  {
    if 0 <= y <= 9999 then ZeroPad(y, 4)
    else if y < 0 then "-" + ZeroPad(-y, 4)
    else "+" + ZeroPad(y, 4)
  }

  /** The ISO form `YYYY-MM-DD` that `NaiveDate`'s `Display` writes. */
  function DateString(d: Date): (s: string)
  {
    YearString(d.year) + "-" + ZeroPad(d.month, 2) + "-" + ZeroPad(d.day, 2)
  }

  /** The value of a string of decimal digits; the reading-back half of `Decimal`. */
  function DigitsValue(s: string): int
  {
    if s == [] then 0 else DigitsValue(s[..|s| - 1]) * 10 + DigitValue(s[|s| - 1])
  }

  function YearValue(s: string): int
  {
    if |s| > 0 && s[0] == '-' then -DigitsValue(s[1..])
    else if |s| > 0 && s[0] == '+' then DigitsValue(s[1..])
    else DigitsValue(s)
  }

  /** Reads a date back from its text: the year from everything before the last
      six characters, the month from the two characters after the next one, the
      day from the last two. The separators are skipped, not checked; the shape
      of the text is stated by `DateStringRoundTrip`. */
  function ReadDateString(s: string): CalendarDate
    requires |s| >= 6
  {
    CalendarDate(YearValue(s[..|s| - 6]), DigitsValue(s[|s| - 5..|s| - 3]), DigitsValue(s[|s| - 2..]))
  }

  function Pow10(k: nat): nat
  {
    if k == 0 then 1 else 10 * Pow10(k - 1)
  }

  lemma {:induction false} DecimalValue(n: nat)
    ensures DigitsValue(Decimal(n)) == n
  {
    if n >= 10 {
      var s := Decimal(n);
      DecimalValue(n / 10);
      assert s[..|s| - 1] == Decimal(n / 10);
      assert s[|s| - 1] == DigitChar(n % 10);
    }
  }

  lemma {:induction false} ZerosValue(k: nat)
    ensures DigitsValue(seq(k, _ => '0')) == 0
  {
    if k > 0 {
      var z := seq(k, _ => '0');
      assert z[..k - 1] == seq(k - 1, _ => '0');
      ZerosValue(k - 1);
    }
  }

  lemma {:induction false} LeadingZerosValue(k: nat, s: string)
    ensures DigitsValue(seq(k, _ => '0') + s) == DigitsValue(s)
    decreases |s|
  {
    var z := seq(k, _ => '0');
    if s == [] {
      assert z + s == z;
      ZerosValue(k);
    } else {
      var t := z + s;
      assert t[..|t| - 1] == z + s[..|s| - 1];
      assert t[|t| - 1] == s[|s| - 1];
      LeadingZerosValue(k, s[..|s| - 1]);
    }
  }

  lemma ZeroPadValue(n: nat, width: nat)
    ensures DigitsValue(ZeroPad(n, width)) == n
  {
    DecimalValue(n);
    var digits := Decimal(n);
    if |digits| < width {
      LeadingZerosValue(width - |digits|, digits);
    }
  }

  lemma {:induction false} DecimalLength(n: nat, k: nat)
    requires 1 <= k && n < Pow10(k)
    ensures |Decimal(n)| <= k
  {
    if n >= 10 {
      assert Pow10(1) == 10;
      assert n / 10 < Pow10(k - 1);
      DecimalLength(n / 10, k - 1);
    }
  }

  lemma ZeroPadExact(n: nat, width: nat)
    requires 1 <= width && n < Pow10(width)
    ensures |ZeroPad(n, width)| == width
  {
    DecimalLength(n, width);
  }

  /** The year text reads back as the year and, inside 0..=9999, is four digits. */
  lemma YearStringValue(y: int)
    ensures YearValue(YearString(y)) == y
    ensures 0 <= y <= 9999 ==> |YearString(y)| == 4
  {
    if 0 <= y <= 9999 {
      ZeroPadValue(y, 4);
      assert Pow10(4) == 10000;
      ZeroPadExact(y, 4);
      var s := ZeroPad(y, 4);
      assert '0' <= s[0] <= '9';
    } else if y < 0 {
      ZeroPadValue(-y, 4);
      assert ("-" + ZeroPad(-y, 4))[1..] == ZeroPad(-y, 4);
    } else {
      ZeroPadValue(y, 4);
      assert ("+" + ZeroPad(y, 4))[1..] == ZeroPad(y, 4);
    }
  }

  /** `to_string` is `YYYY-MM-DD` for years 0..=9999, and the date can always be read back from it. */
  lemma DateStringRoundTrip(d: Date)
    ensures |DateString(d)| >= 6
    ensures ReadDateString(DateString(d)) == d
    ensures var s := DateString(d);
      s[|s| - 6] == '-' && s[|s| - 3] == '-' && AllDigits(s[|s| - 5..|s| - 3]) && AllDigits(s[|s| - 2..])
    ensures 0 <= d.year <= 9999 ==> var s := DateString(d);
      |s| == 10 && s[4] == '-' && s[7] == '-' && AllDigits(s[..4]) && AllDigits(s[5..7]) && AllDigits(s[8..])
  {
    assert Pow10(2) == 100;
    ZeroPadExact(d.month, 2);
    ZeroPadExact(d.day, 2);
    ZeroPadValue(d.month, 2);
    ZeroPadValue(d.day, 2);
    YearStringValue(d.year);
    var y, m, dd := YearString(d.year), ZeroPad(d.month, 2), ZeroPad(d.day, 2);
    var s := DateString(d);
    assert s == y + "-" + m + "-" + dd;
    assert s[..|s| - 6] == y;
    assert s[|s| - 5..|s| - 3] == m;
    assert s[|s| - 2..] == dd;
  }

  /** Distinct dates are requested under distinct texts. */
  lemma DateStringInjective(d1: Date, d2: Date)
    requires DateString(d1) == DateString(d2)
    ensures d1 == d2
  {
    DateStringRoundTrip(d1);
    DateStringRoundTrip(d2);
  }
}
