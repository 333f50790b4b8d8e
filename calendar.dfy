/** Proleptic Gregorian dates at day granularity, calendar months, and the
    strict `%Y-%m-%d` text form the loader accepts. */
module Calendar {
  import opened Errors

  datatype Date = Date(year: int, month: int, day: int)

  /** A calendar month, the key the monthly aggregations group by. */
  datatype Month = Month(year: int, month: int)

  predicate IsLeapYear(y: int) {
    y % 4 == 0 && (y % 100 != 0 || y % 400 == 0)
  }

  function DaysInMonth(y: int, m: int): (n: int)
    requires 1 <= m <= 12
    ensures 28 <= n <= 31
    ensures m == 2 ==> (n == 29 <==> IsLeapYear(y))
  {
    if m == 2 then (if IsLeapYear(y) then 29 else 28)
    else if m == 4 || m == 6 || m == 9 || m == 11 then 30
    else 31
  }

  predicate ValidMonth(m: Month) {
    1 <= m.month <= 12
  }

  predicate ValidDate(d: Date) {
    1 <= d.month <= 12 && 1 <= d.day <= DaysInMonth(d.year, d.month)
  }

  function MonthOf(d: Date): Month {
    Month(d.year, d.month)
  }

  /** Days left in the month of `d` after `d` itself. */
  function RemainingDays(d: Date): (r: int)
    requires ValidDate(d)
    ensures 0 <= r < DaysInMonth(d.year, d.month)
    ensures d.day + r == DaysInMonth(d.year, d.month)
  {
    DaysInMonth(d.year, d.month) - d.day
  }

  /** Chronological order of months, as the month-end bins of a grouping are ordered. */
  predicate MonthBefore(a: Month, b: Month) {
    a.year < b.year || (a.year == b.year && a.month < b.month)
  }

  /** Order of dates at day granularity (timestamps at midnight). */
  predicate DateAtMost(a: Date, b: Date) {
    a.year < b.year
    || (a.year == b.year && a.month < b.month)
    || (a.year == b.year && a.month == b.month && a.day <= b.day)
  }

  /** Months counted from January of year 0; consecutive months get consecutive numbers. */
  function MonthIndex(m: Month): int {
    m.year * 12 + (m.month - 1)
  }

  function MonthAt(k: int): (m: Month)
    ensures ValidMonth(m) && MonthIndex(m) == k
  {
    Month(k / 12, k % 12 + 1)
  }

  lemma MonthAtIndex(m: Month)
    requires ValidMonth(m)
    ensures MonthAt(MonthIndex(m)) == m
  {
  }

  /** Distinct valid months have distinct month numbers. */
  lemma MonthIndexInjective(a: Month, b: Month)
    requires ValidMonth(a) && ValidMonth(b) && MonthIndex(a) == MonthIndex(b)
    ensures a == b
  {
    MonthAtIndex(a);
    MonthAtIndex(b);
  }

  /** Chronological order is numeric order of month indices. */
  lemma MonthBeforeIsIndexOrder(a: Month, b: Month)
    requires ValidMonth(a) && ValidMonth(b)
    ensures MonthBefore(a, b) <==> MonthIndex(a) < MonthIndex(b)
  {
    if a.year < b.year {
      assert a.year * 12 <= b.year * 12 - 12;
    } else if a.year > b.year {
      assert a.year * 12 >= b.year * 12 + 12;
    }
  }

  // ---------------------------------------------------------------------
  // The `%Y-%m-%d` text form

  predicate IsDigit(c: char) {
    '0' <= c <= '9'
  }

  predicate AllDigits(s: string) {
    forall i :: 0 <= i < |s| ==> IsDigit(s[i])
  }

  function Pow10(n: nat): (p: nat)
    ensures p >= 1
  {
    if n == 0 then 1 else 10 * Pow10(n - 1)
  }

  /** The number a string of decimal digits denotes. */
  function DigitsValue(s: string): (v: nat)
    requires AllDigits(s)
    ensures v < Pow10(|s|)
  {
    if s == [] then 0
    else DigitsValue(s[..|s| - 1]) * 10 + (s[|s| - 1] as int - '0' as int)
  }

  function DigitChar(k: int): (c: char)
    requires 0 <= k <= 9
    ensures IsDigit(c) && c as int - '0' as int == k
  {
    ('0' as int + k) as char
  }

  /** `n` written with exactly `width` decimal digits, zero-padded on the left. */
  function Padded(n: nat, width: nat): (s: string)
    ensures |s| == width && AllDigits(s)
  {
    if width == 0 then [] else Padded(n / 10, width - 1) + [DigitChar(n % 10)]
  }

  lemma {:induction false} PaddedValue(n: nat, width: nat)
    requires n < Pow10(width)
    ensures DigitsValue(Padded(n, width)) == n
  {
    if width > 0 {
      var s := Padded(n, width);
      assert s[..|s| - 1] == Padded(n / 10, width - 1);
      PaddedValue(n / 10, width - 1);
    }
  }

  lemma {:induction false} ValuePadded(s: string)
    requires AllDigits(s)
    ensures Padded(DigitsValue(s), |s|) == s
  {
    if s != [] {
      var init := s[..|s| - 1];
      var v := DigitsValue(init);
      var d := s[|s| - 1] as int - '0' as int;
      assert (v * 10 + d) / 10 == v;
      assert (v * 10 + d) % 10 == d;
      ValuePadded(init);
    }
  }

  /** The text form of a date: four-digit year, two-digit month and day. */
  function FormatDate(d: Date): (s: string)
    requires ValidDate(d) && 1 <= d.year <= 9999
    ensures |s| == 10
  {
    Padded(d.year, 4) + "-" + Padded(d.month, 2) + "-" + Padded(d.day, 2)
  }

  /** Strict `%Y-%m-%d`: ten characters, digits with dashes at positions 4 and 7,
      and a real calendar day. Anything else is rejected. */
  function ParseDate(s: string): (r: Option<Date>)
    ensures r.Some? ==> ValidDate(r.value) && 1 <= r.value.year <= 9999
  {
    if |s| == 10 && s[4] == '-' && s[7] == '-'
       && AllDigits(s[0..4]) && AllDigits(s[5..7]) && AllDigits(s[8..10])
    then
      var y := DigitsValue(s[0..4]);
      var m := DigitsValue(s[5..7]);
      var d := DigitsValue(s[8..10]);
      if 1 <= y && 1 <= m <= 12 && 1 <= d <= DaysInMonth(y, m) then Some(Date(y, m, d)) else None
    else None
  }

  /** Every date of years 1 to 9999 is read back from its text form. */
  lemma ParseFormatRoundTrip(d: Date)
    requires ValidDate(d) && 1 <= d.year <= 9999
    ensures ParseDate(FormatDate(d)) == Some(d)
  {
    var s := FormatDate(d);
    assert s[0..4] == Padded(d.year, 4);
    assert s[5..7] == Padded(d.month, 2);
    assert s[8..10] == Padded(d.day, 2);
    PaddedValue(d.year, 4);
    PaddedValue(d.month, 2);
    PaddedValue(d.day, 2);
  }

  /** A ten-character text with dashes at positions 4 and 7 is its three
      digit fields joined by dashes. */
  lemma DateFields(s: string)
    requires |s| == 10 && s[4] == '-' && s[7] == '-'
    ensures s == s[0..4] + "-" + s[5..7] + "-" + s[8..10]
  {
    var t := s[0..4] + "-" + s[5..7] + "-" + s[8..10];
    assert |t| == 10;
    forall i | 0 <= i < 10 ensures t[i] == s[i] {
    }
  }

  /** Only the canonical text of a date parses to it: no other spelling is accepted. */
  lemma FormatParseRoundTrip(s: string)
    requires ParseDate(s).Some?
    ensures FormatDate(ParseDate(s).value) == s
  {
    var y, m, d := s[0..4], s[5..7], s[8..10];
    var date := ParseDate(s).value;
    assert date == Date(DigitsValue(y), DigitsValue(m), DigitsValue(d));
    ValuePadded(y);
    ValuePadded(m);
    ValuePadded(d);
    assert FormatDate(date) == y + "-" + m + "-" + d;
    DateFields(s);
  }
}
