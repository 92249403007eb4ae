/**
 * The text forms the billing summary uses: the `MM/DD` day strings read with
 * `pd.to_datetime(..., format='%m/%d')`, and the decimal `bill_period.startY`
 * read with `int(...)`.
 */
module DateText {
  import opened Wrappers
  import opened Calendar

  /** Year that `%m/%d` parsing assumes when the text has no year. */
  const DefaultYear: int := 1900

  predicate IsDigit(c: char) {
    '0' <= c <= '9'
  }

  predicate AllDigits(s: string) {
    forall i :: 0 <= i < |s| ==> IsDigit(s[i])
  }

  /** The value of a string of decimal digits. */
  function DecimalValue(s: string): (n: nat)
    requires AllDigits(s)
  {
    if s == [] then 0
    else DecimalValue(s[..|s| - 1]) * 10 + (s[|s| - 1] as int - '0' as int)
  }

  /** A `%m` or `%d` field: one or two digits. */
  function ParseField(s: string): (r: Option<nat>)
    ensures r.Some? <==> 1 <= |s| <= 2 && AllDigits(s)
    ensures r.Some? ==> r.value < 100
  {
    if 1 <= |s| <= 2 && AllDigits(s) then
      DecimalOfShort(s);
      Some(DecimalValue(s))
    else None
  }

  function DigitValue(c: char): int {
    c as int - '0' as int
  }

  /** The value of one or two digits. */
  lemma DecimalOfShort(s: string)
    requires 1 <= |s| <= 2 && AllDigits(s)
    ensures DecimalValue(s) == if |s| == 1 then DigitValue(s[0]) else 10 * DigitValue(s[0]) + DigitValue(s[1])
  {
    assert s[..|s| - 1][..0] == [];
    if |s| == 2 {
      assert s[..1] == [s[0]];
    }
  }

  /** Position of the first '/' in `s`, or |s| if there is none. */
  function SlashAt(s: string): (k: nat)
    ensures k <= |s|
    ensures k < |s| ==> s[k] == '/'
    ensures forall i :: 0 <= i < k ==> s[i] != '/'
  {
    if s == [] then 0
    else if s[0] == '/' then 0
    else 1 + SlashAt(s[1..])
  }

  /**
   * The month and day of an `MM/DD` string: the month 1..12, the day 1..31 and
   * a day that exists in the default year 1900, which `%m/%d` parsing assumes;
   * `None` where `pd.to_datetime` raises.
   */
  function ParseMonthDay(s: string): (r: Option<(int, int)>)
    ensures r.Some? ==> 1 <= r.value.0 <= 12 && 1 <= r.value.1 <= DaysInMonth(DefaultYear, r.value.0)
  {
    var k := SlashAt(s);
    if k == |s| then None
    else
      match (ParseField(s[..k]), ParseField(s[k + 1..]))
      case (Some(m), Some(d)) =>
        if 1 <= m <= 12 && 1 <= d <= DaysInMonth(DefaultYear, m) then Some((m, d)) else None
      case _ => None
  }

  /** Two-digit text of a number below 100. */
  function TwoDigits(n: nat): (s: string)
    requires n < 100
  {
    [(('0' as int) + n / 10) as char, (('0' as int) + n % 10) as char]
  }

  /** The `MM/DD` text of a month and day. */
  function FormatMonthDay(m: nat, d: nat): string
    requires m < 100 && d < 100
  {
    TwoDigits(m) + "/" + TwoDigits(d)
  }

  /** Every day of the default year reads back from its `MM/DD` text. */
  lemma MonthDayRoundTrip(m: nat, d: nat)
    requires 1 <= m <= 12 && 1 <= d <= DaysInMonth(DefaultYear, m)
    ensures ParseMonthDay(FormatMonthDay(m, d)) == Some((m, d))
  {
    var s := FormatMonthDay(m, d);
    assert SlashAt(s) == 2 by {
      assert s[0] != '/' && s[1] != '/' && s[2] == '/';
      assert s[1..][1..] == s[2..];
    }
    assert s[..2] == TwoDigits(m) && s[3..] == TwoDigits(d);
    DecimalOfShort(TwoDigits(m));
    DecimalOfShort(TwoDigits(d));
  }

  /**
   * `02/29` is rejected: it is read against 1900, which is not a leap year,
   * before any other year is attached.
   */
  lemma LeapDayRejected()
    ensures ParseMonthDay("02/29") == None
  {
    assert SlashAt("02/29") == 2 by {
      assert "02/29"[1..] == "2/29";
      assert "2/29"[1..] == "/29";
    }
    assert "02/29"[..2] == "02";
  }

  /**
   * `s` is the text `a/b` of a day of the default year: one or two digits of
   * month `m`, a slash, one or two digits of day `d`.
   */
  predicate MonthDayText(s: string, a: string, b: string, m: int, d: int) {
    && s == a + "/" + b
    && 1 <= |a| <= 2 && AllDigits(a) && DecimalValue(a) == m
    && 1 <= |b| <= 2 && AllDigits(b) && DecimalValue(b) == d
    && 1 <= m <= 12 && 1 <= d <= DaysInMonth(DefaultYear, m)
  }

  /**
   * A text parses to `(m, d)` exactly when it is the `a/b` text of that day,
   * its fields read as written; every other text is rejected.
   */
  lemma ParseMonthDayExact(s: string, m: int, d: int)
    ensures ParseMonthDay(s) == Some((m, d)) <==> exists a, b :: MonthDayText(s, a, b, m, d)
  {
    if ParseMonthDay(s) == Some((m, d)) {
      var k := SlashAt(s);
      assert s == s[..k] + "/" + s[k + 1..];
      assert MonthDayText(s, s[..k], s[k + 1..], m, d);
    }
    if exists a, b :: MonthDayText(s, a, b, m, d) {
      var a, b :| MonthDayText(s, a, b, m, d);
      var k := SlashAt(s);
      assert s[|a|] == '/';
      assert k == |a|;
      assert s[..k] == a && s[k + 1..] == b;
    }
  }

  /** One-digit fields are read as written, and a field with a non-digit is rejected. */
  lemma ShortAndMalformedFields()
    ensures ParseMonthDay("1/5") == Some((1, 5))
    ensures ParseMonthDay("1x/05") == None
  {
    assert SlashAt("1/5") == 1 by {
      assert "1/5"[1..] == "/5";
    }
    assert "1/5"[..1] == "1" && "1/5"[2..] == "5";
    assert SlashAt("1x/05") == 2 by {
      assert "1x/05"[1..] == "x/05";
      assert "x/05"[1..] == "/05";
    }
    assert !IsDigit("1x/05"[..2][1]);
  }

  /** `int(startY)` for a string of decimal digits; `None` where it raises. */
  function ParseYear(s: string): (r: Option<int>)
    ensures r.Some? <==> |s| > 0 && AllDigits(s)
    ensures r.Some? ==> r.value >= 0
  {
    if |s| > 0 && AllDigits(s) then Some(DecimalValue(s)) else None
  }

  /** The decimal text of `n`, without leading zeros (`str(n)`). */
  function DecimalText(n: nat): (s: string)
    ensures |s| > 0 && AllDigits(s)
  {
    var last := [(('0' as int) + n % 10) as char];
    if n < 10 then last else DecimalText(n / 10) + last
  }

  /** Every non-negative year reads back from its decimal text. */
  lemma {:induction false} DecimalRoundTrip(n: nat)
    ensures ParseYear(DecimalText(n)) == Some(n)
  {
    var s := DecimalText(n);
    assert s[|s| - 1] as int - '0' as int == n % 10;
    if n >= 10 {
      DecimalRoundTrip(n / 10);
      assert s[..|s| - 1] == DecimalText(n / 10);
    } else {
      assert s[..|s| - 1] == [];
      assert DecimalValue(s) == DecimalValue([]) * 10 + n % 10;
    }
  }

  /** A leading zero does not change the year read from digits. */
  lemma {:induction false} LeadingZero(s: string)
    requires |s| > 0 && AllDigits(s)
    ensures ParseYear("0" + s) == ParseYear(s)
  {
    ZeroPrefixValue(s);
  }

  lemma {:induction false} ZeroPrefixValue(s: string)
    requires AllDigits(s)
    ensures AllDigits("0" + s) && DecimalValue("0" + s) == DecimalValue(s)
  {
    if s == [] {
      assert ("0" + s)[..0] == [];
    } else {
      var init := s[..|s| - 1];
      ZeroPrefixValue(init);
      assert ("0" + s)[..|"0" + s| - 1] == "0" + init;
    }
  }

  /** Four-digit text of a year. */
  function FourDigits(y: nat): (s: string)
    requires y < 10000
  {
    TwoDigits(y / 100) + TwoDigits(y % 100)
  }

  /** A four-digit year reads back from its text. */
  lemma YearRoundTrip(y: nat)
    requires y < 10000
    ensures ParseYear(FourDigits(y)) == Some(y)
  {
    var s := FourDigits(y);
    assert AllDigits(s);
    assert s[..3][..2] == s[..2] && s[..3][2] == s[2];
    DecimalOfShort(s[..2]);
    assert DecimalValue(s[..2]) == y / 100;
    assert DecimalValue(s[..3]) == 10 * (y / 100) + DigitValue(s[2]);
  }
}
