/** The request timestamp of AWS Signature Version 4: the ISO 8601 basic
    format UTC date-time of ISO 8601:2004 section 4.3.2, written with Go's
    layout "20060102T150405Z" (YYYYMMDD 'T' HHMMSS 'Z'). Parse is the strict
    reading of that layout by Go's time.Parse; Format writes it and serves
    as its reference inverse. */
module AmzDate {
  import opened Wrappers

  /** A UTC calendar date and time of day, to the second. */
  datatype DateTime = DateTime(year: nat, month: nat, day: nat, hour: nat, minute: nat, second: nat)

  /** Go's zero time.Time{}: January 1, year 1, 00:00:00 UTC. */
  const ZeroTime := DateTime(1, 1, 1, 0, 0, 0)

  const Layout := "20060102T150405Z"

  predicate IsLeapYear(year: nat)
  {
    year % 4 == 0 && (year % 100 != 0 || year % 400 == 0)
  }

  function DaysIn(month: nat, year: nat): nat
  {
    if month == 2 then (if IsLeapYear(year) then 29 else 28)
    else if month == 4 || month == 6 || month == 9 || month == 11 then 30
    else 31
  }

  /** The range checks time.Parse applies: month, day of that month, hour, minute, second. */
  predicate Valid(d: DateTime)
  {
    && d.year <= 9999
    && 1 <= d.month <= 12
    && 1 <= d.day <= DaysIn(d.month, d.year)
    && d.hour < 24
    && d.minute < 60
    && d.second < 60
  }

  predicate IsDigit(c: char)
  {
    '0' <= c <= '9'
  }

  predicate AllDigits(s: string)
  {
    forall i :: 0 <= i < |s| ==> IsDigit(s[i])
  }

  function DigitValue(c: char): nat
    requires IsDigit(c)
  {
    c as int - '0' as int
  }

  function DigitChar(d: nat): (c: char)
    requires d < 10
    ensures IsDigit(c) && DigitValue(c) == d
  {
    ('0' as int + d) as char
  }

  function Pow10(n: nat): nat
  {
    if n == 0 then 1 else 10 * Pow10(n - 1)
  }

  /** The value of a string of decimal digits, most significant digit first. */
  function DecimalValue(s: string): nat
    requires AllDigits(s)
  {
    if s == [] then 0 else DecimalValue(s[..|s| - 1]) * 10 + DigitValue(s[|s| - 1])
  }

  /** The last width decimal digits of n, zero-padded on the left. */
  function Decimal(n: nat, width: nat): (s: string)
    ensures |s| == width && AllDigits(s)
  {
    if width == 0 then "" else Decimal(n / 10, width - 1) + [DigitChar(n % 10)]
  }

  lemma {:induction false} DecimalValueOfDecimal(n: nat, width: nat)
    requires n < Pow10(width)
    ensures DecimalValue(Decimal(n, width)) == n
  {
    if width > 0 {
      var s := Decimal(n, width);
      assert s[..|s| - 1] == Decimal(n / 10, width - 1);
      assert n / 10 < Pow10(width - 1);
      DecimalValueOfDecimal(n / 10, width - 1);
    }
  }

  lemma {:induction false} DecimalOfDecimalValue(s: string)
    requires AllDigits(s)
    ensures DecimalValue(s) < Pow10(|s|)
    ensures Decimal(DecimalValue(s), |s|) == s
  {
    if s != [] {
      var init, last := s[..|s| - 1], s[|s| - 1];
      assert AllDigits(init);
      DecimalOfDecimalValue(init);
      var v := DecimalValue(s);
      assert v == DecimalValue(init) * 10 + DigitValue(last);
      assert v / 10 == DecimalValue(init) && v % 10 == DigitValue(last);
      assert s == init + [last];
    }
  }

  /** What time.Time.Format(Layout) writes for d. */
  function Format(d: DateTime): (s: string)
    ensures |s| == 16
  {
    Decimal(d.year, 4) + Decimal(d.month, 2) + Decimal(d.day, 2) + "T"
    + Decimal(d.hour, 2) + Decimal(d.minute, 2) + Decimal(d.second, 2) + "Z"
  }

  /** The shape of the layout: eight digits, 'T', six digits, 'Z', nothing else. */
  predicate WellFormed(s: string)
  {
    |s| == 16 && AllDigits(s[..8]) && s[8] == 'T' && AllDigits(s[9..15]) && s[15] == 'Z'
  }

  lemma FieldDigits(s: string, lo: nat, hi: nat)
    requires WellFormed(s)
    requires (lo <= hi <= 8) || (9 <= lo <= hi <= 15)
    ensures AllDigits(s[lo..hi])
  {
    if hi <= 8 {
      assert forall i :: 0 <= i < hi - lo ==> s[lo..hi][i] == s[..8][lo + i];
    } else {
      assert forall i :: 0 <= i < hi - lo ==> s[lo..hi][i] == s[9..15][lo - 9 + i];
    }
  }

  /** The decimal field s[lo..hi] of a well-formed timestamp. */
  function Field(s: string, lo: nat, hi: nat): nat
    requires WellFormed(s)
    requires (lo <= hi <= 8) || (9 <= lo <= hi <= 15)
  {
    FieldDigits(s, lo, hi);
    DecimalValue(s[lo..hi])
  }

  /** time.Parse(Layout, s): the date-time s spells out, or None (Go's error)
      when s does not have the layout's shape or a field is out of range. */
  function Parse(s: string): (r: Option<DateTime>)
    ensures r.Some? ==> WellFormed(s) && Valid(r.value)
  {
    if !WellFormed(s) then None
    else
      var d := DateTime(Field(s, 0, 4), Field(s, 4, 6), Field(s, 6, 8),
                        Field(s, 9, 11), Field(s, 11, 13), Field(s, 13, 15));
      if Valid(d) then Some(d) else None
  }

  /** `t, _ := time.Parse(Layout, s)`: the parsed time, or the zero time on error. */
  function ParseOrZero(s: string): (t: DateTime)
    ensures Valid(t)
    ensures Parse(s).Some? ==> t == Parse(s).value
  {
    match Parse(s)
    case Some(d) => d
    case None => ZeroTime
  }

  /** Writing a field back in its width gives the field's characters. */
  lemma FieldRoundTrip(s: string, lo: nat, hi: nat)
    requires WellFormed(s)
    requires (lo <= hi <= 8) || (9 <= lo <= hi <= 15)
    ensures Decimal(Field(s, lo, hi), hi - lo) == s[lo..hi]
  {
    FieldDigits(s, lo, hi);
    DecimalOfDecimalValue(s[lo..hi]);
  }

  /** A string of the layout's shape is its six fields with 'T' and 'Z' between. */
  lemma WellFormedSplit(s: string)
    requires WellFormed(s)
    ensures s == s[0..4] + s[4..6] + s[6..8] + "T" + s[9..11] + s[11..13] + s[13..15] + "Z"
  {
  }

  /** Every accepted string is exactly the formatting of what it parses to:
      no two strings parse to the same date-time. */
  lemma FormatParse(s: string)
    requires Parse(s).Some?
    ensures Format(Parse(s).value) == s
  {
    var d := Parse(s).value;
    assert d == DateTime(Field(s, 0, 4), Field(s, 4, 6), Field(s, 6, 8),
                         Field(s, 9, 11), Field(s, 11, 13), Field(s, 13, 15));
    FieldRoundTrip(s, 0, 4);
    FieldRoundTrip(s, 4, 6);
    FieldRoundTrip(s, 6, 8);
    FieldRoundTrip(s, 9, 11);
    FieldRoundTrip(s, 11, 13);
    FieldRoundTrip(s, 13, 15);
    WellFormedSplit(s);
  }

  /** An absent X-Amz-Date header reads as "", which time.Parse rejects. */
  lemma ParseEmpty()
    ensures Parse("") == None
    ensures ParseOrZero("") == ZeroTime
  {
  }

  /** Parse reads back any formatted date-time whose fields fit their widths,
      and accepts it exactly when it is in range. */
  lemma ParseOfFormat(d: DateTime)
    requires d.year < 10000 && d.month < 100 && d.day < 100
    requires d.hour < 100 && d.minute < 100 && d.second < 100
    ensures Parse(Format(d)) == if Valid(d) then Some(d) else None
  {
    var s := Format(d);
    var y, mo, da, h, mi, se := Decimal(d.year, 4), Decimal(d.month, 2), Decimal(d.day, 2),
                                Decimal(d.hour, 2), Decimal(d.minute, 2), Decimal(d.second, 2);
    assert s == y + mo + da + "T" + h + mi + se + "Z";
    assert s[0..4] == y && s[4..6] == mo && s[6..8] == da;
    assert s[9..11] == h && s[11..13] == mi && s[13..15] == se;
    assert s[..8] == y + mo + da && s[9..15] == h + mi + se;
    assert WellFormed(s);
    DecimalValueOfDecimal(d.year, 4);
    DecimalValueOfDecimal(d.month, 2);
    DecimalValueOfDecimal(d.day, 2);
    DecimalValueOfDecimal(d.hour, 2);
    DecimalValueOfDecimal(d.minute, 2);
    DecimalValueOfDecimal(d.second, 2);
  }

  /** Parse inverts Format on every valid date-time. */
  lemma ParseFormat(d: DateTime)
    requires Valid(d)
    ensures Parse(Format(d)) == Some(d)
  {
    ParseOfFormat(d);
  }

  lemma FormatYear2024()
    ensures Decimal(2024, 4) == "2024"
  {
    assert DigitChar(2) == '2' && DigitChar(0) == '0' && DigitChar(4) == '4';
    assert Decimal(2, 1) == "2";
    assert Decimal(20, 2) == "20";
    assert Decimal(202, 3) == "202";
  }

  lemma TwoDigits(n: nat)
    requires n < 100
    ensures Decimal(n, 2) == [DigitChar(n / 10), DigitChar(n % 10)]
  {
    assert Decimal(n / 10, 1) == [DigitChar(n / 10)];
  }

  lemma FormatExample()
    ensures Format(DateTime(2024, 1, 1, 10, 15, 0)) == "20240101T101500Z"
  {
    FormatYear2024();
    TwoDigits(1);
    TwoDigits(10);
    TwoDigits(15);
    TwoDigits(0);
    assert DigitChar(0) == '0' && DigitChar(1) == '1' && DigitChar(5) == '5';
  }

  /** A concrete timestamp reads as its fields. */
  lemma ParseExample()
    ensures Parse("20240101T101500Z") == Some(DateTime(2024, 1, 1, 10, 15, 0))
  {
    var d := DateTime(2024, 1, 1, 10, 15, 0);
    assert Valid(d);
    ParseFormat(d);
    FormatExample();
  }

  lemma FormatRejectedExamples()
    ensures Format(DateTime(2024, 2, 30, 0, 0, 0)) == "20240230T000000Z"
    ensures Format(DateTime(2024, 1, 1, 24, 0, 0)) == "20240101T240000Z"
  {
    FormatYear2024();
    TwoDigits(0);
    TwoDigits(1);
    TwoDigits(2);
    TwoDigits(24);
    TwoDigits(30);
    assert DigitChar(0) == '0' && DigitChar(1) == '1' && DigitChar(2) == '2';
    assert DigitChar(3) == '3' && DigitChar(4) == '4';
  }

  /** February 30 has the layout's shape but is out of range. */
  lemma ParseRejectsDayOutOfRange()
    ensures Parse("20240230T000000Z") == None
  {
    var d := DateTime(2024, 2, 30, 0, 0, 0);
    assert !Valid(d) by {
      assert IsLeapYear(2024) && DaysIn(2, 2024) == 29;
    }
    ParseOfFormat(d);
    FormatRejectedExamples();
  }

  /** Hour 24 has the layout's shape but is out of range. */
  lemma ParseRejectsHourOutOfRange()
    ensures Parse("20240101T240000Z") == None
  {
    var d := DateTime(2024, 1, 1, 24, 0, 0);
    ParseOfFormat(d);
    FormatRejectedExamples();
  }
}
