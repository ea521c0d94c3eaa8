/** Calendar dates and minute-resolution timestamps in ISO 8601 extended form.

    The parsers follow what `date.fromisoformat` and `datetime.fromisoformat`
    do with the shapes the weather API produces and the assistant sends:
    `YYYY-MM-DD` and `YYYY-MM-DDTHH:MM`. A string of the wrong shape is an
    "invalid isoformat string"; a well-shaped string naming a day or time that
    does not exist (month 13, 30 February, year 0, hour 24) is out of range.
    Both are Python `ValueError`s, kept apart here. */
module IsoDate {
  import opened Wrappers

  /** A proleptic Gregorian date, as Python's `date` (years 1 to 9999). */
  datatype Date = Date(year: int, month: int, day: int)

  /** A naive timestamp to the minute, as the hourly `time` column gives it. */
  datatype DateTime = DateTime(date: Date, hour: int, minute: int)

  /** Why a string was refused: its shape, or the day/time it names. */
  datatype IsoError = InvalidIsoFormat(text: string) | OutOfRange(text: string)

  predicate IsLeapYear(year: int) {
    year % 4 == 0 && (year % 100 != 0 || year % 400 == 0)
  }

  function DaysInMonth(year: int, month: int): (n: int)
    requires 1 <= month <= 12
    ensures 28 <= n <= 31
    ensures n == 29 <==> month == 2 && IsLeapYear(year)
  {
    if month == 2 then (if IsLeapYear(year) then 29 else 28)
    else if month == 4 || month == 6 || month == 9 || month == 11 then 30
    else 31
  }

  predicate ValidDate(d: Date) {
    1 <= d.year <= 9999 && 1 <= d.month <= 12 && 1 <= d.day <= DaysInMonth(d.year, d.month)
  }

  predicate ValidDateTime(t: DateTime) {
    ValidDate(t.date) && 0 <= t.hour < 24 && 0 <= t.minute < 60
  }

  // ---------------------------------------------------------------------
  // Decimal digits

  predicate IsDigit(c: char) {
    '0' <= c <= '9'
  }

  predicate AllDigits(s: string) {
    forall i | 0 <= i < |s| :: IsDigit(s[i])
  }

  function DigitValue(c: char): (n: nat)
    requires IsDigit(c)
    ensures n < 10
  {
    c as int - '0' as int
  }

  function DigitChar(n: nat): (c: char)
    requires n < 10
    ensures IsDigit(c) && DigitValue(c) == n
  {
    ('0' as int + n) as char
  }

  function Pow10(width: nat): (p: nat)
    ensures p >= 1
  {
    if width == 0 then 1 else 10 * Pow10(width - 1)
  }

  /** The number a string of decimal digits denotes, most significant first. */
  function DecimalValue(s: string): nat
    requires AllDigits(s)
  {
    if s == [] then 0 else DecimalValue(s[..|s| - 1]) * 10 + DigitValue(s[|s| - 1])
  }

  /** `n` written in exactly `width` digits with leading zeros (`%0<width>d`). */
  function ZeroPadded(n: nat, width: nat): (s: string)
    requires n < Pow10(width)
    ensures |s| == width && AllDigits(s)
  {
    if width == 0 then [] else ZeroPadded(n / 10, width - 1) + [DigitChar(n % 10)]
  }

  lemma {:induction false} DecimalValueOfZeroPadded(n: nat, width: nat)
    requires n < Pow10(width)
    ensures DecimalValue(ZeroPadded(n, width)) == n
  {
    if width > 0 {
      var s := ZeroPadded(n, width);
      assert s[..|s| - 1] == ZeroPadded(n / 10, width - 1);
      DecimalValueOfZeroPadded(n / 10, width - 1);
    }
  }

  lemma {:induction false} ZeroPaddedOfDecimalValue(s: string)
    requires AllDigits(s)
    ensures DecimalValue(s) < Pow10(|s|)
    ensures ZeroPadded(DecimalValue(s), |s|) == s
  {
    if s != [] {
      var prefix := s[..|s| - 1];
      ZeroPaddedOfDecimalValue(prefix);
      var n := DecimalValue(s);
      assert n / 10 == DecimalValue(prefix) && n % 10 == DigitValue(s[|s| - 1]);
      assert DigitChar(n % 10) == s[|s| - 1];
      assert s == prefix + [s[|s| - 1]];
    }
  }

  /** The digits of a number below 100, most significant first. */
  lemma TwoDigits(n: nat)
    requires n < 100
    ensures ZeroPadded(n, 2) == [DigitChar(n / 10), DigitChar(n % 10)]
  {
    assert Pow10(1) == 10 && Pow10(2) == 100;
    assert ZeroPadded(n / 10, 1) == ZeroPadded(n / 10 / 10, 0) + [DigitChar(n / 10 % 10)];
    assert n / 10 / 10 == 0 && n / 10 % 10 == n / 10;
  }

  /** The digits of a number below 10000, most significant first. */
  lemma FourDigits(n: nat)
    requires n < 10000
    ensures ZeroPadded(n, 4) == [DigitChar(n / 1000), DigitChar(n / 100 % 10), DigitChar(n / 10 % 10), DigitChar(n % 10)]
  {
    assert Pow10(3) == 1000 && Pow10(4) == 10000;
    var m := n / 100;
    assert n / 10 / 10 == m && m < 100;
    assert ZeroPadded(n, 4) == ZeroPadded(n / 10, 3) + [DigitChar(n % 10)];
    assert ZeroPadded(n / 10, 3) == ZeroPadded(m, 2) + [DigitChar(n / 10 % 10)];
    TwoDigits(m);
    assert m / 10 == n / 1000 && m % 10 == n / 100 % 10;
  }

  // ---------------------------------------------------------------------
  // Dates

  /** `YYYY-MM-DD` with ASCII digits. */
  predicate DateShaped(s: string) {
    |s| == 10 && AllDigits(s[..4]) && s[4] == '-' && AllDigits(s[5..7]) && s[7] == '-' && AllDigits(s[8..])
  }

  function DateFields(s: string): Date
    requires DateShaped(s)
  {
    Date(DecimalValue(s[..4]), DecimalValue(s[5..7]), DecimalValue(s[8..]))
  }

  /** `date.fromisoformat` on the `YYYY-MM-DD` form. */
  function ParseDate(s: string): (r: Result<Date, IsoError>)
    ensures r.Success? ==> ValidDate(r.value)
    ensures r.Failure? ==> r.error == (if DateShaped(s) then OutOfRange(s) else InvalidIsoFormat(s))
  {
    if !DateShaped(s) then Failure(InvalidIsoFormat(s))
    else
      var d := DateFields(s);
      if ValidDate(d) then Success(d) else Failure(OutOfRange(s))
  }

  /** `date.isoformat()`: four-digit year, two-digit month and day. */
  function FormatDate(d: Date): (s: string)
    requires ValidDate(d)
    ensures DateShaped(s)
  {
    assert Pow10(2) == 100 && Pow10(4) == 10000;
    ZeroPadded(d.year, 4) + "-" + ZeroPadded(d.month, 2) + "-" + ZeroPadded(d.day, 2)
  }

  /** Parsing what `isoformat()` wrote gives the date back. */
  lemma ParseFormatDate(d: Date)
    requires ValidDate(d)
    ensures ParseDate(FormatDate(d)) == Success(d)
  {
    var s := FormatDate(d);
    assert Pow10(2) == 100 && Pow10(4) == 10000;
    assert s[..4] == ZeroPadded(d.year, 4);
    assert s[5..7] == ZeroPadded(d.month, 2);
    assert s[8..] == ZeroPadded(d.day, 2);
    DecimalValueOfZeroPadded(d.year, 4);
    DecimalValueOfZeroPadded(d.month, 2);
    DecimalValueOfZeroPadded(d.day, 2);
  }

  /** A string the parser accepts is exactly what `isoformat()` writes for the
      parsed date: the strict form has one spelling per date. */
  lemma FormatParseDate(s: string)
    requires ParseDate(s).Success?
    ensures FormatDate(ParseDate(s).value) == s
  {
    DateStringFromFields(s);
  }

  lemma DateStringFromFields(s: string)
    requires DateShaped(s) && ValidDate(DateFields(s))
    ensures FormatDate(DateFields(s)) == s
  {
    var d := DateFields(s);
    ZeroPaddedOfDecimalValue(s[..4]);
    ZeroPaddedOfDecimalValue(s[5..7]);
    ZeroPaddedOfDecimalValue(s[8..]);
    assert s == s[..4] + "-" + s[5..7] + "-" + s[8..];
  }

  // ---------------------------------------------------------------------
  // Timestamps

  /** `YYYY-MM-DDTHH:MM` with ASCII digits. */
  predicate DateTimeShaped(s: string) {
    |s| == 16 && DateShaped(s[..10]) && s[10] == 'T' && AllDigits(s[11..13]) && s[13] == ':' && AllDigits(s[14..])
  }

  function DateTimeFields(s: string): DateTime
    requires DateTimeShaped(s)
  {
    DateTime(DateFields(s[..10]), DecimalValue(s[11..13]), DecimalValue(s[14..]))
  }

  /** `datetime.fromisoformat` on the `YYYY-MM-DDTHH:MM` form. */
  function ParseDateTime(s: string): (r: Result<DateTime, IsoError>)
    ensures r.Success? ==> ValidDateTime(r.value)
    ensures r.Failure? ==> r.error == (if DateTimeShaped(s) then OutOfRange(s) else InvalidIsoFormat(s))
  {
    if !DateTimeShaped(s) then Failure(InvalidIsoFormat(s))
    else
      var t := DateTimeFields(s);
      if ValidDateTime(t) then Success(t) else Failure(OutOfRange(s))
  }

  /** The canonical `YYYY-MM-DDTHH:MM` spelling of a timestamp: the writer
      the timestamp parser inverts. Python's `datetime.isoformat()` would add
      seconds; the service never formats a timestamp. */
  function FormatDateTime(t: DateTime): (s: string)
    requires ValidDateTime(t)
    ensures DateTimeShaped(s)
  {
    assert Pow10(2) == 100;
    var s := FormatDate(t.date) + "T" + ZeroPadded(t.hour, 2) + ":" + ZeroPadded(t.minute, 2);
    assert s[..10] == FormatDate(t.date);
    s
  }

  lemma ParseFormatDateTime(t: DateTime)
    requires ValidDateTime(t)
    ensures ParseDateTime(FormatDateTime(t)) == Success(t)
  {
    var s := FormatDateTime(t);
    assert Pow10(2) == 100;
    assert s[..10] == FormatDate(t.date);
    assert s[11..13] == ZeroPadded(t.hour, 2);
    assert s[14..] == ZeroPadded(t.minute, 2);
    ParseFormatDate(t.date);
    DecimalValueOfZeroPadded(t.hour, 2);
    DecimalValueOfZeroPadded(t.minute, 2);
  }

  lemma FormatParseDateTime(s: string)
    requires ParseDateTime(s).Success?
    ensures FormatDateTime(ParseDateTime(s).value) == s
  {
    DateStringFromFields(s[..10]);
    ZeroPaddedOfDecimalValue(s[11..13]);
    ZeroPaddedOfDecimalValue(s[14..]);
    assert s == s[..10] + "T" + s[11..13] + ":" + s[14..];
  }
}
