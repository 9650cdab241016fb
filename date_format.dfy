/**
 * The text layout of `format_date`, taken from the point where the
 * timestamp has been parsed into calendar fields: a month abbreviation, the
 * day, the year and a zero-padded 12-hour clock with an AM/PM suffix, as
 * in "Jan. 1, 2024 08:00AM".
 */
module DateFormat {

  predicate IsDigits(s: string) {
    forall i :: 0 <= i < |s| ==> '0' <= s[i] <= '9'
  }

  function DigitChar(d: nat): (c: char)
    requires d < 10
    ensures '0' <= c <= '9'
  {
    ('0' as int + d) as char
  }

  /** The number a string of decimal digits spells, most significant digit first. */
  function DigitsValue(s: string): nat
    requires IsDigits(s)
  {
    if s == [] then 0 else DigitsValue(s[..|s| - 1]) * 10 + (s[|s| - 1] as int - '0' as int)
  }

  /** `{}` of a non-negative integer: its decimal digits, without leading zeros. */
  function Decimal(n: nat): (s: string)
    ensures 1 <= |s| && IsDigits(s)
    ensures n == 0 || s[0] != '0'
    ensures n < 10 <==> |s| == 1
    ensures 10 <= n < 100 <==> |s| == 2
  {
    if n < 10 then [DigitChar(n)] else Decimal(n / 10) + [DigitChar(n % 10)]
  }

  /** The decimal text of a number reads back as that number. */
  lemma {:induction false} DecimalReadsBack(n: nat)
    ensures DigitsValue(Decimal(n)) == n
  {
    if n >= 10 {
      DecimalReadsBack(n / 10);
      var s := Decimal(n);
      assert s[..|s| - 1] == Decimal(n / 10);
    }
  }

  /**
   * `{}` of a signed integer (the year): a '-' exactly for a negative
   * number, then the digits of its magnitude without leading zeros.
   */
  function SignedDecimal(n: int): (s: string)
    ensures 1 <= |s|
    ensures n < 0 <==> s[0] == '-'
    ensures n < 0 ==> 2 <= |s| && IsDigits(s[1..]) && DigitsValue(s[1..]) == -n && s[1] != '0'
    ensures n >= 0 ==> IsDigits(s) && DigitsValue(s) == n && (n == 0 || s[0] != '0')
  {
    if n < 0 then
      DecimalReadsBack(-n);
      var s := "-" + Decimal(-n);
      assert s[1..] == Decimal(-n);
      s
    else
      DecimalReadsBack(n);
      Decimal(n)
  }

  /** `{:02}` of a number below 100: exactly two digits, zero-padded, that read back as the number. */
  function Pad2(n: nat): (s: string)
    requires n < 100
    ensures |s| == 2 && IsDigits(s) && DigitsValue(s) == n
  {
    DecimalReadsBack(n);
    if n < 10 then
      var s := "0" + Decimal(n);
      assert s[..1] == "0";
      s
    else Decimal(n)
  }

  /** The month abbreviations: a dot after each, except May; September is "Sept.". */
  function MonthLabel(month: int): (abbrev: string)
    requires 1 <= month <= 12
    ensures 3 <= |abbrev| <= 5
    ensures abbrev[|abbrev| - 1] == '.' <==> month != 5
  {
    match month
    case 1 => "Jan."
    case 2 => "Feb."
    case 3 => "Mar."
    case 4 => "Apr."
    case 5 => "May"
    case 6 => "Jun."
    case 7 => "Jul."
    case 8 => "Aug."
    case 9 => "Sept."
    case 10 => "Oct."
    case 11 => "Nov."
    case _ => "Dec."
  }

  /** No two months share a label. */
  lemma MonthLabelsDistinct(m: int, n: int)
    requires 1 <= m <= 12 && 1 <= n <= 12 && m != n
    ensures MonthLabel(m) != MonthLabel(n)
  {
  }

  /** The 12-hour clock reading of a 24-hour `hour`: midnight and noon show as 12. */
  function HourDisplay(hour: int): (h: int)
    requires 0 <= hour <= 23
    ensures 1 <= h <= 12
  {
    if hour >= 12 then (if hour > 12 then hour - 12 else 12)
    else (if hour == 0 then 12 else hour)
  }

  function Period(hour: int): (p: string)
    requires 0 <= hour <= 23
    ensures p == "PM" <==> hour >= 12
    ensures p == "AM" <==> hour < 12
  {
    if hour >= 12 then "PM" else "AM"
  }

  /** Reading a 12-hour clock back as a 24-hour hour. */
  function To24Hour(h: int, pm: bool): int {
    if pm then (if h == 12 then 12 else h + 12)
    else (if h == 12 then 0 else h)
  }

  /** The 12-hour reading and its period determine the hour. */
  lemma TwelveHourClockReadsBack(hour: int)
    requires 0 <= hour <= 23
    ensures To24Hour(HourDisplay(hour), Period(hour) == "PM") == hour
  {
  }

  /** "hh:mmAM" or "hh:mmPM": the padded 12-hour reading at 0..2, a colon at 2, the padded minute at 3..5, the period at 5..7. */
  function TimeText(hour: int, minute: int): (s: string)
    requires 0 <= hour <= 23 && 0 <= minute <= 59
    ensures |s| == 7
    ensures s[..2] == Pad2(HourDisplay(hour)) && s[2] == ':' && s[3..5] == Pad2(minute) && s[5..] == Period(hour)
  {
    var s := Pad2(HourDisplay(hour)) + ":" + Pad2(minute) + Period(hour);
    assert s[..2] == Pad2(HourDisplay(hour));
    assert s[3..5] == Pad2(minute);
    assert s[5..] == Period(hour);
    s
  }

  /**
   * "<month> <day>, <year> <hh>:<mm><AM|PM>": the month label and a space
   * open the text, a space and the seven-character clock close it, and the
   * day, ", " and the year fill the middle.
   */
  function FormatDate(month: int, day: nat, year: int, hour: int, minute: int): (s: string)
    requires 1 <= month <= 12 && 0 <= hour <= 23 && 0 <= minute <= 59
    ensures |s| == |MonthLabel(month)| + 1 + |Decimal(day)| + 2 + |SignedDecimal(year)| + 1 + 7
    ensures s[..|MonthLabel(month)| + 1] == MonthLabel(month) + " "
    ensures s[|MonthLabel(month)| + 1..|s| - 7] == Decimal(day) + ", " + SignedDecimal(year) + " "
    ensures s[|s| - 7..] == TimeText(hour, minute)
  {
    var prefix := MonthLabel(month) + " ";
    var middle := Decimal(day) + ", " + SignedDecimal(year) + " ";
    var time := TimeText(hour, minute);
    ThreePartsReadBack(prefix, middle, time);
    prefix + middle + time
  }

  /** Each part of a three-part text sits at its own offsets. */
  lemma ThreePartsReadBack(a: string, b: string, c: string)
    ensures var s := a + b + c;
      && s[..|a|] == a && s[|a|..|a| + |b|] == b && s[|a| + |b|..] == c
  {
    var s := a + b + c;
    assert s[..|a|] == a;
    assert s[|a|..|a| + |b|] == b;
    assert s[|a| + |b|..] == c;
  }

  /** The clock text reads back: two digits of the 12-hour reading, a colon, two digits of the minute, the period. */
  lemma TimeTextReadsBack(hour: int, minute: int)
    requires 0 <= hour <= 23 && 0 <= minute <= 59
    ensures var t := TimeText(hour, minute);
      && IsDigits(t[..2]) && DigitsValue(t[..2]) == HourDisplay(hour)
      && t[2] == ':'
      && IsDigits(t[3..5]) && DigitsValue(t[3..5]) == minute
      && t[5..] == Period(hour)
  {
  }

  /**
   * The formatted text reads back: it starts with the month's label and a
   * space, and its last seven characters are two digits giving the 12-hour
   * clock, a colon, two digits giving the minute, and AM or PM, from which
   * the 24-hour hour is recovered.
   */
  lemma FormatDateReadsBack(month: int, day: nat, year: int, hour: int, minute: int)
    requires 1 <= month <= 12 && 0 <= hour <= 23 && 0 <= minute <= 59
    ensures var s := FormatDate(month, day, year, hour, minute);
      var t := s[|s| - 7..];
      && s[..|MonthLabel(month)| + 1] == MonthLabel(month) + " "
      && IsDigits(t[..2]) && 1 <= DigitsValue(t[..2]) <= 12
      && t[2] == ':'
      && IsDigits(t[3..5]) && DigitsValue(t[3..5]) == minute
      && (t[5..] == "PM" <==> hour >= 12)
      && (t[5..] == "AM" <==> hour < 12)
      && To24Hour(DigitsValue(t[..2]), t[5..] == "PM") == hour
  {
    TimeTextReadsBack(hour, minute);
    TwelveHourClockReadsBack(hour);
  }

  /**
   * The day at the head of the middle text that `FormatDate` places between
   * the month label and the clock: digits without a leading zero that read
   * back as the day and hold no comma, so the first comma ends them; then
   * ", ", and a space closing the middle text.
   */
  lemma FormatDateDay(day: nat, year: int, m: string)
    requires m == Decimal(day) + ", " + SignedDecimal(year) + " "
    ensures var k := |Decimal(day)|;
      && 1 <= k && k + 4 <= |m|
      && IsDigits(m[..k]) && DigitsValue(m[..k]) == day && (day == 0 || m[0] != '0')
      && (forall j :: 0 <= j < k ==> m[j] != ',')
      && m[k..k + 2] == ", "
      && m[|m| - 1] == ' '
  {
    DayPart(m, Decimal(day), SignedDecimal(year));
    DecimalReadsBack(day);
  }

  /**
   * The year in the same middle text: everything after the day and ", ",
   * up to the closing space, is the year's text, whose sign and digits
   * `SignedDecimal` reads back.
   */
  lemma FormatDateYear(day: nat, year: int, m: string)
    requires m == Decimal(day) + ", " + SignedDecimal(year) + " "
    ensures var k := |Decimal(day)|;
      && k + 4 <= |m|
      && m[k + 2..|m| - 1] == SignedDecimal(year)
      && (year < 0 <==> m[k + 2] == '-')
  {
    YearPart(m, Decimal(day), SignedDecimal(year));
  }

  /** In "<d>, <y> ": the digits `d` first, which hold no comma, then ", ", and a space last. */
  lemma DayPart(m: string, d: string, y: string)
    requires m == d + ", " + y + " " && IsDigits(d)
    ensures |m| == |d| + |y| + 3
    ensures m[..|d|] == d && m[|d|..|d| + 2] == ", " && m[|m| - 1] == ' '
    ensures forall j :: 0 <= j < |d| ==> m[j] != ','
  {
    assert forall j :: 0 <= j < |d| ==> m[j] == d[j];
    assert m[..|d|] == d;
    assert m[|d|..|d| + 2] == ", ";
  }

  /** In "<d>, <y> ": the year text `y` between the separator and the closing space. */
  lemma YearPart(m: string, d: string, y: string)
    requires m == d + ", " + y + " " && 1 <= |y|
    ensures m[|d| + 2..|m| - 1] == y && m[|d| + 2] == y[0] && m[|d| + 3..|m| - 1] == y[1..]
  {
    assert m[|d| + 2..|m| - 1] == y;
    assert m[|d| + 3..|m| - 1] == y[1..];
  }
}
