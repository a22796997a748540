/** The timestamp texts of the ana::pro-style printers: two-digit
    zero-padded fields and the two layouts the rows and file names use.
    The calendar fields (`year(t)`, `month(t)`, ...) come from the time
    library and are inputs here. */
module Anapro {
  import opened Text

  /** The calendar fields of one timestamp. */
  datatype CalendarTime = CalendarTime(year: int, month: int, day: int, hour: int, minute: int, second: int)
  {
    /** Every field after the year fits in two decimal digits. */
    predicate TwoDigitFields()
    {
      0 <= month <= 99 && 0 <= day <= 99 && 0 <= hour <= 99 && 0 <= minute <= 99 && 0 <= second <= 99
    }
  }

  /** `Str2Digit`: the decimal text with a "0" in front of any value below
      ten (negative values included). */
  function Str2Digit(value: int): (s: string)
    ensures |s| >= 2
    ensures s[0] == '0' <==> value < 10
    ensures 0 <= value <= 99 ==> |s| == 2 && IsDigits(s, 10) && DigitsValue(s, 10) == value
  {
    PaddedDecimal(value);
    (if value < 10 then "0" else "") + IntToDecimal(value)
  }

  lemma PaddedDecimal(value: int)
    ensures var s := (if value < 10 then "0" else "") + IntToDecimal(value);
      |s| >= 2 && (s[0] == '0' <==> value < 10) &&
      (0 <= value <= 99 ==> |s| == 2 && IsDigits(s, 10) && DigitsValue(s, 10) == value)
  {
    var digits := IntToDecimal(value);
    NatToStringLength(if value < 0 then -value else value, 10);
    if value >= 10 {
      LeadingDigitNonZero(value, 10);
    }
    if 0 <= value <= 99 {
      NatToStringRoundTrip(value, 10);
      if value < 10 {
        LeadingZeroValue(digits, 10);
      }
    }
  }

  /** `timeToStringDot`: `YYYY.MM.DD  hh:mm:ss`, two spaces between date
      and time. */
  function TimeToStringDot(t: CalendarTime): string
  {
    IntToDecimal(t.year) + "." + Str2Digit(t.month) + "." + Str2Digit(t.day) + "  "
      + Str2Digit(t.hour) + ":" + Str2Digit(t.minute) + ":" + Str2Digit(t.second)
  }

  /** `timeToStringDash`: `YYYY-MM-DD_hh-mm-ss`, usable in a file name. */
  function TimeToStringDash(t: CalendarTime): string
  {
    IntToDecimal(t.year) + "-" + Str2Digit(t.month) + "-" + Str2Digit(t.day) + "_"
      + Str2Digit(t.hour) + "-" + Str2Digit(t.minute) + "-" + Str2Digit(t.second)
  }

  /** The value of the two digits of `s` at `i`. */
  function FieldAt(s: string, i: nat): int
  {
    if i + 2 <= |s| && IsDigits(s[i..i + 2], 10) then DigitsValue(s[i..i + 2], 10) else -1
  }

  /** The dot layout: the year, then fixed separators at fixed offsets
      from it. */
  lemma DotLayout(t: CalendarTime)
    requires t.TwoDigitFields()
    ensures var s, y := TimeToStringDot(t), |IntToDecimal(t.year)|;
      |s| == y + 16 && s[..y] == IntToDecimal(t.year) &&
      s[y] == '.' && s[y + 3] == '.' && s[y + 6] == ' ' && s[y + 7] == ' ' && s[y + 10] == ':' && s[y + 13] == ':'
  {
    var mo, d, h, mi, se := Str2Digit(t.month), Str2Digit(t.day), Str2Digit(t.hour), Str2Digit(t.minute), Str2Digit(t.second);
    var y := IntToDecimal(t.year);
    assert TimeToStringDot(t) == y + "." + mo + "." + d + "  " + h + ":" + mi + ":" + se;
    DotStamp(TimeToStringDot(t), y, mo, d, h, mi, se);
  }

  /** Every field of the dot layout reads back from its two digits. */
  lemma DotFields(t: CalendarTime)
    requires t.TwoDigitFields()
    ensures var s, y := TimeToStringDot(t), |IntToDecimal(t.year)|;
      FieldAt(s, y + 1) == t.month && FieldAt(s, y + 4) == t.day && FieldAt(s, y + 8) == t.hour && FieldAt(s, y + 11) == t.minute && FieldAt(s, y + 14) == t.second
  {
    var mo, d, h, mi, se := Str2Digit(t.month), Str2Digit(t.day), Str2Digit(t.hour), Str2Digit(t.minute), Str2Digit(t.second);
    var s, y := TimeToStringDot(t), |IntToDecimal(t.year)|;
    Pieces(IntToDecimal(t.year), ".", mo, ".", d, "  ", h, ":", mi, ":", se);
    FieldValue(s, y + 1, t.month);
    FieldValue(s, y + 4, t.day);
    FieldValue(s, y + 8, t.hour);
    FieldValue(s, y + 11, t.minute);
    FieldValue(s, y + 14, t.second);
  }

  /** The dash layout, as `DotLayout`, one character shorter. */
  lemma DashLayout(t: CalendarTime)
    requires t.TwoDigitFields()
    ensures var s, y := TimeToStringDash(t), |IntToDecimal(t.year)|;
      |s| == y + 15 && s[..y] == IntToDecimal(t.year) &&
      s[y] == '-' && s[y + 3] == '-' && s[y + 6] == '_' && s[y + 9] == '-' && s[y + 12] == '-'
  {
    var mo, d, h, mi, se := Str2Digit(t.month), Str2Digit(t.day), Str2Digit(t.hour), Str2Digit(t.minute), Str2Digit(t.second);
    var y := IntToDecimal(t.year);
    assert TimeToStringDash(t) == y + "-" + mo + "-" + d + "_" + h + "-" + mi + "-" + se;
    DashStamp(TimeToStringDash(t), y, mo, d, h, mi, se);
  }

  /** Every field of the dash layout reads back from its two digits. */
  lemma DashFields(t: CalendarTime)
    requires t.TwoDigitFields()
    ensures var s, y := TimeToStringDash(t), |IntToDecimal(t.year)|;
      FieldAt(s, y + 1) == t.month && FieldAt(s, y + 4) == t.day && FieldAt(s, y + 7) == t.hour && FieldAt(s, y + 10) == t.minute && FieldAt(s, y + 13) == t.second
  {
    var mo, d, h, mi, se := Str2Digit(t.month), Str2Digit(t.day), Str2Digit(t.hour), Str2Digit(t.minute), Str2Digit(t.second);
    var s, y := TimeToStringDash(t), |IntToDecimal(t.year)|;
    Pieces(IntToDecimal(t.year), "-", mo, "-", d, "_", h, "-", mi, "-", se);
    FieldValue(s, y + 1, t.month);
    FieldValue(s, y + 4, t.day);
    FieldValue(s, y + 7, t.hour);
    FieldValue(s, y + 10, t.minute);
    FieldValue(s, y + 13, t.second);
  }

  /** Where the separators of the dot layout land, for any two-character
      fields. */
  lemma DotStamp(s: string, y: string, mo: string, d: string, h: string, mi: string, se: string)
    requires |mo| == 2 && |d| == 2 && |h| == 2 && |mi| == 2 && |se| == 2
    requires s == y + "." + mo + "." + d + "  " + h + ":" + mi + ":" + se
    ensures var n := |y|;
      |s| == n + 16 && s[..n] == y &&
      s[n] == '.' && s[n + 3] == '.' && s[n + 6] == ' ' && s[n + 7] == ' ' && s[n + 10] == ':' && s[n + 13] == ':'
  {
  }

  /** Where the separators of the dash layout land, for any two-character
      fields. */
  lemma DashStamp(s: string, y: string, mo: string, d: string, h: string, mi: string, se: string)
    requires |mo| == 2 && |d| == 2 && |h| == 2 && |mi| == 2 && |se| == 2
    requires s == y + "-" + mo + "-" + d + "_" + h + "-" + mi + "-" + se
    ensures var n := |y|;
      |s| == n + 15 && s[..n] == y &&
      s[n] == '-' && s[n + 3] == '-' && s[n + 6] == '_' && s[n + 9] == '-' && s[n + 12] == '-'
  {
  }

  /** A padded field of 0 to 99 reads back as its value. */
  lemma FieldValue(s: string, i: nat, v: int)
    requires 0 <= v <= 99 && i + 2 <= |s| && s[i..i + 2] == Str2Digit(v)
    ensures FieldAt(s, i) == v
  {
  }

  /** Where each piece of `y + s1 + f1 + ... + s5 + f5` lands, for
      two-character fields. */
  lemma Pieces(y: string, s1: string, f1: string, s2: string, f2: string, s3: string, f3: string,
               s4: string, f4: string, s5: string, f5: string)
    requires |f1| == 2 && |f2| == 2 && |f3| == 2 && |f4| == 2 && |f5| == 2
    ensures var s := y + s1 + f1 + s2 + f2 + s3 + f3 + s4 + f4 + s5 + f5;
      var o1 := |y| + |s1|;
      var o2 := o1 + 2 + |s2|;
      var o3 := o2 + 2 + |s3|;
      var o4 := o3 + 2 + |s4|;
      var o5 := o4 + 2 + |s5|;
      |s| == o5 + 2 && s[..|y|] == y && s[|y|..o1] == s1 && s[o1..o1 + 2] == f1 &&
      s[o1 + 2..o2] == s2 && s[o2..o2 + 2] == f2 && s[o2 + 2..o3] == s3 && s[o3..o3 + 2] == f3 &&
      s[o3 + 2..o4] == s4 && s[o4..o4 + 2] == f4 && s[o4 + 2..o5] == s5 && s[o5..o5 + 2] == f5
  {
  }

  /** Both layouts carry the same two-digit fields, each in its own place. */
  lemma DotDashSameFields(t: CalendarTime)
    requires t.TwoDigitFields()
    ensures var dot, dash, y := TimeToStringDot(t), TimeToStringDash(t), |IntToDecimal(t.year)|;
      dot[..y] == dash[..y] &&
      FieldAt(dot, y + 1) == FieldAt(dash, y + 1) && FieldAt(dot, y + 4) == FieldAt(dash, y + 4) &&
      FieldAt(dot, y + 8) == FieldAt(dash, y + 7) && FieldAt(dot, y + 11) == FieldAt(dash, y + 10) &&
      FieldAt(dot, y + 14) == FieldAt(dash, y + 13)
  {
    DotLayout(t);
    DashLayout(t);
    DotFields(t);
    DashFields(t);
  }

  /** The dash layout never contains a ':' or a space, whatever the fields. */
  lemma DashHasNoColonOrSpace(t: CalendarTime)
    ensures ':' !in TimeToStringDash(t) && ' ' !in TimeToStringDash(t)
  {
    var mo, d, h, mi, se := Str2Digit(t.month), Str2Digit(t.day), Str2Digit(t.hour), Str2Digit(t.minute), Str2Digit(t.second);
    IntToDecimalChars(t.year);
    Str2DigitChars(t.month);
    Str2DigitChars(t.day);
    Str2DigitChars(t.hour);
    Str2DigitChars(t.minute);
    Str2DigitChars(t.second);
    PieceChars(IntToDecimal(t.year), "-", mo, "-", d, "_", h, "-", mi, "-", se, ':');
    PieceChars(IntToDecimal(t.year), "-", mo, "-", d, "_", h, "-", mi, "-", se, ' ');
  }

  /** A character of `y + s1 + f1 + ... + s5 + f5` is a character of one
      of its pieces. */
  lemma PieceChars(y: string, s1: string, f1: string, s2: string, f2: string, s3: string, f3: string,
                   s4: string, f4: string, s5: string, f5: string, c: char)
    requires c !in y && c !in s1 && c !in f1 && c !in s2 && c !in f2 && c !in s3 && c !in f3
    requires c !in s4 && c !in f4 && c !in s5 && c !in f5
    ensures c !in y + s1 + f1 + s2 + f2 + s3 + f3 + s4 + f4 + s5 + f5
  {
  }

  /** The characters of a padded field: digits and the minus sign. */
  lemma Str2DigitChars(value: int)
    ensures forall c :: c in Str2Digit(value) ==> c == '-' || '0' <= c <= '9'
    ensures ':' !in Str2Digit(value) && ' ' !in Str2Digit(value)
  {
    IntToDecimalChars(value);
  }
}
