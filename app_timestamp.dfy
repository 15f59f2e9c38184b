/** The timestamp the application writes into each uploaded record (App.tsx),
    and how the dashboard reads it back (components/Dashboard.tsx). */
module AppTimestamp {
  import opened JsRuntime
  import opened JsDates
  import opened LogValues

  /** `formatAppTimestamp(date)`: `dd/mm/yy hh:mm:ss` from the date's getters
      (the month one-based, the year cut to its last two characters). */
  function FormatAppTimestamp(date: DateTime): string
  {
    var d := Pad2(date.day);
    var m := Pad2(date.month + 1);
    var y := SliceFromEnd(IntToString(date.year), 2);
    var h := Pad2(date.hour);
    var min := Pad2(date.minute);
    var s := Pad2(date.second);
    Joined(d, m, y, h, min, s)
  }

  /** Two characters, both decimal digits. */
  predicate TwoDigits(s: string)
  {
    |s| == 2 && AllDigits(s)
  }

  /** Six two-digit strings spelling the day, the one-based month, the last two
      digits of the year, the hour, the minute and the second of `date`. */
  predicate Spells(d: string, m: string, y: string, h: string, min: string, s: string, date: DateTime)
  {
    TwoDigits(d) && TwoDigits(m) && TwoDigits(y) && TwoDigits(h) && TwoDigits(min) && TwoDigits(s)
    && DigitsValue(d) == date.day && DigitsValue(m) == date.month + 1 && DigitsValue(y) == date.year % 100
    && DigitsValue(h) == date.hour && DigitsValue(min) == date.minute && DigitsValue(s) == date.second
  }

  /** The pieces of a formatted timestamp: each field a two-digit string with the
      value of the date component it comes from. */
  lemma {:induction false} FormattedFields(date: DateTime)
    requires IsCalendarDate(date) && date.year >= 10
    ensures Spells(Pad2(date.day), Pad2(date.month + 1), SliceFromEnd(IntToString(date.year), 2),
                   Pad2(date.hour), Pad2(date.minute), Pad2(date.second), date)
  {
    Pad2OfSmall(date.day);
    Pad2OfSmall(date.month + 1);
    LastTwoDigits(date.year);
    Pad2OfSmall(date.hour);
    Pad2OfSmall(date.minute);
    Pad2OfSmall(date.second);
  }

  /** Six two-digit fields joined by the separators of the format. */
  function Joined(d: string, m: string, y: string, h: string, min: string, s: string): (r: string)
    ensures |r| == |d| + |m| + |y| + |h| + |min| + |s| + 5
  {
    d + "/" + m + "/" + y + " " + h + ":" + min + ":" + s
  }

  /** `dd/mm/yy hh:mm:ss`: seventeen characters with the separators at fixed places. */
  predicate Separators(r: string)
  {
    |r| == 17 && r[2] == '/' && r[5] == '/' && r[8] == ' ' && r[11] == ':' && r[14] == ':'
  }

  /** The two characters at `i` are digits reading as `v`. */
  predicate FieldAt(r: string, i: nat, v: int)
  {
    i + 2 <= |r| && AllDigits(r[i..i + 2]) && DigitsValue(r[i..i + 2]) == v
  }

  lemma {:induction false} JoinedLayout(d: string, m: string, y: string, h: string, min: string, s: string,
                                        date: DateTime)
    requires Spells(d, m, y, h, min, s, date)
    ensures var r := Joined(d, m, y, h, min, s);
      Separators(r) && FieldAt(r, 0, date.day) && FieldAt(r, 3, date.month + 1) && FieldAt(r, 6, date.year % 100)
      && FieldAt(r, 9, date.hour) && FieldAt(r, 12, date.minute) && FieldAt(r, 15, date.second)
  {
    var r := Joined(d, m, y, h, min, s);
    assert r[0..2] == d && r[3..5] == m && r[6..8] == y && r[9..11] == h && r[12..14] == min && r[15..17] == s;
  }

  /** `formatAppTimestamp` is the format applied to the date's padded fields. */
  lemma {:induction false} FormatIsJoined(date: DateTime)
    ensures FormatAppTimestamp(date) == Joined(Pad2(date.day), Pad2(date.month + 1),
      SliceFromEnd(IntToString(date.year), 2), Pad2(date.hour), Pad2(date.minute), Pad2(date.second))
  {
  }

  /** The format, field by field: every field zero-padded to two digits, the
      year being the last two digits of the full year. */
  lemma {:induction false} FormatLayout(date: DateTime)
    requires IsCalendarDate(date) && date.year >= 10
    ensures var r := FormatAppTimestamp(date);
      Separators(r) && FieldAt(r, 0, date.day) && FieldAt(r, 3, date.month + 1) && FieldAt(r, 6, date.year % 100)
      && FieldAt(r, 9, date.hour) && FieldAt(r, 12, date.minute) && FieldAt(r, 15, date.second)
  {
    FormattedFields(date);
    FormatIsJoined(date);
    JoinedLayout(Pad2(date.day), Pad2(date.month + 1), SliceFromEnd(IntToString(date.year), 2),
                 Pad2(date.hour), Pad2(date.minute), Pad2(date.second), date);
  }

  // ---------------------------------------------------------------------------
  // Reading a formatted timestamp back with `parseLogDate`

  /** A string of digits, separators and spaces holds no line terminator. */
  lemma {:induction false} NoLineTerminatorJoin(a: string, b: string)
    requires NoLineTerminator(a) && NoLineTerminator(b)
    ensures NoLineTerminator(a + b)
  {
    forall i | 0 <= i < |a + b| ensures !IsLineTerminator((a + b)[i]) {
      if i >= |a| {
        assert (a + b)[i] == b[i - |a|];
      }
    }
  }

  /** The part after the year: a space and `hh:mm:ss`. */
  function TimeText(h: string, min: string, s: string): string
  {
    " " + h + ":" + min + ":" + s
  }

  lemma {:induction false} TimeTextHasNoLineTerminator(h: string, min: string, s: string)
    requires TwoDigits(h) && TwoDigits(min) && TwoDigits(s)
    ensures NoLineTerminator(TimeText(h, min, s)) && TimeText(h, min, s)[0] == ' '
  {
    NoLineTerminatorJoin(" ", h);
    NoLineTerminatorJoin(" " + h, ":");
    NoLineTerminatorJoin(" " + h + ":", min);
    NoLineTerminatorJoin(" " + h + ":" + min, ":");
    NoLineTerminatorJoin(" " + h + ":" + min + ":", s);
  }

  /** A formatted timestamp is a match of the day-first pattern, with the time
      part as its last group, and `trim` leaves it as it is. */
  lemma {:induction false} JoinedIsMatch(d: string, m: string, y: string, h: string, min: string, s: string)
    requires TwoDigits(d) && TwoDigits(m) && TwoDigits(y) && TwoDigits(h) && TwoDigits(min) && TwoDigits(s)
    ensures Joined(d, m, y, h, min, s) != ""
    ensures IsDayFirstMatch(Trim(Joined(d, m, y, h, min, s)), DayFirstGroups(d, m, y, TimeText(h, min, s)))
  {
    var rest := TimeText(h, min, s);
    TimeTextHasNoLineTerminator(h, min, s);
    var r := Joined(d, m, y, h, min, s);
    assert r == d + ("/" + (m + ("/" + (y + rest))));
    assert r[0] == d[0] && r[|r| - 1] == s[1];
    TrimKeeps(r);
  }

  /** `trim` drops one leading space in front of a string with no space at either end. */
  lemma {:induction false} TrimLeadingSpace(t: string)
    requires t != [] && !IsJsWhitespace(t[0]) && !IsJsWhitespace(t[|t| - 1])
    ensures Trim(" " + t) == t
  {
    assert (" " + t)[1..] == t;
    assert TrimStart(" " + t) == t;
  }

  /** `trim` drops the leading space of the time part. */
  lemma {:induction false} TrimTimeText(h: string, min: string, s: string)
    requires TwoDigits(h) && TwoDigits(min) && TwoDigits(s)
    ensures Trim(TimeText(h, min, s)) == h + ":" + min + ":" + s
  {
    var t := h + ":" + min + ":" + s;
    assert TimeText(h, min, s) == " " + t;
    assert t[0] == h[0] && t[|t| - 1] == s[1];
    TrimLeadingSpace(t);
  }

  /** `hh:mm:ss` splits at its two colons. */
  lemma {:induction false} SplitTime(h: string, min: string, s: string)
    requires TwoDigits(h) && TwoDigits(min) && TwoDigits(s)
    ensures Split(h + ":" + min + ":" + s, ':') == [h, min, s]
  {
    var u := min + ":" + s;
    assert h + ":" + min + ":" + s == h + [':'] + u;
    assert u == min + [':'] + s;
    SplitAtFirstSeparator(h, u, ':');
    SplitAtFirstSeparator(min, s, ':');
    SplitWithoutSeparator(s, ':');
  }

  /** `parseInt(part) || 0` of the three parts of `hh:mm:ss` gives their values. */
  lemma {:induction false} TimePartsOfText(h: string, min: string, s: string)
    requires TwoDigits(h) && TwoDigits(min) && TwoDigits(s)
    ensures TimeParts(Trim(TimeText(h, min, s))) == (DigitsValue(h), DigitsValue(min), DigitsValue(s))
  {
    TrimTimeText(h, min, s);
    SplitTime(h, min, s);
    ParseIntOfDigits(h);
    ParseIntOfDigits(min);
    ParseIntOfDigits(s);
  }

  /** The groups of a formatted timestamp denote the date they spell, the
      two-digit year taken to be in the 2000s. */
  lemma {:induction false} DateOfTimestampGroups(d: string, m: string, y: string, h: string, min: string, s: string,
                                                 date: DateTime)
    requires Spells(d, m, y, h, min, s, date)
    ensures DateOfGroups(DayFirstGroups(d, m, y, TimeText(h, min, s)))
         == DateTime(2000 + date.year % 100, date.month, date.day, date.hour, date.minute, date.second)
  {
    TimePartsOfText(h, min, s);
    DigitPairValue(y);
  }

  /** A formatted timestamp is read from its groups. */
  lemma {:induction false} ParseJoinedGroups(d: string, m: string, y: string, h: string, min: string, s: string,
                                             fallback: DateFallback)
    requires TwoDigits(d) && TwoDigits(m) && TwoDigits(y) && TwoDigits(h) && TwoDigits(min) && TwoDigits(s)
    ensures ParseLogDate(Str(Joined(d, m, y, h, min, s)), fallback)
         == Some(DateOfGroups(DayFirstGroups(d, m, y, TimeText(h, min, s))))
  {
    JoinedIsMatch(d, m, y, h, min, s);
    ParseLogDateOfString(Joined(d, m, y, h, min, s), fallback, DayFirstGroups(d, m, y, TimeText(h, min, s)));
  }

  /** Six two-digit fields in the format read back as the date they spell. */
  lemma {:induction false} ParseJoined(d: string, m: string, y: string, h: string, min: string, s: string,
                                       date: DateTime, fallback: DateFallback)
    requires Spells(d, m, y, h, min, s, date)
    ensures ParseLogDate(Str(Joined(d, m, y, h, min, s)), fallback)
         == Some(DateTime(2000 + date.year % 100, date.month, date.day, date.hour, date.minute, date.second))
  {
    ParseJoinedGroups(d, m, y, h, min, s, fallback);
    DateOfTimestampGroups(d, m, y, h, min, s, date);
  }

  /** The date the dashboard reads from a timestamp the application wrote: day,
      month, hour, minute and second come back unchanged, the year comes back as
      the year of the 2000s with the same last two digits. */
  lemma {:induction false} FormatThenParse(date: DateTime, fallback: DateFallback)
    requires IsCalendarDate(date) && date.year >= 10
    ensures ParseLogDate(Str(FormatAppTimestamp(date)), fallback)
         == Some(DateTime(2000 + date.year % 100, date.month, date.day, date.hour, date.minute, date.second))
  {
    FormattedFields(date);
    FormatIsJoined(date);
    ParseJoined(Pad2(date.day), Pad2(date.month + 1), SliceFromEnd(IntToString(date.year), 2),
                Pad2(date.hour), Pad2(date.minute), Pad2(date.second), date, fallback);
  }

  /** The round trip is exact precisely for the years 2000 to 2099. */
  lemma {:induction false} RoundTripExactlyThisCentury(date: DateTime, fallback: DateFallback)
    requires IsCalendarDate(date) && date.year >= 10
    ensures ParseLogDate(Str(FormatAppTimestamp(date)), fallback) == Some(date) <==> 2000 <= date.year <= 2099
  {
    FormatThenParse(date, fallback);
    CenturyOfTwoDigitYear(date);
  }

  /** Replacing the century by 20 keeps a date exactly when it is in 2000-2099. */
  lemma {:induction false} CenturyOfTwoDigitYear(date: DateTime)
    ensures DateTime(2000 + date.year % 100, date.month, date.day, date.hour, date.minute, date.second) == date
        <==> 2000 <= date.year <= 2099
  {
  }

  /** A day-first timestamp with a two-digit year: "05/03/24 14:30:05" is
      5 March 2024, 14:30:05 (month index 2). */
  lemma {:induction false} DayFirstExample(fallback: DateFallback)
    ensures ParseLogDate(Str("05/03/24 14:30:05"), fallback) == Some(DateTime(2024, 2, 5, 14, 30, 5))
  {
    assert "05/03/24 14:30:05" == Joined("05", "03", "24", "14", "30", "05");
    DigitPairValue("05");
    DigitPairValue("03");
    DigitPairValue("24");
    DigitPairValue("14");
    DigitPairValue("30");
    ParseJoined("05", "03", "24", "14", "30", "05", DateTime(2024, 2, 5, 14, 30, 5), fallback);
  }
}
