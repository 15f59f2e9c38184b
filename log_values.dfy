/** How the dashboard reads a measurement record (components/Dashboard.tsx):
    `parseNumericValue`, `getLogValue`, `parseLogDate`, and the alias chains
    through which it finds a record's product, structure, machine and time. */
module LogValues {
  import opened JsRuntime
  import opened JsDates
  import opened Types
  import opened JsArrays

  // ---------------------------------------------------------------------------
  // Alias chains: `log.productName || log["Sản phẩm"] || log["ProductName"]` and the like

  function ProductNameValue(log: LogEntry): JsValue
  {
    Or(Or(Get(log, "productName"), Get(log, "Sản phẩm")), Get(log, "ProductName"))
  }

  function StructureValue(log: LogEntry): JsValue
  {
    Or(Or(Get(log, "structure"), Get(log, "Cấu trúc")), Get(log, "Structure"))
  }

  function MachineIdValue(log: LogEntry): JsValue
  {
    Or(Or(Or(Get(log, "machineId"), Get(log, "MachineID")), Get(log, "Máy")), Get(log, "machine_id"))
  }

  function TimestampValue(log: LogEntry): JsValue
  {
    Or(Or(Get(log, "timestamp"), Get(log, "Timestamp")), Get(log, "Thời gian"))
  }

  // ---------------------------------------------------------------------------
  // parseNumericValue

  /** `s.replace(',', '.')`: only the first comma. */
  function ReplaceFirstComma(s: string): (r: string)
    ensures |r| == |s|
    ensures ',' !in s ==> r == s
  {
    if s == [] then []
    else if s[0] == ',' then ['.'] + s[1..]
    else [s[0]] + ReplaceFirstComma(s[1..])
  }

  /** The first comma becomes a dot; everything before and after it stays. */
  lemma {:induction false} ReplaceFirstCommaAt(s: string, i: nat)
    requires i < |s| && s[i] == ',' && ',' !in s[..i]
    ensures ReplaceFirstComma(s) == s[..i] + "." + s[i + 1..]
  {
    if i > 0 {
      assert s[0] == s[..i][0];
      assert s[1..][..i - 1] == s[1..i];
      assert s[1..i] == s[..i][1..];
      ReplaceFirstCommaAt(s[1..], i - 1);
      assert s[1..][i..] == s[i + 1..];
      assert [s[0]] + s[1..i] == s[..i];
    }
  }

  /** `s.replace(/[^-0-9.]/g, '')`: the characters `-`, `.` and `0`-`9`, in order. */
  function KeepNumberChars(s: string): (r: string)
    ensures NumberAlphabet(r)
    ensures |r| <= |s|
  {
    if s == [] then []
    else if IsNumberChar(s[0]) then [s[0]] + KeepNumberChars(s[1..])
    else KeepNumberChars(s[1..])
  }

  /** The kept characters are exactly the number characters of `s`, in their order. */
  lemma {:induction false} KeepNumberCharsIsFilter(s: string)
    ensures KeepNumberChars(s) == Filter(s, IsNumberChar)
  {
    if s != [] {
      KeepNumberCharsIsFilter(s[1..]);
      FilterCons(s[0], s[1..], IsNumberChar);
      assert [s[0]] + s[1..] == s;
    }
  }

  /** The string parseNumericValue hands to parseFloat. */
  function NumericText(v: JsValue): string
  {
    KeepNumberChars(ReplaceFirstComma(Trim(ToJsString(v))))
  }

  predicate IsBlank(v: JsValue)
  {
    v == Undefined || v == Null || v == Str("")
  }

  /** Coerces a record value to a number: blanks are 0, a number is kept as it is
      (NaN included), anything else is read from its string form and is never NaN
      (an unparsable string is 0). */
  function ParseNumericValue(v: JsValue): (r: Number)
    ensures IsBlank(v) ==> r == Num(0.0)
    ensures v.Numeric? ==> r == v.n
    ensures !v.Numeric? ==> r.Num?
  {
    if IsBlank(v) then Num(0.0)
    else if v.Numeric? then v.n
    else
      match ParseFloat(NumericText(v))
      case NaN => Num(0.0)
      case Num(x) => Num(x)
  }

  /** A string is read as the longest decimal literal its cleaned text starts
      with, and as 0 when that text starts with none. */
  lemma {:induction false} ParseNumericValueOfString(s: string)
    requires s != ""
    ensures var t := NumericText(Str(s));
      var n := DecimalPrefixLength(t);
      (forall m :: n < m <= |t| ==> !IsDecimalLiteral(t[..m])) &&
      (n == 0 ==> ParseNumericValue(Str(s)) == Num(0.0)) &&
      (n > 0 ==> IsDecimalLiteral(t[..n]) && ParseNumericValue(Str(s)) == Num(LiteralValue(t[..n])))
  {
    ParseFloatTakesLongestPrefix(NumericText(Str(s)));
  }

  lemma {:induction false} TrimKeeps(s: string)
    requires s != [] && !IsJsWhitespace(s[0]) && !IsJsWhitespace(s[|s| - 1])
    ensures Trim(s) == s
  {
    assert TrimStart(s) == s;
  }

  // Evaluation steps of `DecimalCommaExample`, one cleaning step each.

  /** Step 1 of "12,5 kg": trimming keeps it. */
  lemma {:induction false} TrimExample()
    ensures Trim("12,5 kg") == "12,5 kg"
  {
    var s := "12,5 kg";
    assert s[0] == '1' && s[|s| - 1] == 'g';
    TrimKeeps(s);
  }

  /** Step 2: its one comma becomes a dot. */
  lemma {:induction false} ReplaceCommaExample()
    ensures ReplaceFirstComma("12,5 kg") == "12.5 kg"
  {
    var s := "12,5 kg";
    assert s[..2] == "12" && ',' !in s[..2];
    ReplaceFirstCommaAt(s, 2);
    assert s[..2] + "." + s[3..] == "12.5 kg";
  }

  /** Step 3: the unit is dropped. */
  lemma {:induction false} KeepNumberCharsExample()
    ensures KeepNumberChars("12.5 kg") == "12.5"
  {
    assert KeepNumberChars(" kg") == "";
    assert KeepNumberChars("5 kg") == "5";
    assert KeepNumberChars(".5 kg") == ".5";
    assert KeepNumberChars("2.5 kg") == "2.5";
  }

  /** The cleaning steps on "12,5 kg": the comma becomes a dot, the unit is dropped. */
  lemma {:induction false} DecimalCommaText()
    ensures NumericText(Str("12,5 kg")) == "12.5"
  {
    TrimExample();
    ReplaceCommaExample();
    KeepNumberCharsExample();
  }

  lemma {:induction false} DecimalTextValue()
    ensures ParseFloat("12.5") == Num(12.5)
  {
    DecimalTextPrefix();
    assert "12.5"[..4] == "12.5";
    DecimalTextUnsigned();
  }

  /** All of "12.5" is a decimal literal. */
  lemma {:induction false} DecimalTextPrefix()
    ensures DecimalPrefixLength("12.5") == 4
  {
    assert SignLength("12.5") == 0;
    assert "12.5"[0..] == "12.5";
    assert LeadingDigits("12.5") == 2;
    assert "12.5"[3..] == "5";
    assert LeadingDigits("5") == 1;
    assert UnsignedPrefixLength("12.5") == 4;
  }

  /** "12.5" has the value 12.5. */
  lemma {:induction false} DecimalTextUnsigned()
    ensures UnsignedValue("12.5") == 12.5 && LiteralValue("12.5") == 12.5
  {
    assert LeadingDigits("12.5") == 2;
    assert "12.5"[3..] == "5";
    assert LeadingDigits("5") == 1;
    assert "12.5"[..2] == "12";
    assert "5"[..1] == "5";
    assert DigitsValue("12") == 12;
  }

  /** A decimal comma and a unit suffix: "12,5 kg" reads as 12.5. */
  lemma {:induction false} DecimalCommaExample()
    ensures ParseNumericValue(Str("12,5 kg")) == Num(12.5)
  {
    DecimalCommaText();
    DecimalTextValue();
  }

  // ---------------------------------------------------------------------------
  // getLogValue

  /** Which reading of a field: the measured value, its standard, or the stored difference. */
  datatype ValueKind = Act | Std | Diff

  function Suffix(kind: ValueKind): string
  {
    match kind
    case Act => "act"
    case Std => "std"
    case Diff => "diff"
  }

  /** The value `getLogValue` coerces: `<key>_<suffix>` unless it is blank, else the
      kind's fallback (`<key>`, `std_<key> || Std_<key>`, `diff_<key> || Diff_<key>`). */
  function RawLogValue(log: LogEntry, fieldKey: string, kind: ValueKind): JsValue
  {
    var v := Get(log, fieldKey + "_" + Suffix(kind));
    if !IsBlank(v) then v
    else match kind
      case Act => Get(log, fieldKey)
      case Std => Or(Get(log, "std_" + fieldKey), Get(log, "Std_" + fieldKey))
      case Diff => Or(Get(log, "diff_" + fieldKey), Get(log, "Diff_" + fieldKey))
  }

  /** `getLogValue(log, fieldKey, kind)`; a missing record (null) reads as 0. */
  function GetLogValue(log: Option<LogEntry>, fieldKey: string, kind: ValueKind): (r: Number)
    ensures log.None? ==> r == Num(0.0)
    ensures log.Some? && !IsBlank(Get(log.value, fieldKey + "_" + Suffix(kind))) ==>
      r == ParseNumericValue(Get(log.value, fieldKey + "_" + Suffix(kind)))
    ensures log.Some? && IsBlank(Get(log.value, fieldKey + "_" + Suffix(kind))) ==>
      r == ParseNumericValue(
        match kind
        case Act => Get(log.value, fieldKey)
        case Std => if Truthy(Get(log.value, "std_" + fieldKey)) then Get(log.value, "std_" + fieldKey)
                    else Get(log.value, "Std_" + fieldKey)
        case Diff => if Truthy(Get(log.value, "diff_" + fieldKey)) then Get(log.value, "diff_" + fieldKey)
                     else Get(log.value, "Diff_" + fieldKey))
  {
    if log.None? then Num(0.0) else ParseNumericValue(RawLogValue(log.value, fieldKey, kind))
  }

  /** `getLogValue` on a record that is present. */
  function LogValue(log: LogEntry, fieldKey: string, kind: ValueKind): Number
  {
    GetLogValue(Some(log), fieldKey, kind)
  }

  // ---------------------------------------------------------------------------
  // parseLogDate

  /** `new Date(str)` for a string the day-first pattern does not match. The
      generic parser of the JavaScript engine is not part of this model: callers
      supply it. */
  type DateFallback = string -> Option<DateTime>

  /** The four groups of `/^(\d{1,2})\/(\d{1,2})\/(\d{2,4})(.*)$/`. */
  datatype DayFirstGroups = DayFirstGroups(day: string, month: string, year: string, rest: string)

  predicate NoLineTerminator(s: string)
  {
    forall i :: 0 <= i < |s| ==> !IsLineTerminator(s[i])
  }

  /** A match of the pattern, described independently of how it is found: the
      string splits into the four groups, each of the allowed length, the year
      group greedy (it stops short of four digits only before a non-digit), and
      the rest free of line terminators (`.` does not match them). */
  predicate IsDayFirstMatch(s: string, g: DayFirstGroups)
  {
    s == g.day + ("/" + (g.month + ("/" + (g.year + g.rest))))
    && 1 <= |g.day| <= 2 && AllDigits(g.day)
    && 1 <= |g.month| <= 2 && AllDigits(g.month)
    && 2 <= |g.year| <= 4 && AllDigits(g.year)
    && (|g.year| < 4 && g.rest != [] ==> !IsDigit(g.rest[0]))
    && NoLineTerminator(g.rest)
  }

  /** Runs the pattern over `s`, as the regular-expression engine does. */
  function MatchDayFirst(s: string): (r: Option<DayFirstGroups>)
    ensures r.Some? ==> IsDayFirstMatch(s, r.value)
  {
    var a := LeadingDigits(s);
    if !(1 <= a <= 2 && a < |s| && s[a] == '/') then None
    else
      var r1 := s[a + 1..];
      var b := LeadingDigits(r1);
      if !(1 <= b <= 2 && b < |r1| && r1[b] == '/') then None
      else
        var r2 := r1[b + 1..];
        var c := LeadingDigits(r2);
        var c' := if c > 4 then 4 else c;
        if c < 2 || !NoLineTerminator(r2[c'..]) then None
        else
          var g := DayFirstGroups(s[..a], r1[..b], r2[..c'], r2[c'..]);
          MatchedGroupsAreAMatch(s, a, b, c, c');
          Some(g)
  }

  lemma {:induction false} SplitAtSlash(s: string, a: nat)
    requires a < |s| && s[a] == '/'
    ensures s == s[..a] + ("/" + s[a + 1..])
  {
    assert s == s[..a] + s[a..];
    assert s[a..] == "/" + s[a + 1..];
  }

  /** The year group is the greedy run of at most four digits. */
  lemma {:induction false} YearGroup(r2: string, c: nat, c': nat)
    requires c == LeadingDigits(r2) && 2 <= c && c' == (if c > 4 then 4 else c)
    ensures r2 == r2[..c'] + r2[c'..]
    ensures 2 <= |r2[..c']| <= 4 && AllDigits(r2[..c'])
    ensures |r2[..c']| < 4 && r2[c'..] != [] ==> !IsDigit(r2[c'..][0])
  {
    assert r2[..c'] == r2[..c][..c'];
    if c' < 4 && r2[c'..] != [] {
      assert r2[c'..][0] == r2[c];
    }
  }

  lemma {:induction false} DayMonthSplit(s: string, a: nat, b: nat)
    requires a < |s| && s[a] == '/'
    requires b < |s[a + 1..]| && s[a + 1..][b] == '/'
    ensures s == s[..a] + ("/" + (s[a + 1..][..b] + ("/" + s[a + 1..][b + 1..])))
  {
    SplitAtSlash(s, a);
    SplitAtSlash(s[a + 1..], b);
  }

  /** What the matcher returns is a match. */
  lemma {:induction false} MatchedGroupsAreAMatch(s: string, a: nat, b: nat, c: nat, c': nat)
    requires a == LeadingDigits(s) && 1 <= a <= 2 && a < |s| && s[a] == '/'
    requires b == LeadingDigits(s[a + 1..]) && 1 <= b <= 2 && b < |s[a + 1..]| && s[a + 1..][b] == '/'
    requires c == LeadingDigits(s[a + 1..][b + 1..]) && 2 <= c && c' == (if c > 4 then 4 else c)
    requires NoLineTerminator(s[a + 1..][b + 1..][c'..])
    ensures var r2 := s[a + 1..][b + 1..];
      IsDayFirstMatch(s, DayFirstGroups(s[..a], s[a + 1..][..b], r2[..c'], r2[c'..]))
  {
    DayMonthSplit(s, a, b);
    YearGroup(s[a + 1..][b + 1..], c, c');
  }

  /** A string of the form `p + "/" + t` splits at the slash after `p`. */
  lemma {:induction false} SlashSplit(s: string, p: string, t: string)
    requires s == p + ("/" + t)
    ensures |p| < |s| && s[|p|] == '/' && s[..|p|] == p && s[|p| + 1..] == t
  {
  }

  /** A run of digits then a slash: the matcher's digit count stops at the slash. */
  lemma {:induction false} DigitsThenSlash(s: string, p: string, t: string)
    requires s == p + ("/" + t) && AllDigits(p)
    ensures LeadingDigits(s) == |p| && |p| < |s| && s[|p|] == '/' && s[..|p|] == p && s[|p| + 1..] == t
  {
    SlashSplit(s, p, t);
    LeadingDigitsUnique(s, |p|);
  }

  /** The matcher's year group is the greedy one of a match. */
  lemma {:induction false} YearGroupOfMatch(r2: string, year: string, rest: string)
    requires r2 == year + rest && 2 <= |year| <= 4 && AllDigits(year)
    requires |year| < 4 && rest != [] ==> !IsDigit(rest[0])
    ensures var c := LeadingDigits(r2); var c' := if c > 4 then 4 else c;
      c >= 2 && r2[..c'] == year && r2[c'..] == rest
  {
    assert r2[..|year|] == year;
    if |year| < 4 {
      if rest != [] {
        assert r2[|year|] == rest[0];
      }
      LeadingDigitsUnique(r2, |year|);
    } else {
      LeadingDigitsAtLeast(r2, |year|);
    }
  }

  /** The one match there is, the matcher finds: with the soundness of
      `MatchDayFirst`, its result is `Some(g)` exactly when `g` is a match. */
  lemma {:induction false} MatchDayFirstComplete(s: string, g: DayFirstGroups)
    requires IsDayFirstMatch(s, g)
    ensures MatchDayFirst(s) == Some(g)
  {
    var r2 := g.year + g.rest;
    var r1 := g.month + ("/" + r2);
    DigitsThenSlash(s, g.day, r1);
    DigitsThenSlash(r1, g.month, r2);
    YearGroupOfMatch(r2, g.year, g.rest);
  }

  /** The hour, minute and second of a time string: `parseInt(part) || 0` of its
      first three `:`-separated parts, 0 for a part that is missing. */
  function TimeParts(timePart: string): (hms: (int, int, int))
    ensures timePart == "" ==> hms == (0, 0, 0)
    ensures timePart != "" ==> var t := Split(timePart, ':');
      hms.0 == ParseIntOrZero(t[0]) &&
      hms.1 == (if |t| > 1 then ParseIntOrZero(t[1]) else 0) &&
      hms.2 == (if |t| > 2 then ParseIntOrZero(t[2]) else 0)
  {
    if timePart == "" then (0, 0, 0)
    else
      var t := Split(timePart, ':');
      (ParseIntOrZero(t[0]),
       if |t| > 1 then ParseIntOrZero(t[1]) else 0,
       if |t| > 2 then ParseIntOrZero(t[2]) else 0)
  }

  /** A time with a missing second, `h:m`: the hour and minute are read, the second is 0. */
  lemma {:induction false} TimePartsOfHourMinute(h: string, min: string)
    requires h != [] && AllDigits(h) && min != [] && AllDigits(min)
    ensures TimeParts(h + ":" + min) == (DigitsValue(h), DigitsValue(min), 0)
  {
    DigitsHaveNoColon(h);
    DigitsHaveNoColon(min);
    SplitPair(h, min);
    ParseIntOfDigits(h);
    ParseIntOfDigits(min);
  }

  lemma {:induction false} DigitsHaveNoColon(s: string)
    requires AllDigits(s)
    ensures ':' !in s
  {
    assert !IsDigit(':');
  }

  /** Two parts without a colon, joined by one, split back into the two. */
  lemma {:induction false} SplitPair(a: string, b: string)
    requires ':' !in a && ':' !in b
    ensures Split(a + ":" + b, ':') == [a, b]
  {
    assert a + ":" + b == a + [':'] + b;
    SplitAtFirstSeparator(a, b, ':');
    SplitWithoutSeparator(b, ':');
  }

  /** Parts that start with a letter are not numbers, and read as 0. */
  lemma {:induction false} TimePartsOfLetters(a: string, b: string)
    requires a != [] && 'a' <= a[0] <= 'z' && ':' !in a
    requires b != [] && 'a' <= b[0] <= 'z' && ':' !in b
    ensures TimeParts(a + ":" + b) == (0, 0, 0)
  {
    SplitPair(a, b);
    LetterIsNotInt(a);
    LetterIsNotInt(b);
  }

  /** `parseInt` of a string that starts with a letter is NaN. */
  lemma {:induction false} LetterIsNotInt(s: string)
    requires s != [] && 'a' <= s[0] <= 'z'
    ensures ParseInt(s) == None
  {
    assert !IsJsWhitespace(s[0]);
    assert TrimStart(s) == s && SignLength(s) == 0 && s[0..] == s;
    assert IntText(s) == s;
  }

  /** The date a match of the pattern denotes: a year below 100 is in the 2000s,
      the month is made zero-based. */
  function DateOfGroups(g: DayFirstGroups): (t: DateTime)
    requires AllDigits(g.day) && AllDigits(g.month) && AllDigits(g.year)
    ensures t.year >= 100 && t.year % 100 == DigitsValue(g.year) % 100
    ensures DigitsValue(g.year) >= 100 ==> t.year == DigitsValue(g.year)
    ensures DigitsValue(g.year) < 100 ==> t.year == 2000 + DigitsValue(g.year)
    ensures t.month + 1 == DigitsValue(g.month) && t.day == DigitsValue(g.day)
    ensures (t.hour, t.minute, t.second) == TimeParts(Trim(g.rest))
  {
    var hms := TimeParts(Trim(g.rest));
    DateTime(FullYear(DigitsValue(g.year)), DigitsValue(g.month) - 1, DigitsValue(g.day), hms.0, hms.1, hms.2)
  }

  /** `year < 100 ? 2000 + year : year`. */
  function FullYear(year: nat): (y: int)
    ensures y >= 100 && y % 100 == year % 100
    ensures year >= 100 ==> y == year
    ensures year < 100 ==> y == year + 2000
  {
    if year < 100 then year + 2000 else year
  }

  /** `parseLogDate(value)`: None (null) for a falsy value; the day-first form
      `D/M/Y[time]` read component by component; anything else through the
      engine's generic parser. */
  function ParseLogDate(v: JsValue, fallback: DateFallback): (r: Option<DateTime>)
    ensures !Truthy(v) ==> r.None?
  {
    if !Truthy(v) then None
    else
      var s := Trim(ToJsString(v));
      match MatchDayFirst(s)
      case Some(g) => Some(DateOfGroups(g))
      case None => fallback(s)
  }

  /** `parseLogDate(log.timestamp || log["Timestamp"] || log["Thời gian"])`. */
  function LogDate(log: LogEntry, fallback: DateFallback): Option<DateTime>
  {
    ParseLogDate(TimestampValue(log), fallback)
  }

  /** A day-first string is read from its groups, however the generic parser behaves. */
  lemma {:induction false} ParseLogDateDayFirst(v: JsValue, fallback: DateFallback, g: DayFirstGroups)
    requires Truthy(v) && IsDayFirstMatch(Trim(ToJsString(v)), g)
    ensures ParseLogDate(v, fallback) == Some(DateOfGroups(g))
  {
    MatchDayFirstComplete(Trim(ToJsString(v)), g);
  }

  /** The generic parser is consulted only for a truthy value that is not day-first. */
  lemma {:induction false} ParseLogDateFallback(v: JsValue, fallback: DateFallback)
    requires Truthy(v)
    requires forall g :: !IsDayFirstMatch(Trim(ToJsString(v)), g)
    ensures ParseLogDate(v, fallback) == fallback(Trim(ToJsString(v)))
  {
  }

  /** A string whose trimmed form is day-first is read from its groups. */
  lemma {:induction false} ParseLogDateOfString(r: string, fallback: DateFallback, g: DayFirstGroups)
    requires r != "" && IsDayFirstMatch(Trim(r), g)
    ensures ParseLogDate(Str(r), fallback) == Some(DateOfGroups(g))
  {
    assert Truthy(Str(r)) && ToJsString(Str(r)) == r;
    ParseLogDateDayFirst(Str(r), fallback, g);
  }
}
