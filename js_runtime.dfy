/** The fragment of JavaScript semantics that the dashboard logic relies on:
    loosely typed values and their truthiness, `||`, `String(...)`, ASCII
    `toLowerCase`, `includes` on strings, `trim`, `split`, and the two number
    parsers `parseFloat` and `parseInt` of ECMA-262 (sections 19.2.4 and 19.2.5). */
module JsRuntime {

  datatype Option<T> = None | Some(value: T)

  /** A JavaScript number: a finite value or NaN (infinities are not modelled). */
  datatype Number = Num(r: real) | NaN

  /** A value read out of a loosely typed record (`any` in the source). */
  datatype JsValue =
    | Undefined
    | Null
    | Bool(b: bool)
    | Numeric(n: Number)
    | Str(s: string)

  /** ECMA-262 ToBoolean. */
  predicate Truthy(v: JsValue)
  {
    match v
    case Undefined => false
    case Null => false
    case Bool(b) => b
    case Numeric(n) => n.Num? && n.r != 0.0
    case Str(s) => s != ""
  }

  /** `a || b`: the first operand when it is truthy, the second otherwise. */
  function Or(a: JsValue, b: JsValue): (r: JsValue)
    ensures Truthy(a) ==> r == a
    ensures !Truthy(a) ==> r == b
  {
    if Truthy(a) then a else b
  }

  /** `a ?? b` on an optional number: the first operand unless it is nullish. */
  function Coalesce(a: Option<real>, b: real): (r: real)
    ensures a.Some? ==> r == a.value
    ensures a.None? ==> r == b
  {
    if a.Some? then a.value else b
  }

  /** `a || b` on an optional number: the first operand unless it is nullish or 0. */
  function OrNumber(a: Option<real>, b: real): (r: real)
    ensures a.Some? && a.value != 0.0 ==> r == a.value
    ensures a.None? || a.value == 0.0 ==> r == b
  {
    if a.Some? && a.value != 0.0 then a.value else b
  }

  /** `a - b`: NaN when either operand is NaN. */
  function Sub(a: Number, b: Number): (r: Number)
    ensures r.NaN? <==> a.NaN? || b.NaN?
    ensures r.Num? ==> r.r + b.r == a.r
  {
    if a.Num? && b.Num? then Num(a.r - b.r) else NaN
  }

  /** `Math.abs(a)`. */
  function Abs(a: Number): (r: Number)
    ensures r.NaN? <==> a.NaN?
    ensures r.Num? ==> r.r >= 0.0 && (r.r == a.r || r.r == -a.r)
  {
    if a.NaN? then NaN else if a.r < 0.0 then Num(-a.r) else Num(a.r)
  }

  /** `a > b` for a number and a finite bound: false when `a` is NaN. */
  predicate Exceeds(a: Number, b: real)
  {
    a.Num? && a.r > b
  }

  /** `a <= b` for a number and a finite bound: false when `a` is NaN. */
  predicate AtMost(a: Number, b: real)
  {
    a.Num? && a.r <= b
  }

  /** Exactly one of `a <= b` and `a > b` holds, unless `a` is NaN. */
  lemma {:induction false} ComparisonsWithNaN(a: Number, b: real)
    ensures a.NaN? <==> !Exceeds(a, b) && !AtMost(a, b)
    ensures a.Num? ==> (Exceeds(a, b) <==> !AtMost(a, b))
  {
  }

  // ---------------------------------------------------------------------------
  // Characters and strings

  predicate IsDigit(c: char) { '0' <= c <= '9' }

  function DigitValue(c: char): (d: nat)
    requires IsDigit(c)
    ensures d < 10
  {
    (c as int) - ('0' as int)
  }

  function DigitChar(d: nat): (c: char)
    requires d < 10
    ensures IsDigit(c) && DigitValue(c) == d
  {
    (('0' as int) + d) as char
  }

  predicate AllDigits(s: string)
  {
    forall i :: 0 <= i < |s| ==> IsDigit(s[i])
  }

  /** The number of decimal digits `s` starts with. */
  function LeadingDigits(s: string): (k: nat)
    ensures k <= |s|
    ensures AllDigits(s[..k])
    ensures k < |s| ==> !IsDigit(s[k])
  {
    if |s| > 0 && IsDigit(s[0]) then
      var k := 1 + LeadingDigits(s[1..]);
      assert s[..k] == [s[0]] + s[1..][..k - 1];
      k
    else 0
  }

  /** The value of a string of decimal digits, most significant first. */
  function DigitsValue(s: string): nat
    requires AllDigits(s)
  {
    if s == [] then 0 else 10 * DigitsValue(s[..|s| - 1]) + DigitValue(s[|s| - 1])
  }

  /** The value of a two-digit string. */
  lemma {:induction false} DigitPairValue(s: string)
    requires |s| == 2 && AllDigits(s)
    ensures DigitsValue(s) == 10 * DigitValue(s[0]) + DigitValue(s[1])
  {
    var p := s[..1];
    assert p[..0] == [];
    assert DigitsValue(p) == DigitValue(p[0]);
  }

  function Pow10(n: nat): (p: nat)
    ensures p >= 1
  {
    if n == 0 then 1 else 10 * Pow10(n - 1)
  }

  /** The decimal representation of a natural number, without leading zeros. */
  function NatToString(n: nat): (s: string)
    ensures |s| >= 1 && AllDigits(s)
    ensures DigitsValue(s) == n
    ensures n < 10 <==> |s| == 1
  {
    if n < 10 then [DigitChar(n)]
    else
      var s := NatToString(n / 10) + [DigitChar(n % 10)];
      assert s[..|s| - 1] == NatToString(n / 10);
      s
  }

  /** `String(i)` for an integer-valued number. */
  function IntToString(i: int): string
  {
    if i < 0 then "-" + NatToString(-i) else NatToString(i)
  }

  /** `String(n)` for a finite number. Integers are rendered exactly; a fraction is
      rendered with at most six fractional digits, truncated (JavaScript's
      shortest round-trip rendering of doubles is not modelled). */
  function NumberToString(r: real): string
  {
    var a := if r < 0.0 then -r else r;
    var whole := a.Floor;
    var sign := if r < 0.0 then "-" else "";
    if a == whole as real then sign + NatToString(whole)
    else
      var micro := ((a - whole as real) * 1000000.0).Floor;
      sign + NatToString(whole) + "." + StripTrailingZeros(PadStart(NatToString(micro), 6, '0'))
  }

  function StripTrailingZeros(s: string): string
  {
    if |s| > 0 && s[|s| - 1] == '0' then StripTrailingZeros(s[..|s| - 1]) else s
  }

  /** ECMA-262 ToString on the values a record can hold. */
  function ToJsString(v: JsValue): string
  {
    match v
    case Undefined => "undefined"
    case Null => "null"
    case Bool(b) => if b then "true" else "false"
    case Numeric(NaN) => "NaN"
    case Numeric(Num(r)) => NumberToString(r)
    case Str(s) => s
  }

  /** `s.padStart(n, c)`. */
  function PadStart(s: string, n: nat, c: char): (r: string)
    ensures |r| == if |s| < n then n else |s|
    ensures r[|r| - |s|..] == s
    ensures forall i :: 0 <= i < |r| - |s| ==> r[i] == c
  {
    if |s| < n then seq(n - |s|, _ => c) + s else s
  }

  /** `String(n).padStart(2, '0')`. */
  function Pad2(n: int): string
  {
    PadStart(IntToString(n), 2, '0')
  }

  /** A number below 100 is written as exactly two digits that read back as it. */
  lemma {:induction false} Pad2OfSmall(n: int)
    requires 0 <= n < 100
    ensures |Pad2(n)| == 2 && AllDigits(Pad2(n)) && DigitsValue(Pad2(n)) == n
  {
    var s := NatToString(n);
    if n < 10 {
      assert Pad2(n) == ['0'] + s;
    } else {
      assert s == NatToString(n / 10) + [DigitChar(n % 10)];
      assert Pad2(n) == s;
    }
    DigitPairValue(Pad2(n));
  }

  /** `s.slice(-n)`: the last `n` characters, or all of a shorter string. */
  function SliceFromEnd(s: string, n: nat): (r: string)
    ensures |r| == if |s| < n then |s| else n
    ensures s == s[..|s| - |r|] + r
  {
    if |s| < n then s else s[|s| - n..]
  }

  /** The last two characters of a number of at least two digits are its last two digits. */
  lemma {:induction false} LastTwoDigits(y: int)
    requires y >= 10
    ensures var r := SliceFromEnd(IntToString(y), 2); |r| == 2 && AllDigits(r) && DigitsValue(r) == y % 100
  {
    var q, a, b := y / 10, (y / 10) % 10, y % 10;
    var pre := NatToString(q);
    var s := NatToString(y);
    assert s == pre + [DigitChar(b)];
    LastDigitChar(q);
    var r := SliceFromEnd(s, 2);
    assert r == [pre[|pre| - 1], DigitChar(b)];
    DigitPairValue(r);
    Mod100(y);
  }

  /** The last two decimal digits of a number give its remainder by 100. */
  lemma {:induction false} Mod100(y: nat)
    ensures y % 100 == 10 * ((y / 10) % 10) + y % 10
  {
    var q, b := y / 10, y % 10;
    var k, a := q / 10, q % 10;
    assert y == 10 * q + b;
    assert q == 10 * k + a;
    RemainderOf(y, k, 10 * a + b);
  }

  /** Division by 100 leaves a unique remainder. */
  lemma {:induction false} RemainderOf(y: int, k: int, r: int)
    requires y == 100 * k + r && 0 <= r < 100
    ensures y % 100 == r
  {
  }

  /** The last character of `String(n)` is the digit `n % 10`. */
  lemma {:induction false} LastDigitChar(n: nat)
    ensures var s := NatToString(n); s[|s| - 1] == DigitChar(n % 10)
  {
    if n >= 10 {
      assert NatToString(n) == NatToString(n / 10) + [DigitChar(n % 10)];
    }
  }

  /** `toLowerCase`, on the ASCII letters only. */
  function Lower(s: string): (r: string)
    ensures |r| == |s|
    ensures forall i :: 0 <= i < |r| ==> !('A' <= r[i] <= 'Z')
    ensures forall i :: 0 <= i < |s| && 'A' <= s[i] <= 'Z' ==>
      'a' <= r[i] <= 'z' && (r[i] as int) - ('a' as int) == (s[i] as int) - ('A' as int)
    ensures forall i :: 0 <= i < |s| && !('A' <= s[i] <= 'Z') ==> r[i] == s[i]
  {
    seq(|s|, i requires 0 <= i < |s| => if 'A' <= s[i] <= 'Z' then ((s[i] as int) + 32) as char else s[i])
  }

  /** Lowering a lowered string changes nothing. */
  lemma {:induction false} LowerIdempotent(s: string)
    ensures Lower(Lower(s)) == Lower(s)
  {
    var l := Lower(s);
    assert forall i :: 0 <= i < |l| ==> Lower(l)[i] == l[i];
  }

  predicate IsPrefix(p: string, s: string)
  {
    |p| <= |s| && s[..|p|] == p
  }

  /** `s.includes(t)`. */
  predicate Contains(s: string, t: string)
    decreases |s|
  {
    IsPrefix(t, s) || (|s| > 0 && Contains(s[1..], t))
  }

  /** The characters `trim` removes: WhiteSpace and LineTerminator of ECMA-262. */
  predicate IsLineTerminator(c: char)
  {
    c == '\n' || c == '\r' || c == '\U{2028}' || c == '\U{2029}'
  }

  predicate IsJsWhitespace(c: char)
  {
    c == ' ' || c == '\t' || c == '\U{000B}' || c == '\U{000C}' || c == '\U{00A0}' || c == '\U{FEFF}'
    || c == '\U{1680}' || ('\U{2000}' <= c <= '\U{200A}') || c == '\U{202F}' || c == '\U{205F}'
    || c == '\U{3000}' || IsLineTerminator(c)
  }

  /** `s.trimStart()`: the leading whitespace removed, and nothing else. */
  function TrimStart(s: string): (r: string)
    ensures |r| <= |s| && r == s[|s| - |r|..]
    ensures r != [] ==> !IsJsWhitespace(r[0])
    ensures s != [] && !IsJsWhitespace(s[0]) ==> r == s
  {
    if |s| > 0 && IsJsWhitespace(s[0]) then TrimStart(s[1..]) else s
  }

  /** What `trimStart` removes is whitespace only. */
  lemma {:induction false} TrimStartRemovesWhitespace(s: string)
    ensures forall i :: 0 <= i < |s| - |TrimStart(s)| ==> IsJsWhitespace(s[i])
  {
    if |s| > 0 && IsJsWhitespace(s[0]) {
      TrimStartRemovesWhitespace(s[1..]);
      assert forall i :: 0 <= i < |s| - 1 - |TrimStart(s[1..])| ==> s[1..][i] == s[i + 1];
    }
  }

  /** `s.trimEnd()`: the trailing whitespace removed, and nothing else. */
  function TrimEnd(s: string): (r: string)
    ensures |r| <= |s| && r == s[..|r|]
    ensures r != [] ==> !IsJsWhitespace(r[|r| - 1])
    ensures s != [] && !IsJsWhitespace(s[|s| - 1]) ==> r == s
  {
    if |s| > 0 && IsJsWhitespace(s[|s| - 1]) then TrimEnd(s[..|s| - 1]) else s
  }

  /** What `trimEnd` removes is whitespace only. */
  lemma {:induction false} TrimEndRemovesWhitespace(s: string)
    ensures forall i :: |TrimEnd(s)| <= i < |s| ==> IsJsWhitespace(s[i])
  {
    if |s| > 0 && IsJsWhitespace(s[|s| - 1]) {
      TrimEndRemovesWhitespace(s[..|s| - 1]);
      assert forall i :: |TrimEnd(s)| <= i < |s| - 1 ==> s[..|s| - 1][i] == s[i];
    }
  }

  /** `s.trim()`. */
  function Trim(s: string): string
  {
    TrimEnd(TrimStart(s))
  }

  /** `s.split(sep)` for a one-character separator. */
  function Split(s: string, sep: char): (parts: seq<string>)
    ensures |parts| >= 1
    ensures forall i :: 0 <= i < |parts| ==> sep !in parts[i]
  {
    if s == [] then [""]
    else
      var tail := Split(s[1..], sep);
      if s[0] == sep then [""] + tail
      else [[s[0]] + tail[0]] + tail[1..]
  }

  /** A string without the separator is one part. */
  lemma {:induction false} SplitWithoutSeparator(a: string, sep: char)
    requires sep !in a
    ensures Split(a, sep) == [a]
  {
    if a != [] {
      SplitWithoutSeparator(a[1..], sep);
      assert a == [a[0]] + a[1..];
    }
  }

  /** Splitting at the first separator: the part before it, then the parts of the rest. */
  lemma {:induction false} SplitAtFirstSeparator(a: string, b: string, sep: char)
    requires sep !in a
    ensures Split(a + [sep] + b, sep) == [a] + Split(b, sep)
  {
    if a != [] {
      SplitAtFirstSeparator(a[1..], b, sep);
      assert (a + [sep] + b)[1..] == a[1..] + [sep] + b;
      assert (a + [sep] + b)[0] == a[0] != sep;
      var tail := Split(a[1..] + [sep] + b, sep);
      assert tail[0] == a[1..] && tail[1..] == Split(b, sep);
      assert [a[0]] + a[1..] == a;
    } else {
      assert (a + [sep] + b)[1..] == b;
    }
  }

  // ---------------------------------------------------------------------------
  // parseFloat (ECMA-262 section 19.2.4) on the alphabet "-0123456789." that the
  // record coercion leaves in a string; on it the StrDecimalLiteral grammar
  // reduces to: an optional sign, then digits, a dot, digits, with at least one
  // digit on one side of the dot and no exponent.

  predicate IsNumberChar(c: char) { c == '-' || c == '.' || IsDigit(c) }

  predicate NumberAlphabet(s: string)
  {
    forall i :: 0 <= i < |s| ==> IsNumberChar(s[i])
  }

  /** StrUnsignedDecimalLiteral without exponent: digits, optionally one dot and digits. */
  predicate IsUnsignedDecimal(t: string)
  {
    (|t| > 0 && AllDigits(t))
    || (exists k :: 0 <= k < |t| && t[k] == '.' && AllDigits(t[..k]) && AllDigits(t[k + 1..]) && |t| >= 2)
  }

  /** StrDecimalLiteral without exponent or Infinity. */
  predicate IsDecimalLiteral(t: string)
  {
    IsUnsignedDecimal(t) || (|t| > 0 && (t[0] == '+' || t[0] == '-') && IsUnsignedDecimal(t[1..]))
  }

  /** The number of leading characters that form a sign. */
  function SignLength(s: string): (n: nat)
    ensures n <= 1 && n <= |s|
  {
    if |s| > 0 && (s[0] == '+' || s[0] == '-') then 1 else 0
  }

  /** The length of the longest prefix of `s` that is a decimal literal, or 0. */
  function DecimalPrefixLength(s: string): (n: nat)
    ensures n <= |s|
  {
    var sign := SignLength(s);
    var len := UnsignedPrefixLength(s[sign..]);
    if len == 0 then 0 else sign + len
  }

  /** The length of the digits, point and digits at the start of `rest`, or 0 when
      they are absent or only a point. */
  function UnsignedPrefixLength(rest: string): (len: nat)
    ensures len <= |rest|
  {
    var i := LeadingDigits(rest);
    if i < |rest| && rest[i] == '.' then
      var j := LeadingDigits(rest[i + 1..]);
      if i == 0 && j == 0 then 0 else i + 1 + j
    else i
  }

  /** The mathematical value of an unsigned literal: digits, optionally a dot and digits. */
  function UnsignedValue(t: string): real
  {
    var k := LeadingDigits(t);
    var frac := if k < |t| then t[k + 1..] else "";
    var f := LeadingDigits(frac);
    (DigitsValue(t[..k]) as real) + (DigitsValue(frac[..f]) as real) / (Pow10(f) as real)
  }

  /** The mathematical value of a signed literal. */
  function LiteralValue(t: string): real
  {
    if |t| > 0 && t[0] == '-' then -UnsignedValue(t[1..])
    else if |t| > 0 && t[0] == '+' then UnsignedValue(t[1..])
    else UnsignedValue(t)
  }

  /** `parseFloat(s)`: the value of the longest decimal-literal prefix, NaN if there is none. */
  function ParseFloat(s: string): (r: Number)
    requires NumberAlphabet(s)
    ensures r.NaN? <==> DecimalPrefixLength(s) == 0
  {
    var n := DecimalPrefixLength(s);
    if n == 0 then NaN else Num(LiteralValue(s[..n]))
  }

  // ---------------------------------------------------------------------------
  // parseInt (ECMA-262 section 19.2.5) with no radix argument

  predicate IsHexDigit(c: char) { IsDigit(c) || 'a' <= c <= 'f' || 'A' <= c <= 'F' }

  function HexValue(c: char): (d: nat)
    requires IsHexDigit(c)
    ensures d < 16
  {
    if IsDigit(c) then DigitValue(c)
    else if 'a' <= c <= 'f' then (c as int) - ('a' as int) + 10
    else (c as int) - ('A' as int) + 10
  }

  function LeadingHexDigits(s: string): (k: nat)
    ensures k <= |s|
    ensures forall i :: 0 <= i < k ==> IsHexDigit(s[i])
    ensures k < |s| ==> !IsHexDigit(s[k])
  {
    if |s| > 0 && IsHexDigit(s[0]) then 1 + LeadingHexDigits(s[1..]) else 0
  }

  function HexDigitsValue(s: string): nat
    requires forall i :: 0 <= i < |s| ==> IsHexDigit(s[i])
  {
    if s == [] then 0 else 16 * HexDigitsValue(s[..|s| - 1]) + HexValue(s[|s| - 1])
  }

  /** `parseInt(s)`: None stands for NaN. Leading whitespace and one sign are
      skipped; a `0x`/`0X` prefix selects radix 16, otherwise radix 10; the
      longest run of digits of that radix is read. */
  function ParseInt(s: string): (r: Option<int>)
    ensures var u := IntText(s);
      r.None? <==> if HasHexPrefix(u) then |u| == 2 || !IsHexDigit(u[2]) else u == [] || !IsDigit(u[0])
    ensures var u := IntText(s);
      forall k: nat :: !HasHexPrefix(u) && IsDigitRun(u, k) ==> r == Some(IntSign(s) * DigitsValue(u[..k]))
    ensures var u := IntText(s);
      forall k: nat :: HasHexPrefix(u) && IsHexRun(u[2..], k) ==> r == Some(IntSign(s) * HexDigitsValue(u[2..][..k]))
  {
    var u := IntText(s);
    if HasHexPrefix(u) then
      var v := u[2..];
      var k := LeadingHexDigits(v);
      HexRunUnique(v);
      if k == 0 then None else Some(IntSign(s) * HexDigitsValue(v[..k]))
    else
      var k := LeadingDigits(u);
      DigitRunUnique(u);
      if k == 0 then None else Some(IntSign(s) * DigitsValue(u[..k]))
  }

  /** What `parseInt` reads digits from: the text after the leading whitespace and one sign. */
  function IntText(s: string): (u: string)
    ensures u == TrimStart(s)[SignLength(TrimStart(s))..]
  {
    var t := TrimStart(s);
    t[SignLength(t)..]
  }

  /** -1 when the trimmed text starts with `-`, else 1. */
  function IntSign(s: string): (sign: int)
    ensures sign == -1 || sign == 1
    ensures sign == -1 <==> TrimStart(s) != [] && TrimStart(s)[0] == '-'
  {
    var t := TrimStart(s);
    if |t| > 0 && t[0] == '-' then -1 else 1
  }

  /** A `0x` or `0X` prefix, which selects radix 16. */
  predicate HasHexPrefix(u: string)
  {
    |u| >= 2 && u[0] == '0' && (u[1] == 'x' || u[1] == 'X')
  }

  /** `x[..k]` is the whole non-empty run of decimal digits `x` starts with. */
  predicate IsDigitRun(x: string, k: nat)
  {
    0 < k <= |x| && AllDigits(x[..k]) && (k < |x| ==> !IsDigit(x[k]))
  }

  /** `x[..k]` is the whole non-empty run of hexadecimal digits `x` starts with. */
  predicate IsHexRun(x: string, k: nat)
  {
    0 < k <= |x| && (forall i :: 0 <= i < k ==> IsHexDigit(x[i])) && (k < |x| ==> !IsHexDigit(x[k]))
  }

  /** A run of decimal digits is the one `LeadingDigits` measures. */
  lemma {:induction false} DigitRunUnique(x: string)
    ensures forall k: nat :: IsDigitRun(x, k) ==> k == LeadingDigits(x)
  {
    forall k: nat | IsDigitRun(x, k) ensures k == LeadingDigits(x) {
      LeadingDigitsUnique(x, k);
    }
  }

  /** A run of hexadecimal digits is the one `LeadingHexDigits` measures. */
  lemma {:induction false} HexRunUnique(x: string)
    ensures forall k: nat :: IsHexRun(x, k) ==> k == LeadingHexDigits(x)
  {
    forall k: nat | IsHexRun(x, k) ensures k == LeadingHexDigits(x) {
      LeadingHexDigitsUnique(x, k);
    }
  }

  lemma {:induction false} LeadingHexDigitsUnique(x: string, k: nat)
    requires k <= |x| && forall i :: 0 <= i < k ==> IsHexDigit(x[i])
    requires k < |x| ==> !IsHexDigit(x[k])
    ensures LeadingHexDigits(x) == k
  {
    if k > 0 {
      assert IsHexDigit(x[0]);
      assert forall i :: 0 <= i < k - 1 ==> x[1..][i] == x[i + 1];
      LeadingHexDigitsUnique(x[1..], k - 1);
    }
  }

  /** `parseInt(s) || 0`: NaN (and 0) become 0. */
  function ParseIntOrZero(s: string): (i: int)
    ensures var u := IntText(s);
      (if HasHexPrefix(u) then |u| == 2 || !IsHexDigit(u[2]) else u == [] || !IsDigit(u[0])) ==> i == 0
    ensures var u := IntText(s);
      forall k: nat :: !HasHexPrefix(u) && IsDigitRun(u, k) ==> i == IntSign(s) * DigitsValue(u[..k])
    ensures var u := IntText(s);
      forall k: nat :: HasHexPrefix(u) && IsHexRun(u[2..], k) ==> i == IntSign(s) * HexDigitsValue(u[2..][..k])
  {
    match ParseInt(s)
    case None => 0
    case Some(i) => i
  }

  lemma {:induction false} DigitsAreUntrimmed(s: string)
    requires s != [] && AllDigits(s)
    ensures TrimStart(s) == s && SignLength(s) == 0 && s[0..] == s
  {
    assert IsDigit(s[0]);
    assert !IsJsWhitespace(s[0]);
    assert s[0] != '+' && s[0] != '-';
  }

  lemma {:induction false} DigitsAreOneRun(u: string)
    requires u != [] && AllDigits(u)
    ensures !(|u| >= 2 && u[0] == '0' && (u[1] == 'x' || u[1] == 'X'))
    ensures LeadingDigits(u) == |u| && u[..|u|] == u
  {
    if |u| >= 2 { assert IsDigit(u[1]); }
    assert u[..|u|] == u;
    LeadingDigitsUnique(u, |u|);
  }

  /** parseInt reads a string of decimal digits as its value. */
  lemma {:induction false} ParseIntOfDigits(s: string)
    requires s != [] && AllDigits(s)
    ensures ParseInt(s) == Some(DigitsValue(s))
  {
    DigitsAreUntrimmed(s);
    DigitsAreOneRun(s);
  }

  // ---------------------------------------------------------------------------
  // parseFloat reads the LONGEST literal prefix

  /** `LeadingDigits` is the one length that its two postconditions describe. */
  lemma {:induction false} LeadingDigitsUnique(x: string, k: nat)
    requires k <= |x| && AllDigits(x[..k])
    requires k < |x| ==> !IsDigit(x[k])
    ensures LeadingDigits(x) == k
  {
    if k > 0 {
      assert IsDigit(x[..k][0]);
      assert x[1..][..k - 1] == x[..k][1..];
      if k < |x| {
        assert x[1..][k - 1] == x[k];
      }
      LeadingDigitsUnique(x[1..], k - 1);
    }
  }

  /** A string that starts with `k` digits has at least `k` leading digits. */
  lemma {:induction false} LeadingDigitsAtLeast(x: string, k: nat)
    requires k <= |x| && AllDigits(x[..k])
    ensures LeadingDigits(x) >= k
  {
    if k > 0 {
      assert IsDigit(x[..k][0]);
      assert x[1..][..k - 1] == x[..k][1..];
      LeadingDigitsAtLeast(x[1..], k - 1);
    }
  }

  /** A scanning characterisation of the grammar predicate. */
  lemma {:induction false} UnsignedDecimalByScan(u: string)
    ensures IsUnsignedDecimal(u) <==>
      var k := LeadingDigits(u);
      (k == |u| && k > 0) || (k < |u| && u[k] == '.' && AllDigits(u[k + 1..]) && |u| >= 2)
  {
    var k := LeadingDigits(u);
    if |u| > 0 && AllDigits(u) {
      assert u[..|u|] == u;
      LeadingDigitsUnique(u, |u|);
    }
    if exists k0 :: 0 <= k0 < |u| && u[k0] == '.' && AllDigits(u[..k0]) && AllDigits(u[k0 + 1..]) && |u| >= 2 {
      var k0 :| 0 <= k0 < |u| && u[k0] == '.' && AllDigits(u[..k0]) && AllDigits(u[k0 + 1..]) && |u| >= 2;
      LeadingDigitsUnique(u, k0);
    }
    if k == |u| && k > 0 {
      assert u[..k] == u;
    }
  }

  /** On a literal, a leading sign can only be the sign of the signed form. */
  lemma {:induction false} DecimalLiteralBySign(t: string)
    ensures IsDecimalLiteral(t) <==> IsUnsignedDecimal(t[SignLength(t)..])
  {
    if SignLength(t) == 1 {
      UnsignedDecimalByScan(t);
    } else {
      assert t[0..] == t;
    }
  }

  lemma {:induction false} PrefixOfSlice(s: string, a: nat, m: nat)
    requires a <= m <= |s|
    ensures s[..m][a..] == s[a..][..m - a]
  {
  }

  /** The prefix `DecimalPrefixLength` measures, when non-empty, is a decimal literal. */
  lemma {:induction false} DecimalPrefixIsLiteral(s: string)
    requires DecimalPrefixLength(s) > 0
    ensures IsDecimalLiteral(s[..DecimalPrefixLength(s)])
  {
    var n := DecimalPrefixLength(s);
    var sign := SignLength(s);
    var rest := s[sign..];
    var t := s[..n];
    assert SignLength(t) == sign;
    PrefixOfSlice(s, sign, n);
    var u := t[sign..];
    assert u == rest[..n - sign];
    DecimalLiteralBySign(t);
    UnsignedPrefixIsLiteral(rest);
  }

  /** The digits, point and digits scanned after the sign form an unsigned literal. */
  lemma {:induction false} UnsignedPrefixIsLiteral(rest: string)
    requires UnsignedPrefixLength(rest) > 0
    ensures IsUnsignedDecimal(rest[..UnsignedPrefixLength(rest)])
  {
    var i := LeadingDigits(rest);
    var len := UnsignedPrefixLength(rest);
    var u := rest[..len];
    if i < |rest| && rest[i] == '.' {
      var j := LeadingDigits(rest[i + 1..]);
      assert u[..i] == rest[..i];
      LeadingDigitsUnique(u, i);
      assert u[i + 1..] == rest[i + 1..][..j];
    } else {
      assert u == rest[..i];
      LeadingDigitsUnique(u, i);
      assert u[..i] == u;
    }
    UnsignedDecimalByScan(u);
  }

  /** No prefix longer than the one `DecimalPrefixLength` measures is a decimal literal. */
  lemma {:induction false} LongerPrefixIsNotLiteral(s: string, m: nat)
    requires DecimalPrefixLength(s) < m <= |s|
    ensures !IsDecimalLiteral(s[..m])
  {
    var sign := SignLength(s);
    var rest := s[sign..];
    var i := LeadingDigits(rest);
    var t := s[..m];
    assert SignLength(t) == sign;
    PrefixOfSlice(s, sign, m);
    var u := t[sign..];
    var L := m - sign;
    assert u == rest[..L];
    DecimalLiteralBySign(t);
    UnsignedDecimalByScan(u);
    if L > 0 {
      var kU := if i < L then i else L;
      assert u[..kU] == rest[..kU];
      LeadingDigitsUnique(u, kU);
      if i < |rest| && rest[i] == '.' {
        var j := LeadingDigits(rest[i + 1..]);
        if i == 0 && j == 0 {
          if L >= 2 {
            assert u[1..][0] == rest[i + 1..][0];
          }
        } else {
          assert u[i + 1..][j] == rest[i + 1..][j];
        }
      }
    }
  }

  /** parseFloat reads the longest prefix of `s` that is a decimal literal, and is
      NaN exactly when no non-empty prefix is one. */
  lemma {:induction false} ParseFloatTakesLongestPrefix(s: string)
    requires NumberAlphabet(s)
    ensures var n := DecimalPrefixLength(s);
      (n > 0 ==> IsDecimalLiteral(s[..n]) && ParseFloat(s) == Num(LiteralValue(s[..n]))) &&
      (forall m :: n < m <= |s| ==> !IsDecimalLiteral(s[..m])) &&
      (ParseFloat(s).NaN? <==> forall m :: 0 < m <= |s| ==> !IsDecimalLiteral(s[..m]))
  {
    var n := DecimalPrefixLength(s);
    if n > 0 {
      DecimalPrefixIsLiteral(s);
    }
    forall m | n < m <= |s|
      ensures !IsDecimalLiteral(s[..m])
    {
      LongerPrefixIsNotLiteral(s, m);
    }
  }
}
