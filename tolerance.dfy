/** How a measured deviation is judged against a tolerance. The data card
    (components/DataCard.tsx) and the per-field tiles of the dashboard's log
    cards (components/Dashboard.tsx) share the same `??` fallback and the same
    three bands; the dashboard's alert count uses `||` instead. */
module Tolerance {
  import opened JsRuntime
  import opened Types

  /** `tolerance ?? getDefaultTolerance(key)`: a given tolerance wins, even 0. */
  function EffectiveTolerance(tolerance: Option<real>, key: string): (t: real)
    ensures tolerance.Some? ==> t == tolerance.value
    ensures tolerance.None? ==> t == GetDefaultTolerance(key) && t > 0.0
  {
    Coalesce(tolerance, GetDefaultTolerance(key))
  }

  /** `tolerance || getDefaultTolerance(key)`: a tolerance of 0 is replaced too. */
  function AlertTolerance(tolerance: Option<real>, key: string): (t: real)
    ensures tolerance.Some? && tolerance.value != 0.0 ==> t == tolerance.value
    ensures tolerance.None? || tolerance.value == 0.0 ==> t == GetDefaultTolerance(key) && t > 0.0
  {
    OrNumber(tolerance, GetDefaultTolerance(key))
  }

  /** The two fallbacks part ways exactly on a tolerance of 0, which the alert
      count treats as unset and the cards take literally. */
  lemma {:induction false} FallbacksDifferOnlyOnZero(tolerance: Option<real>, key: string)
    ensures EffectiveTolerance(tolerance, key) != AlertTolerance(tolerance, key) <==> tolerance == Some(0.0)
  {
    if tolerance == Some(0.0) {
      DefaultTolerancePositive(key);
    }
  }

  datatype Band = Green | Yellow | Red

  /** The colour of a deviation: green within half the tolerance, yellow within
      the tolerance, red beyond it. A NaN deviation passes neither test and is red. */
  function Classify(diff: Number, tol: real): (b: Band)
    ensures b == Green <==> AtMost(Abs(diff), tol / 2.0)
    ensures b == Yellow <==> !AtMost(Abs(diff), tol / 2.0) && AtMost(Abs(diff), tol)
    ensures b == Red <==> !AtMost(Abs(diff), tol)
  {
    if AtMost(Abs(diff), tol / 2.0) then Green
    else if AtMost(Abs(diff), tol) then Yellow
    else Red
  }

  /** With a positive tolerance the bands, read on the size of the deviation,
      are the intervals [0, tol/2], (tol/2, tol] and (tol, ...). */
  lemma {:induction false} BandsByDistance(diff: real, tol: real)
    requires tol > 0.0
    ensures var d := if diff < 0.0 then -diff else diff;
      (Classify(Num(diff), tol) == Green <==> d <= tol / 2.0)
      && (Classify(Num(diff), tol) == Yellow <==> tol / 2.0 < d <= tol)
      && (Classify(Num(diff), tol) == Red <==> d > tol)
  {
  }

  /** A deviation as the cards print it: a leading "+" when it is positive, then
      its string form (the rounding of `toFixed(1)` is not modelled). */
  function DiffLabel(diff: Number): (s: string)
    ensures |s| > 0 && (s[0] == '+' <==> Exceeds(diff, 0.0))
    ensures s[0] == '+' || s[0] == '-' || s[0] == 'N' || IsDigit(s[0])
  {
    var text := ToJsString(Numeric(diff));
    NumberTextIsUnsigned(diff);
    (if Exceeds(diff, 0.0) then "+" else "") + text
  }

  /** The string form of a number starts with "-", a digit, or the "N" of "NaN". */
  lemma {:induction false} NumberTextIsUnsigned(n: Number)
    ensures var t := ToJsString(Numeric(n)); t != [] && (t[0] == '-' || t[0] == 'N' || IsDigit(t[0]))
  {
    if n.Num? {
      var a := if n.r < 0.0 then -n.r else n.r;
      var whole := a.Floor;
      assert NatToString(whole) != [] && IsDigit(NatToString(whole)[0]);
    }
  }
}
