/** The measurement input card (components/DataCard.tsx): the tolerance it
    applies, the colour of the deviation, the deviation text and the
    "Missing" badge. */
module DataCardView {
  import opened JsRuntime
  import opened Types
  import opened Tolerance

  /** `statusColor`: neutral grey, or one of the three bands. */
  datatype Status = Neutral | Banded(band: Band)

  /** What the card shows for its props. */
  datatype CardView = CardView(
    title: string,
    tolerance: real,
    status: Status,
    diffDisplay: string,
    showsDiff: bool,
    showsStandard: bool,
    missing: bool)

  const OkText: string := "✓ OK"

  /** `diffDisplay`: "✓ OK" for no deviation, otherwise the signed deviation. */
  function DiffDisplay(diff: Number): (s: string)
    ensures s == OkText <==> diff == Num(0.0)
    ensures s != OkText ==> |s| > 0 && (s[0] == '+' <==> Exceeds(diff, 0.0))
  {
    if diff == Num(0.0) then OkText
    else
      var text := DiffLabel(diff);
      assert text[0] != OkText[0];
      text
  }

  /** `fieldLabels[dataKey] || dataKey`. */
  function CardLabel(labels: map<string, string>, key: string): (s: string)
    ensures key in labels && labels[key] != "" ==> s == labels[key]
    ensures key !in labels || labels[key] == "" ==> s == key
  {
    if key in labels && labels[key] != "" then labels[key] else key
  }

  /** The card for `value` (null is `None`; a number typed by the user may be NaN),
      `standardValue` and `tolerance` (undefined is `None`). */
  function Card(key: string, value: Option<Number>, standard: Option<real>, tolerance: Option<real>,
                labels: map<string, string>): (v: CardView)
    ensures v.tolerance == EffectiveTolerance(tolerance, key)
    ensures v.title == CardLabel(labels, key)
    ensures v.missing <==> value.None?
    ensures v.showsStandard <==> standard.Some?
    ensures v.showsDiff <==> value.Some? && standard.Some?
    ensures v.status == Neutral <==> !v.showsDiff
    ensures !v.showsDiff ==> v.diffDisplay == ""
    ensures v.showsDiff ==> (v.diffDisplay == OkText <==> value.value == Num(standard.value))
    ensures v.showsDiff && v.diffDisplay != OkText ==>
      |v.diffDisplay| > 0 && (v.diffDisplay[0] == '+' <==> Exceeds(value.value, standard.value))
    ensures v.status.Banded? ==>
      v.status.band == Classify(Sub(value.value, Num(standard.value)), EffectiveTolerance(tolerance, key))
  {
    var tol := EffectiveTolerance(tolerance, key);
    var title := CardLabel(labels, key);
    if value.Some? && standard.Some? then
      var diff := Sub(value.value, Num(standard.value));
      assert diff == Num(0.0) <==> value.value == Num(standard.value);
      assert Exceeds(diff, 0.0) <==> Exceeds(value.value, standard.value);
      CardView(title, tol, Banded(Classify(diff, tol)), DiffDisplay(diff), true, true, false)
    else
      CardView(title, tol, Neutral, "", false, standard.Some?, value.None?)
  }

  /** The colour of a typed number against its standard, on the size of the
      deviation: green within half the tolerance, yellow within the tolerance,
      red beyond it; exactly one of them. */
  lemma {:induction false} CardBands(key: string, value: real, standard: real, tolerance: Option<real>,
                                     labels: map<string, string>)
    ensures var v := Card(key, Some(Num(value)), Some(standard), tolerance, labels);
      var d := if value >= standard then value - standard else standard - value;
      var tol := EffectiveTolerance(tolerance, key);
      v.status.Banded?
      && (v.status.band == Green <==> d <= tol / 2.0)
      && (v.status.band == Yellow <==> tol / 2.0 < d <= tol)
      && (v.status.band == Red <==> d > tol)
  {
  }

  /** A typed NaN is never within tolerance. */
  lemma {:induction false} NaNIsRed(key: string, standard: real, tolerance: Option<real>, labels: map<string, string>)
    ensures Card(key, Some(NaN), Some(standard), tolerance, labels).status == Banded(Red)
  {
  }

  /** Without a tolerance the defaults apply; a tolerance of 0 is kept and turns
      every deviation red. */
  lemma {:induction false} ZeroToleranceIsStrict(key: string, value: real, standard: real, labels: map<string, string>)
    requires value != standard
    ensures Card(key, Some(Num(value)), Some(standard), Some(0.0), labels).status == Banded(Red)
  {
  }
}
