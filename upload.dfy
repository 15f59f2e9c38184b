/** The record `handleUploadToSheet` sends (App.tsx): the metadata, then, zone by
    zone and reading by reading, each reading under its own key and, when the
    selected preset has a standard for that key, the standard under `std_<key>`
    and the difference under `diff_<key>` — the keys the dashboard reads back. */
module Upload {
  import opened JsRuntime
  import opened JsDates
  import opened Types
  import opened LogValues
  import opened AppTimestamp

  /** The record being built; it is sent as JSON and comes back as a log row. */
  type Payload = map<string, JsValue>

  /** One assignment `payload[key] = value`. */
  datatype Write = Write(key: string, value: JsValue)

  /** `currentPreset?.data?.[key]`. */
  function StandardOf(preset: Option<ProductPreset>, key: string): (s: Option<real>)
    ensures s.Some? <==> preset.Some? && key in preset.value.data
    ensures s.Some? ==> s.value == preset.value.data[key]
  {
    if preset.Some? && key in preset.value.data then Some(preset.value.data[key]) else None
  }

  /** ECMA-262 ToNumber, as `-` applies it to a reading: null and blank or
      whitespace-only text are 0, `true` and `false` are 1 and 0, undefined is NaN,
      text is read as a whole decimal literal once trimmed
      (exponents, hexadecimal and Infinity are not modelled). */
  function ToNumber(v: JsValue): (n: Number)
    ensures v.Numeric? ==> n == v.n
    ensures v == Null || v == Str("") ==> n == Num(0.0)
    ensures v == Undefined ==> n == NaN
    ensures v.Str? && Trim(v.s) != "" ==> (n.Num? <==> IsDecimalLiteral(Trim(v.s)))
    ensures v.Str? && Trim(v.s) != "" && IsDecimalLiteral(Trim(v.s)) ==> n == Num(LiteralValue(Trim(v.s)))
    ensures v.Str? && Trim(v.s) == "" ==> n == Num(0.0)
    ensures v.Bool? ==> n == Num(if v.b then 1.0 else 0.0)
  {
    match v
    case Undefined => NaN
    case Null => Num(0.0)
    case Bool(b) => Num(if b then 1.0 else 0.0)
    case Numeric(x) => x
    case Str(s) =>
      var t := Trim(s);
      if t == "" then Num(0.0)
      else if IsDecimalLiteral(t) then Num(LiteralValue(t))
      else NaN
  }

  /** `(val as number) - std`, before the rounding `toFixed(2)` applies. */
  function Difference(v: JsValue, std: real): (d: Number)
    ensures d.NaN? <==> ToNumber(v).NaN?
    ensures d.Num? ==> d.r == ToNumber(v).r - std
  {
    Sub(ToNumber(v), Num(std))
  }

  /** The assignments one reading makes. */
  function FieldWrites(key: string, v: JsValue, preset: Option<ProductPreset>): seq<Write>
  {
    match StandardOf(preset, key)
    case None => [Write(key, v)]
    case Some(std) =>
      [Write(key, v), Write("std_" + key, Numeric(Num(std))), Write("diff_" + key, Numeric(Difference(v, std)))]
  }

  /** The assignments of one zone's readings, in their order. */
  function ZoneWrites(readings: seq<(string, JsValue)>, preset: Option<ProductPreset>): seq<Write>
  {
    if readings == [] then []
    else
      var last := readings[|readings| - 1];
      ZoneWrites(readings[..|readings| - 1], preset) + FieldWrites(last.0, last.1, preset)
  }

  /** The assignments of all zones, in their order; a falsy zone entry makes none. */
  function AllWrites(data: seq<ZoneData>, preset: Option<ProductPreset>): seq<Write>
  {
    if data == [] then []
    else
      var last := data[|data| - 1];
      AllWrites(data[..|data| - 1], preset) + if last.readings.Some? then ZoneWrites(last.readings.value, preset) else []
  }

  /** The assignments carried out one after the other. */
  function Apply(p: Payload, w: seq<Write>): Payload
  {
    if w == [] then p else Apply(p, w[..|w| - 1])[w[|w| - 1].key := w[|w| - 1].value]
  }

  /** The value last assigned to `key`, or None when no assignment names it. */
  function LastWrite(w: seq<Write>, key: string): (r: Option<JsValue>)
    ensures r.None? <==> forall i :: 0 <= i < |w| ==> w[i].key != key
    ensures r.Some? ==>
      exists i :: (0 <= i < |w| && w[i] == Write(key, r.value) && forall j :: i < j < |w| ==> w[j].key != key)
  {
    if w == [] then None
    else if w[|w| - 1].key == key then Some(w[|w| - 1].value)
    else LastWrite(w[..|w| - 1], key)
  }

  /** After the assignments, a key holds the value last assigned to it, and a key
      no assignment names is as it was: later assignments overwrite earlier ones. */
  lemma {:induction false} ApplyLookup(p: Payload, w: seq<Write>, key: string)
    ensures key in Apply(p, w) <==> key in p || LastWrite(w, key).Some?
    ensures Get(Apply(p, w), key) == if LastWrite(w, key).Some? then LastWrite(w, key).value else Get(p, key)
  {
    if w != [] {
      ApplyLookup(p, w[..|w| - 1], key);
    }
  }

  /** Carrying out `a + b` is carrying out `a`, then `b`. */
  lemma {:induction false} ApplyAppend(p: Payload, a: seq<Write>, b: seq<Write>)
    ensures Apply(p, a + b) == Apply(Apply(p, a), b)
  {
    if b == [] {
      assert a + b == a;
    } else {
      assert (a + b)[..|a + b| - 1] == a + b[..|b| - 1];
      ApplyAppend(p, a, b[..|b| - 1]);
    }
  }

  lemma {:induction false} ApplyOne(p: Payload, x: Write)
    ensures Apply(p, [x]) == p[x.key := x.value]
  {
    assert [x][..0] == [];
  }

  /** The effect of one reading's assignments, spelled out. */
  lemma {:induction false} ApplyFieldWrites(p: Payload, key: string, v: JsValue, preset: Option<ProductPreset>)
    ensures StandardOf(preset, key).None? ==> Apply(p, FieldWrites(key, v, preset)) == p[key := v]
    ensures StandardOf(preset, key).Some? ==>
      (Apply(p, FieldWrites(key, v, preset)) ==
       p[key := v]["std_" + key := Numeric(Num(StandardOf(preset, key).value))]
        ["diff_" + key := Numeric(Difference(v, StandardOf(preset, key).value))])
  {
    var a := Write(key, v);
    ApplyOne(p, a);
    if StandardOf(preset, key).Some? {
      var std := StandardOf(preset, key).value;
      var b := Write("std_" + key, Numeric(Num(std)));
      var c := Write("diff_" + key, Numeric(Difference(v, std)));
      assert FieldWrites(key, v, preset) == [a] + [b] + [c];
      ApplyAppend(p, [a] + [b], [c]);
      ApplyAppend(p, [a], [b]);
      ApplyOne(Apply(p, [a]), b);
      ApplyOne(Apply(p, [a] + [b]), c);
    }
  }

  // ---------------------------------------------------------------------------
  // The record

  /** The metadata the record starts with, `stamp` being the formatted upload time. */
  function Metadata(stamp: string, model: string, preset: Option<ProductPreset>, machine: Machine): (m: Payload)
    ensures "action" in m && m["action"] == Str("save_log")
    ensures "timestamp" in m && m["timestamp"] == Str(stamp)
    ensures "model" in m && m["model"] == Str(model)
    ensures "productName" in m && "structure" in m
    ensures preset.None? || preset.value.productName == "" ==> m["productName"] == Str("No Product")
    ensures preset.None? || preset.value.structure == "" ==> m["structure"] == Str("No Structure")
    ensures preset.Some? && preset.value.productName != "" ==> m["productName"] == Str(preset.value.productName)
    ensures preset.Some? && preset.value.structure != "" ==> m["structure"] == Str(preset.value.structure)
    ensures "machineId" in m && m["machineId"] == Str(machine.id)
    ensures "machineName" in m && m["machineName"] == Str(machine.name)
    ensures |m| == 7
  {
    map[
      "action" := Str("save_log"),
      "timestamp" := Str(stamp),
      "model" := Str(model),
      "productName" := Or(if preset.Some? then Str(preset.value.productName) else Undefined, Str("No Product")),
      "structure" := Or(if preset.Some? then Str(preset.value.structure) else Undefined, Str("No Structure")),
      "machineId" := Str(machine.id),
      "machineName" := Str(machine.name)
    ]
  }

  /** The record that is sent, or None when there is no sheet URL or no current
      machine and nothing is built. */
  function UploadPayload(sheetUrl: string, machine: Option<Machine>, preset: Option<ProductPreset>, model: string,
                         now: DateTime, data: seq<ZoneData>): (r: Option<Payload>)
    ensures r.None? <==> sheetUrl == "" || machine.None?
  {
    if sheetUrl == "" || machine.None? then None
    else Some(Apply(Metadata(FormatAppTimestamp(now), model, preset, machine.value), AllWrites(data, preset)))
  }

  /** `handleUploadToSheet` up to the request: the guard, the metadata, then the
      readings of every zone. */
  method BuildPayload(sheetUrl: string, machine: Option<Machine>, preset: Option<ProductPreset>, model: string,
                      now: DateTime, data: seq<ZoneData>) returns (r: Option<Payload>)
    ensures r == UploadPayload(sheetUrl, machine, preset, model, now, data)
  {
    if sheetUrl == "" || machine.None? {
      return None;
    }
    var meta := Metadata(FormatAppTimestamp(now), model, preset, machine.value);
    var payload := WriteZones(meta, data, preset);
    return Some(payload);
  }

  /** The outer loop: the zones in their order, a falsy entry skipped. */
  method WriteZones(meta: Payload, data: seq<ZoneData>, preset: Option<ProductPreset>) returns (payload: Payload)
    ensures payload == Apply(meta, AllWrites(data, preset))
  {
    payload := meta;
    var i := 0;
    while i < |data|
      invariant 0 <= i <= |data|
      invariant payload == Apply(meta, AllWrites(data[..i], preset))
    {
      var readings := data[i].readings;
      AllStep(data, i, preset);
      if readings.Some? {
        payload := WriteZone(payload, readings.value, preset);
        ApplyAppend(meta, AllWrites(data[..i], preset), ZoneWrites(readings.value, preset));
        assert payload == Apply(meta, AllWrites(data[..i], preset) + ZoneWrites(readings.value, preset));
      } else {
        assert AllWrites(data[..i], preset) + [] == AllWrites(data[..i], preset);
      }
      i := i + 1;
    }
    assert data[..i] == data;
  }

  /** The inner loop: one zone's readings written in their order. */
  method WriteZone(payload: Payload, entries: seq<(string, JsValue)>, preset: Option<ProductPreset>)
    returns (q: Payload)
    ensures q == Apply(payload, ZoneWrites(entries, preset))
  {
    q := payload;
    var j := 0;
    while j < |entries|
      invariant 0 <= j <= |entries|
      invariant q == Apply(payload, ZoneWrites(entries[..j], preset))
    {
      var key, val := entries[j].0, entries[j].1;
      q := WriteField(q, key, val, preset);
      ZoneStep(entries, j, preset);
      ApplyAppend(payload, ZoneWrites(entries[..j], preset), FieldWrites(key, val, preset));
      j := j + 1;
    }
    assert entries[..j] == entries;
  }

  /** The body of the inner loop: the reading, then its standard and difference
      when the preset has a standard for its key. */
  method WriteField(q: Payload, key: string, val: JsValue, preset: Option<ProductPreset>) returns (q': Payload)
    ensures q' == Apply(q, FieldWrites(key, val, preset))
  {
    q' := q[key := val];
    var std := StandardOf(preset, key);
    if std.Some? {
      q' := q'["std_" + key := Numeric(Num(std.value))];
      q' := q'["diff_" + key := Numeric(Difference(val, std.value))];
    }
    ApplyFieldWrites(q, key, val, preset);
  }

  lemma {:induction false} ZoneStep(entries: seq<(string, JsValue)>, j: int, preset: Option<ProductPreset>)
    requires 0 <= j < |entries|
    ensures ZoneWrites(entries[..j + 1], preset) == ZoneWrites(entries[..j], preset) + FieldWrites(entries[j].0, entries[j].1, preset)
  {
    assert entries[..j + 1][..j] == entries[..j];
  }

  lemma {:induction false} AllStep(data: seq<ZoneData>, i: int, preset: Option<ProductPreset>)
    requires 0 <= i < |data|
    ensures AllWrites(data[..i + 1], preset) ==
      AllWrites(data[..i], preset) + if data[i].readings.Some? then ZoneWrites(data[i].readings.value, preset) else []
  {
    assert data[..i + 1][..i] == data[..i];
  }

  /** Each key of the sent record holds the value last assigned to it by the
      readings, and otherwise its metadata. */
  lemma {:induction false} PayloadContents(sheetUrl: string, machine: Option<Machine>, preset: Option<ProductPreset>,
                                           model: string, now: DateTime, data: seq<ZoneData>, key: string)
    requires sheetUrl != "" && machine.Some?
    ensures var r := UploadPayload(sheetUrl, machine, preset, model, now, data).value;
      var last := LastWrite(AllWrites(data, preset), key);
      Get(r, key) == if last.Some? then last.value else Get(Metadata(FormatAppTimestamp(now), model, preset, machine.value), key)
  {
    ApplyLookup(Metadata(FormatAppTimestamp(now), model, preset, machine.value), AllWrites(data, preset), key);
  }

  // ---------------------------------------------------------------------------
  // Which keys the readings write

  /** The keys the zones' readings carry. */
  ghost predicate IsReadingKey(data: seq<ZoneData>, k: string)
  {
    exists i, j :: 0 <= i < |data| && data[i].readings.Some? && 0 <= j < |data[i].readings.value| &&
      data[i].readings.value[j].0 == k
  }

  /** An assignment names a reading's key, or its `std_`/`diff_` key when the
      preset has a standard for it. */
  ghost predicate WritesFor(w: Write, data: seq<ZoneData>, preset: Option<ProductPreset>)
  {
    exists k :: IsReadingKey(data, k) &&
      (w.key == k || (StandardOf(preset, k).Some? && (w.key == "std_" + k || w.key == "diff_" + k)))
  }

  /** Nothing but the readings' keys, and the standard and difference keys of the
      readings the preset has standards for, is assigned. */
  lemma {:induction false} WrittenKeys(data: seq<ZoneData>, preset: Option<ProductPreset>)
    ensures forall w :: w in AllWrites(data, preset) ==> WritesFor(w, data, preset)
  {
    if data != [] {
      var init := data[..|data| - 1];
      var last := data[|data| - 1];
      WrittenKeys(init, preset);
      forall w | w in AllWrites(data, preset) ensures WritesFor(w, data, preset) {
        if w in AllWrites(init, preset) {
          var k :| IsReadingKey(init, k) &&
            (w.key == k || (StandardOf(preset, k).Some? && (w.key == "std_" + k || w.key == "diff_" + k)));
          var i, j :| 0 <= i < |init| && init[i].readings.Some? && 0 <= j < |init[i].readings.value| &&
            init[i].readings.value[j].0 == k;
          assert data[i] == init[i];
          assert IsReadingKey(data, k);
        } else {
          var entries := last.readings.value;
          ZoneWrittenKeys(entries, preset, w);
          var j :| 0 <= j < |entries| && (w.key == entries[j].0 ||
            (StandardOf(preset, entries[j].0).Some? && (w.key == "std_" + entries[j].0 || w.key == "diff_" + entries[j].0)));
          assert data[|data| - 1].readings.value[j].0 == entries[j].0;
          assert IsReadingKey(data, entries[j].0);
        }
      }
    }
  }

  lemma {:induction false} ZoneWrittenKeys(entries: seq<(string, JsValue)>, preset: Option<ProductPreset>, w: Write)
    requires w in ZoneWrites(entries, preset)
    ensures exists j :: (0 <= j < |entries| &&
      (w.key == entries[j].0 ||
       (StandardOf(preset, entries[j].0).Some? && (w.key == "std_" + entries[j].0 || w.key == "diff_" + entries[j].0))))
  {
    var init := entries[..|entries| - 1];
    var last := entries[|entries| - 1];
    if w in ZoneWrites(init, preset) {
      ZoneWrittenKeys(init, preset, w);
      var j :| 0 <= j < |init| && (w.key == init[j].0 ||
        (StandardOf(preset, init[j].0).Some? && (w.key == "std_" + init[j].0 || w.key == "diff_" + init[j].0)));
      assert entries[j] == init[j];
    } else {
      assert w in FieldWrites(last.0, last.1, preset);
      assert entries[|entries| - 1] == last;
    }
  }

  // ---------------------------------------------------------------------------
  // Reading the record back

  /** No key ends in `_act` and starts with `std_` the same way: `std_` + k and
      k + `_act` always differ. */
  lemma {:induction false} StdPrefixIsNotActSuffix(k: string)
    ensures "std_" + k != k + "_act"
    decreases |k|
  {
    var x := "std_" + k;
    var y := k + "_act";
    if |k| < 3 {
      assert x[|k|] != y[|k|];
    } else if |k| == 3 {
      if k[0] == 's' { assert x[4] != y[4]; } else { assert x[0] != y[0]; }
    } else if x == y {
      assert k[..4] == x[..4] == "std_";
      var rest := k[4..];
      assert k == "std_" + rest;
      assert "std_" + rest == rest + "_act" by {
        assert y[4..] == rest + "_act";
        assert x[4..] == k;
      }
      StdPrefixIsNotActSuffix(rest);
    }
  }

  /** The dashboard reads a written reading back as its value, when the record has
      no `<key>_act` of its own. */
  lemma {:induction false} ActualReadBack(p: Payload, key: string, v: JsValue, preset: Option<ProductPreset>)
    requires key + "_act" !in p
    ensures LogValue(Apply(p, FieldWrites(key, v, preset)), key, Act) == ParseNumericValue(v)
  {
    FieldWritesFrame(p, key, v, preset);
    StdPrefixIsNotActSuffix(key);
    assert |key + "_act"| != |key| && |key + "_act"| != |"diff_" + key|;
    ActualRead(Apply(p, FieldWrites(key, v, preset)), key, v);
  }

  /** A reading's assignments set its key and leave every key but its companions as it was. */
  lemma {:induction false} FieldWritesFrame(p: Payload, key: string, v: JsValue, preset: Option<ProductPreset>)
    ensures Get(Apply(p, FieldWrites(key, v, preset)), key) == v
    ensures forall k :: k != key && k != "std_" + key && k != "diff_" + key ==>
      Get(Apply(p, FieldWrites(key, v, preset)), k) == Get(p, k)
  {
    ApplyFieldWrites(p, key, v, preset);
    CompanionKeysDiffer(key);
  }

  /** `getLogValue(q, key, 'act')` when `<key>_act` is absent and `<key>` holds the reading. */
  lemma {:induction false} ActualRead(q: Payload, key: string, v: JsValue)
    requires Get(q, key + "_act") == Undefined && Get(q, key) == v
    ensures LogValue(q, key, Act) == ParseNumericValue(v)
  {
    assert key + "_" + Suffix(Act) == key + "_act";
  }

  /** The keys a reading and its companions are written and read under differ
      in length or in their first character. */
  lemma {:induction false} CompanionKeysDiffer(key: string)
    ensures key != "std_" + key && key != "diff_" + key && "std_" + key != "diff_" + key
    ensures key + "_std" != key && key + "_std" != "diff_" + key
    ensures "Std_" + key != key && "Std_" + key != "std_" + key && "Std_" + key != "diff_" + key
    ensures key + "_diff" != key && key + "_diff" != "std_" + key
    ensures "Diff_" + key != key && "Diff_" + key != "std_" + key && "Diff_" + key != "diff_" + key
  {
    assert ("Std_" + key)[0] != ("std_" + key)[0];
    assert ("Diff_" + key)[0] != ("diff_" + key)[0];
  }

  /** `getLogValue(q, key, 'std')` when `std_<key>` holds the standard, `Std_<key>`
      is absent and `<key>_std` is absent or is that same entry. */
  lemma {:induction false} StandardRead(q: Payload, key: string, std: real)
    requires Get(q, "std_" + key) == Numeric(Num(std)) && Get(q, "Std_" + key) == Undefined
    requires Get(q, key + "_std") == Undefined || Get(q, key + "_std") == Numeric(Num(std))
    ensures LogValue(q, key, Std) == Num(std)
  {
    assert key + "_" + Suffix(Std) == key + "_std";
  }

  /** `getLogValue(q, key, 'diff')` when `diff_<key>` holds the difference, `Diff_<key>`
      is absent and `<key>_diff` is absent or is that same entry. */
  lemma {:induction false} DifferenceRead(q: Payload, key: string, d: Number)
    requires Get(q, "diff_" + key) == Numeric(d) && Get(q, "Diff_" + key) == Undefined
    requires Get(q, key + "_diff") == Undefined || Get(q, key + "_diff") == Numeric(d)
    ensures d.Num? && d.r != 0.0 ==> LogValue(q, key, Diff) == d
    ensures d == Num(0.0) ==> LogValue(q, key, Diff) == Num(0.0)
  {
    assert key + "_" + Suffix(Diff) == key + "_diff";
  }

  /** ... reads the standard back as the preset's standard, when the record has no
      `<key>_std` or `Std_<key>` of its own (a standard of 0 is falsy and reads
      through `Std_<key>`, which is absent, as 0 all the same). */
  lemma {:induction false} StandardReadBack(p: Payload, key: string, v: JsValue, preset: Option<ProductPreset>)
    requires StandardOf(preset, key).Some?
    requires key + "_std" !in p && "Std_" + key !in p
    ensures LogValue(Apply(p, FieldWrites(key, v, preset)), key, Std) == Num(StandardOf(preset, key).value)
  {
    var std := StandardOf(preset, key).value;
    ApplyFieldWrites(p, key, v, preset);
    CompanionKeysDiffer(key);
    var q := p[key := v]["std_" + key := Numeric(Num(std))]["diff_" + key := Numeric(Difference(v, std))];
    assert Get(q, "std_" + key) == Numeric(Num(std));
    assert Get(q, "Std_" + key) == Undefined;
    assert Get(q, key + "_std") == if key + "_std" == "std_" + key then Numeric(Num(std)) else Undefined;
    StandardRead(q, key, std);
  }

  /** ... and reads the difference back as the difference, when the record has no
      `<key>_diff` or `Diff_<key>` of its own and the difference is a non-zero
      number; a zero difference reads as 0. */
  lemma {:induction false} DifferenceReadBack(p: Payload, key: string, v: JsValue, preset: Option<ProductPreset>)
    requires StandardOf(preset, key).Some?
    requires key + "_diff" !in p && "Diff_" + key !in p
    ensures var d := Difference(v, StandardOf(preset, key).value);
      var read := LogValue(Apply(p, FieldWrites(key, v, preset)), key, Diff);
      (d.Num? && d.r != 0.0 ==> read == d) && (d == Num(0.0) ==> read == Num(0.0))
  {
    var std := StandardOf(preset, key).value;
    var d := Difference(v, std);
    ApplyFieldWrites(p, key, v, preset);
    CompanionKeysDiffer(key);
    var q := p[key := v]["std_" + key := Numeric(Num(std))]["diff_" + key := Numeric(d)];
    assert Get(q, "diff_" + key) == Numeric(d);
    assert Get(q, "Diff_" + key) == Undefined;
    assert Get(q, key + "_diff") == if key + "_diff" == "diff_" + key then Numeric(d) else Undefined;
    DifferenceRead(q, key, d);
  }

  /** A record whose readings do not overwrite its timestamp is dated, on the
      dashboard, at the upload time, its year taken to be in the 2000s. */
  lemma {:induction false} UploadedRecordIsDated(sheetUrl: string, machine: Option<Machine>, preset: Option<ProductPreset>,
                                                model: string, now: DateTime, data: seq<ZoneData>,
                                                fallback: DateFallback)
    requires sheetUrl != "" && machine.Some?
    requires forall w :: w in AllWrites(data, preset) ==> w.key != "timestamp"
    requires IsCalendarDate(now) && now.year >= 10
    ensures LogDate(UploadPayload(sheetUrl, machine, preset, model, now, data).value, fallback)
         == Some(DateTime(2000 + now.year % 100, now.month, now.day, now.hour, now.minute, now.second))
  {
    var stamp := FormatAppTimestamp(now);
    FormatIsJoined(now);
    assert stamp != "";
    var meta := Metadata(stamp, model, preset, machine.value);
    var payload := Apply(meta, AllWrites(data, preset));
    assert UploadPayload(sheetUrl, machine, preset, model, now, data) == Some(payload);
    TimestampSurvives(meta, AllWrites(data, preset), stamp);
    StampIsTimestampValue(payload, stamp);
    FormatThenParse(now, fallback);
  }

  /** A non-empty `timestamp` string is the record's time, whatever its aliases hold. */
  lemma {:induction false} StampIsTimestampValue(log: Payload, stamp: string)
    requires Get(log, "timestamp") == Str(stamp) && stamp != ""
    ensures TimestampValue(log) == Str(stamp)
  {
  }

  /** Assignments that name other keys leave the metadata's timestamp in place. */
  lemma {:induction false} TimestampSurvives(meta: Payload, w: seq<Write>, stamp: string)
    requires Get(meta, "timestamp") == Str(stamp)
    requires forall x :: x in w ==> x.key != "timestamp"
    ensures Get(Apply(meta, w), "timestamp") == Str(stamp)
  {
    forall i | 0 <= i < |w| ensures w[i].key != "timestamp" {
      assert w[i] in w;
    }
    ApplyLookup(meta, w, "timestamp");
  }
}
