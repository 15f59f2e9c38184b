/** The option lists of the dashboard (components/Dashboard.tsx): the products
    on offer, the chartable fields of the selected machine, every known field,
    the two effects that keep the selections inside those lists, and the field
    tiles and alert flag of a log card. */
module Fields {
  import opened JsRuntime
  import opened Types
  import opened JsArrays
  import opened Sorting
  import opened LogValues
  import opened LogFilter
  import opened Tolerance

  // ---------------------------------------------------------------------------
  // availableProducts

  function ProductNames(logs: seq<LogEntry>): (r: seq<JsValue>)
    ensures |r| == |logs| && forall i :: 0 <= i < |logs| ==> r[i] == ProductNameValue(logs[i])
  {
    seq(|logs|, i requires 0 <= i < |logs| => ProductNameValue(logs[i]))
  }

  lemma {:induction false} ProductNamesMembers(logs: seq<LogEntry>, v: JsValue)
    ensures v in ProductNames(logs) <==> exists log :: log in logs && ProductNameValue(log) == v
  {
    if exists log :: log in logs && ProductNameValue(log) == v {
      var log :| log in logs && ProductNameValue(log) == v;
      var i :| 0 <= i < |logs| && logs[i] == log;
      assert ProductNames(logs)[i] == v;
    }
  }

  function OnMachineOf(machine: string): LogEntry -> bool
  {
    log => MachineIdValue(log) == Str(machine)
  }

  /** The records of the selected machine, all of them for "all". */
  function MachineLogs(logs: seq<LogEntry>, machine: string): (r: seq<LogEntry>)
    ensures forall log :: log in r <==> log in logs && MatchesMachine(log, machine)
  {
    if machine == "all" then logs else Filter(logs, OnMachineOf(machine))
  }

  /** The truthy product names of the selected machine's records, with repetitions. */
  function MachineProductNames(logs: seq<LogEntry>, machine: string): (r: seq<JsValue>)
    ensures forall v :: v in r <==> Truthy(v) && exists log :: log in logs && MatchesMachine(log, machine) && ProductNameValue(log) == v
  {
    var ml := MachineLogs(logs, machine);
    var r := Filter(ProductNames(ml), Truthy);
    forall v ensures v in r <==> Truthy(v) && exists log :: log in logs && MatchesMachine(log, machine) && ProductNameValue(log) == v {
      ProductNamesMembers(ml, v);
    }
    r
  }

  /** `availableProducts`: the distinct truthy product names of the records of
      the selected machine (of all records for "all"), in the default sort
      order, which compares string forms. */
  function AvailableProducts(logs: seq<LogEntry>, machine: string): (r: seq<JsValue>)
    ensures NoDuplicates(r)
    ensures SortedByString(r, ToJsString)
    ensures forall v :: v in r <==>
      Truthy(v) && exists log :: log in logs && MatchesMachine(log, machine) && ProductNameValue(log) == v
  {
    var distinct := Dedupe(MachineProductNames(logs, machine));
    var r := SortByString(distinct, ToJsString);
    NoDuplicatesPermutation(distinct, r);
    forall v ensures v in r <==> v in distinct {
      assert v in r <==> v in multiset(r);
      assert v in distinct <==> v in multiset(distinct);
    }
    r
  }

  // ---------------------------------------------------------------------------
  // machineSpecificFields and allFields

  /** The elements of a list, as a set. */
  function SetOf(s: seq<string>): (r: set<string>)
    ensures forall k :: k in r <==> k in s
  {
    set k | k in s
  }

  /** Every schema key of a list of zones. */
  function ZonesKeySet(zones: seq<ZoneDefinition>): set<string>
  {
    if zones == [] then {}
    else ZonesKeySet(zones[..|zones| - 1]) + SetOf(ZoneSchemaKeys(zones[|zones| - 1]))
  }

  /** Every schema key of every machine. */
  function MachinesKeySet(machines: seq<Machine>): set<string>
  {
    if machines == [] then {}
    else MachinesKeySet(machines[..|machines| - 1]) + ZonesKeySet(machines[|machines| - 1].zones)
  }

  /** A key is collected from a list of zones exactly when one of them has it. */
  lemma {:induction false} ZonesKeySetMembers(zones: seq<ZoneDefinition>, k: string)
    ensures k in ZonesKeySet(zones) <==> exists i :: 0 <= i < |zones| && k in ZoneSchemaKeys(zones[i])
  {
    if zones != [] {
      var init := zones[..|zones| - 1];
      ZonesKeySetMembers(init, k);
      if k in ZonesKeySet(init) {
        var i :| 0 <= i < |init| && k in ZoneSchemaKeys(init[i]);
        assert zones[i] == init[i];
      }
      if exists i :: 0 <= i < |zones| && k in ZoneSchemaKeys(zones[i]) {
        var i :| 0 <= i < |zones| && k in ZoneSchemaKeys(zones[i]);
        if i < |init| { assert zones[i] == init[i]; }
      }
    }
  }

  /** A key is collected from the machines exactly when one of their zones has it. */
  lemma {:induction false} MachinesKeySetMembers(machines: seq<Machine>, k: string)
    ensures k in MachinesKeySet(machines) <==>
      exists i, j :: 0 <= i < |machines| && 0 <= j < |machines[i].zones| && k in ZoneSchemaKeys(machines[i].zones[j])
  {
    if machines != [] {
      var init := machines[..|machines| - 1];
      var last := machines[|machines| - 1];
      MachinesKeySetMembers(init, k);
      ZonesKeySetMembers(last.zones, k);
      if k in MachinesKeySet(init) {
        var i, j :| 0 <= i < |init| && 0 <= j < |init[i].zones| && k in ZoneSchemaKeys(init[i].zones[j]);
        assert machines[i] == init[i];
      }
      if exists i, j :: 0 <= i < |machines| && 0 <= j < |machines[i].zones| && k in ZoneSchemaKeys(machines[i].zones[j]) {
        var i, j :| 0 <= i < |machines| && 0 <= j < |machines[i].zones| && k in ZoneSchemaKeys(machines[i].zones[j]);
        if i < |init| { assert machines[i] == init[i]; }
      }
    }
  }

  /** `zones.forEach(z => Object.keys(schema.properties).forEach(k => fields.add(k)))`. */
  method AddZoneKeys(fields: set<string>, zones: seq<ZoneDefinition>) returns (r: set<string>)
    ensures r == fields + ZonesKeySet(zones)
  {
    r := fields;
    var i := 0;
    while i < |zones|
      invariant 0 <= i <= |zones|
      invariant r == fields + ZonesKeySet(zones[..i])
    {
      var keys := ZoneSchemaKeys(zones[i]);
      var j := 0;
      while j < |keys|
        invariant 0 <= j <= |keys|
        invariant r == fields + ZonesKeySet(zones[..i]) + SetOf(keys[..j])
      {
        assert keys[..j + 1] == keys[..j] + [keys[j]];
        r := r + {keys[j]};
        j := j + 1;
      }
      assert keys[..j] == keys;
      assert zones[..i + 1][..i] == zones[..i];
      i := i + 1;
    }
    assert zones[..i] == zones;
  }


  /** The field set `machineSpecificFields` collects, before sorting: for "all",
      the labelled fields and every schema key; otherwise the schema keys of the
      selected machine (none if it is unknown); "speed" when that is empty. */
  function MachineFieldSet(labels: map<string, string>, machines: seq<Machine>, machine: string): set<string>
  {
    var collected := CollectedFields(labels, machines, machine);
    if collected == {} then {"speed"} else collected
  }

  function CollectedFields(labels: map<string, string>, machines: seq<Machine>, machine: string): set<string>
  {
    if machine == "all" then labels.Keys + MachinesKeySet(machines)
    else match Find(machines, IdIs(machine))
      case None => {}
      case Some(m) => ZonesKeySet(m.zones)
  }

  /** `machineSpecificFields`, built as the source builds it, ends sorted and
      free of repetitions, never empty. */
  method MachineSpecificFields(labels: map<string, string>, machines: seq<Machine>, machine: string)
    returns (r: seq<string>)
    ensures StrictlySorted(r)
    ensures forall k :: k in r <==> k in MachineFieldSet(labels, machines, machine)
    ensures |r| > 0
  {
    var fields: set<string> := {};
    if machine == "all" {
      // the same collection as `allFields`
      fields := AllFields(labels, machines);
    } else {
      var target := Find(machines, IdIs(machine));
      if target.Some? {
        fields := AddZoneKeys(fields, target.value.zones);
      }
    }
    assert fields == CollectedFields(labels, machines, machine);
    if |fields| == 0 {
      fields := fields + {"speed"};
    }
    r := SortedList(fields);
  }

  /** `allFields`: the labelled fields and every schema key of every machine.
      Only membership in it is ever used. */
  method AllFields(labels: map<string, string>, machines: seq<Machine>) returns (fields: set<string>)
    ensures fields == labels.Keys + MachinesKeySet(machines)
  {
    fields := labels.Keys;
    var i := 0;
    while i < |machines|
      invariant 0 <= i <= |machines|
      invariant fields == labels.Keys + MachinesKeySet(machines[..i])
    {
      fields := AddZoneKeys(fields, machines[i].zones);
      assert machines[..i + 1][..i] == machines[..i];
      i := i + 1;
    }
    assert machines[..i] == machines;
  }

  /** With the machine filter at "all", the chartable fields are every known field. */
  lemma {:induction false} AllMachinesOffersAllFields(labels: map<string, string>, machines: seq<Machine>)
    requires labels.Keys + MachinesKeySet(machines) != {}
    ensures MachineFieldSet(labels, machines, "all") == labels.Keys + MachinesKeySet(machines)
  {
  }

  // ---------------------------------------------------------------------------
  // The two reconciliation effects

  /** The product filter falls back to "all" when its product is no longer offered. */
  function ReconcileProduct(product: string, available: seq<JsValue>): (r: string)
    ensures r == "all" || Str(r) in available
    ensures product == "all" || Str(product) in available ==> r == product
    ensures r != product ==> r == "all"
  {
    if product != "all" && Str(product) !in available then "all" else product
  }

  /** The chart field moves to the first offered field when it is no longer offered. */
  function ReconcileField(selected: string, fields: seq<string>): (r: string)
    ensures |fields| > 0 ==> r in fields
    ensures selected in fields || |fields| == 0 ==> r == selected
    ensures r != selected ==> r == fields[0]
  {
    if selected !in fields && |fields| > 0 then fields[0] else selected
  }

  /** The effects settle: applied again, they change nothing. */
  lemma {:induction false} ReconcileIdempotent(product: string, available: seq<JsValue>, selected: string, fields: seq<string>)
    ensures ReconcileProduct(ReconcileProduct(product, available), available) == ReconcileProduct(product, available)
    ensures ReconcileField(ReconcileField(selected, fields), fields) == ReconcileField(selected, fields)
  {
  }

  // ---------------------------------------------------------------------------
  // LogCard

  /** `presets.find(p => p.productName === pName)`, where the card's name falls back to "N/A". */
  function CardPreset(log: LogEntry, presets: seq<ProductPreset>): (r: Option<ProductPreset>)
    ensures r.Some? ==> r.value in presets && Str(r.value.productName) == Or(ProductNameValue(log), Str("N/A"))
    ensures r.None? ==> forall p :: p in presets ==> Str(p.productName) != Or(ProductNameValue(log), Str("N/A"))
  {
    var name := Or(ProductNameValue(log), Str("N/A"));
    Find(presets, (p: ProductPreset) => Str(p.productName) == name)
  }

  /** A field the card shows: its value is not 0 (NaN counts as not 0) or its bare key is present. */
  predicate HasData(log: LogEntry, field: string)
  {
    LogValue(log, field, Act) != Num(0.0) || Get(log, field) != Undefined
  }

  /** `logDataKeys`. */
  function LogDataKeys(log: LogEntry, fields: set<string>): (r: set<string>)
    ensures forall f :: f in r <==> f in fields && HasData(log, f)
  {
    set f | f in fields && HasData(log, f)
  }

  function CardTolerance(log: LogEntry, presets: seq<ProductPreset>, field: string): real
  {
    EffectiveTolerance(ToleranceOf(CardPreset(log, presets), field), field)
  }

  /** The colour of a field tile. */
  function TileBand(log: LogEntry, presets: seq<ProductPreset>, field: string): Band
  {
    Classify(LogValue(log, field, Diff), CardTolerance(log, presets, field))
  }

  /** `hasAlert`: some shown field deviates by more than its tolerance. */
  predicate HasAlert(log: LogEntry, fields: set<string>, presets: seq<ProductPreset>)
  {
    exists f :: f in LogDataKeys(log, fields) && Exceeds(Abs(LogValue(log, f, Diff)), CardTolerance(log, presets, f))
  }

  /** The alert flag is raised exactly when some shown tile is red for a real
      deviation; a NaN deviation paints its tile red without raising the flag. */
  lemma {:induction false} AlertIsRedTile(log: LogEntry, fields: set<string>, presets: seq<ProductPreset>)
    ensures HasAlert(log, fields, presets) <==>
      exists f :: f in LogDataKeys(log, fields) && TileBand(log, presets, f) == Red && LogValue(log, f, Diff).Num?
  {
    forall f | f in LogDataKeys(log, fields)
      ensures Exceeds(Abs(LogValue(log, f, Diff)), CardTolerance(log, presets, f)) <==>
        TileBand(log, presets, f) == Red && LogValue(log, f, Diff).Num?
    {
      ComparisonsWithNaN(Abs(LogValue(log, f, Diff)), CardTolerance(log, presets, f));
    }
  }
}
