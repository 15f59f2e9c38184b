/** The settings dialog (components/SettingsModal.tsx): the field keys the
    current machine's zone schemas declare, its preset list, and the edits it
    makes to machines, presets, labels, API keys, script URLs and models. Each
    tab's form is a class whose methods are the dialog's handlers. */
module Settings {
  import opened JsRuntime
  import opened JsArrays
  import opened Types
  import opened Presets
  import App

  // ---------------------------------------------------------------------------
  // The schema keys of the current machine

  /** The property keys of the zones' schemas, zone after zone; a zone whose
      schema does not parse, or has no `properties`, contributes none. */
  function AllSchemaKeys(zones: seq<ZoneDefinition>): seq<string>
  {
    if zones == [] then []
    else
      var last := zones[|zones| - 1];
      AllSchemaKeys(zones[..|zones| - 1]) + ZoneSchemaKeys(last)
  }

  /** A key is listed exactly when some zone's schema declares it. */
  lemma {:induction false} ZoneKeysMembership(zones: seq<ZoneDefinition>, k: string)
    ensures k in AllSchemaKeys(zones) <==> exists z :: z in zones && z.schemaKeys.Some? && k in z.schemaKeys.value
  {
    if zones != [] {
      var init := zones[..|zones| - 1];
      var last := zones[|zones| - 1];
      ZoneKeysMembership(init, k);
      assert zones == init + [last];
      if k in AllSchemaKeys(zones) && !(k in AllSchemaKeys(init)) {
        assert last in zones;
      }
    }
  }

  /** `currentMachineSchemaKeys`: the keys the current machine's zones declare,
      each once, in the order they are first met; none without a current machine. */
  function SchemaKeys(machines: seq<Machine>, currentMachineId: Option<string>): (r: seq<string>)
    ensures NoDuplicates(r)
    ensures App.CurrentMachine(machines, currentMachineId).None? ==> r == []
    ensures App.CurrentMachine(machines, currentMachineId).Some? ==>
      (forall k :: k in r <==> (exists z :: z in App.CurrentMachine(machines, currentMachineId).value.zones &&
                                             z.schemaKeys.Some? && k in z.schemaKeys.value))
  {
    match App.CurrentMachine(machines, currentMachineId)
    case None => []
    case Some(m) =>
      forall k ensures k in AllSchemaKeys(m.zones) <==> exists z :: z in m.zones && z.schemaKeys.Some? && k in z.schemaKeys.value {
        ZoneKeysMembership(m.zones, k);
      }
      Dedupe(AllSchemaKeys(m.zones))
  }

  /** The memo's loops: each zone's keys added to a set that keeps insertion order. */
  method CurrentMachineSchemaKeys(machines: seq<Machine>, currentMachineId: Option<string>) returns (keys: seq<string>)
    ensures keys == SchemaKeys(machines, currentMachineId)
  {
    var machine := App.CurrentMachine(machines, currentMachineId);
    if machine.None? {
      return [];
    }
    keys := CollectZoneKeys(machine.value.zones);
  }

  /** The outer loop, over the zones. */
  method CollectZoneKeys(zones: seq<ZoneDefinition>) returns (keys: seq<string>)
    ensures keys == Dedupe(AllSchemaKeys(zones))
  {
    keys := [];
    var i := 0;
    while i < |zones|
      invariant 0 <= i <= |zones|
      invariant keys == Dedupe(AllSchemaKeys(zones[..i]))
    {
      assert zones[..i + 1][..i] == zones[..i];
      assert zones[..i + 1][i] == zones[i];
      if zones[i].schemaKeys.Some? {
        assert AllSchemaKeys(zones[..i + 1]) == AllSchemaKeys(zones[..i]) + zones[i].schemaKeys.value;
        keys := AddKeys(keys, AllSchemaKeys(zones[..i]), zones[i].schemaKeys.value);
      } else {
        assert AllSchemaKeys(zones[..i + 1]) == AllSchemaKeys(zones[..i]) + [];
        assert AllSchemaKeys(zones[..i]) + [] == AllSchemaKeys(zones[..i]);
      }
      i := i + 1;
    }
    assert zones[..i] == zones;
  }

  /** The inner loop: one zone's keys added to those of the zones before it. */
  method AddKeys(keys: seq<string>, seen: seq<string>, declared: seq<string>) returns (out: seq<string>)
    requires keys == Dedupe(seen)
    ensures out == Dedupe(seen + declared)
  {
    out := keys;
    var j := 0;
    assert seen + declared[..0] == seen;
    while j < |declared|
      invariant 0 <= j <= |declared|
      invariant out == Dedupe(seen + declared[..j])
    {
      var k := declared[j];
      assert (seen + declared[..j]) + [k] == seen + declared[..j + 1];
      if k !in out {
        DedupeOfNew(seen + declared[..j], k);
        out := out + [k];
      } else {
        DedupeOfRepeat(seen + declared[..j], k);
      }
      j := j + 1;
    }
    assert declared[..j] == declared;
  }

  // ---------------------------------------------------------------------------
  // The preset list

  /** The dialog's preset list: the presets of the current machine matching the search. */
  function FilteredPresets(presets: seq<ProductPreset>, currentMachineId: Option<string>, presetSearch: string)
    : (r: seq<ProductPreset>)
    ensures forall p :: p in r <==> p in presets && OnMachine(p, currentMachineId) && MatchesSearch(p, presetSearch)
  {
    MachinePresets(presets, currentMachineId, presetSearch)
  }

  /** The dialog lists what the header lists, except for an empty machine id, which
      the header treats as no machine and the dialog compares like any other. */
  lemma {:induction false} HeaderAgreesWithDialog(presets: seq<ProductPreset>, currentMachineId: Option<string>,
                                                  search: string)
    ensures currentMachineId != Some("") ==>
      App.FilteredPresets(presets, currentMachineId, search) == FilteredPresets(presets, currentMachineId, search)
    ensures currentMachineId == Some("") ==>
      (App.FilteredPresets(presets, currentMachineId, search) == [] &&
       forall p :: p in FilteredPresets(presets, currentMachineId, search) <==>
         p in presets && p.machineId == Some("") && MatchesSearch(p, search))
  {
  }

  // ---------------------------------------------------------------------------
  // Machines

  /** The machine being edited: every field may still be missing. */
  datatype MachineDraft = MachineDraft(id: Option<string>, name: Option<string>, zones: Option<seq<ZoneDefinition>>)

  /** `!editMachine.name?.trim()`: no name, or only whitespace. */
  predicate NameIsBlank(draft: MachineDraft)
  {
    draft.name.None? || Trim(draft.name.value) == ""
  }

  /** `editMachine.id` is truthy. */
  predicate HasId(draft: MachineDraft)
  {
    draft.id.Some? && draft.id.value != ""
  }

  /** The id a new machine gets: `m_` and the time of the save. */
  function FreshMachineId(stamp: nat): (id: string)
    ensures |id| > 2 && id[..2] == "m_"
    ensures AllDigits(id[2..]) && DigitsValue(id[2..]) == stamp
  {
    var id := "m_" + NatToString(stamp);
    assert id[2..] == NatToString(stamp);
    id
  }

  /** Index `i` holds the first machine with that id. */
  predicate FirstWithId(machines: seq<Machine>, id: string, i: int)
  {
    0 <= i < |machines| && machines[i].id == id && forall j :: 0 <= j < i ==> machines[j].id != id
  }

  /** The machine a save writes: the draft's id or a fresh one, the trimmed name,
      the zones or none. */
  function SavedMachine(draft: MachineDraft, stamp: nat): (m: Machine)
    requires !NameIsBlank(draft)
    ensures m.id == if HasId(draft) then draft.id.value else FreshMachineId(stamp)
    ensures m.name == Trim(draft.name.value) && m.name != ""
    ensures m.zones == if draft.zones.Some? then draft.zones.value else []
  {
    Machine(if HasId(draft) then draft.id.value else FreshMachineId(stamp),
            Trim(draft.name.value),
            if draft.zones.Some? then draft.zones.value else [])
  }

  /** The list after `handleSaveMachine`: unchanged for a blank name; the saved
      machine appended when the draft has no id; put in place of the first machine
      with the draft's id otherwise, and nothing changes when there is none (the
      assignment at index -1 adds no element). */
  function SavedMachines(machines: seq<Machine>, draft: MachineDraft, stamp: nat): (r: seq<Machine>)
    ensures NameIsBlank(draft) ==> r == machines
    ensures !NameIsBlank(draft) && !HasId(draft) ==> r == machines + [SavedMachine(draft, stamp)]
    ensures !NameIsBlank(draft) && HasId(draft) ==> |r| == |machines|
    ensures !NameIsBlank(draft) && HasId(draft) ==>
      (forall i :: 0 <= i < |machines| ==>
         r[i] == if FirstWithId(machines, draft.id.value, i) then SavedMachine(draft, stamp) else machines[i])
  {
    if NameIsBlank(draft) then machines
    else
      var m := SavedMachine(draft, stamp);
      if HasId(draft) then ReplaceFirstWithId(machines, draft.id.value, m)
      else machines + [m]
  }

  /** `machines[findIndex(id)] = m`: the first machine with the id replaced, and
      no change when there is none. */
  function ReplaceFirstWithId(machines: seq<Machine>, id: string, m: Machine): (r: seq<Machine>)
    ensures |r| == |machines|
    ensures forall i :: 0 <= i < |machines| ==> r[i] == if FirstWithId(machines, id, i) then m else machines[i]
  {
    var idx := FindIndex(machines, IdIs(id));
    if idx >= 0 then machines[idx := m] else machines
  }

  /** `const idx = newMachines.findIndex(m => m.id === id); newMachines[idx] = m`. */
  method AssignFirstWithId(machines: seq<Machine>, id: string, m: Machine) returns (r: seq<Machine>)
    ensures r == ReplaceFirstWithId(machines, id, m)
  {
    r := machines;
    var idx := FindIndex(r, IdIs(id));
    if idx >= 0 {
      r := r[idx := m];
    }
  }

  /** An edit that is saved keeps every machine's id except possibly a new one
      appended: no machine disappears. */
  lemma {:induction false} SaveKeepsMachines(machines: seq<Machine>, draft: MachineDraft, stamp: nat, id: string)
    requires exists m :: m in machines && m.id == id
    ensures exists m :: m in SavedMachines(machines, draft, stamp) && m.id == id
  {
    var m :| m in machines && m.id == id;
    var i :| 0 <= i < |machines| && machines[i] == m;
    var r := SavedMachines(machines, draft, stamp);
    if !NameIsBlank(draft) && !HasId(draft) {
      assert r[i] == m;
    } else if !NameIsBlank(draft) && HasId(draft) {
      assert r[i] == m || r[i] == SavedMachine(draft, stamp);
      assert r[i].id == id;
    }
  }

  /** The machine tab's state. */
  class MachineEditor {
    var machines: seq<Machine>
    var editMachine: MachineDraft
    var isEditingMachine: bool

    constructor(machines: seq<Machine>)
      ensures this.machines == machines && editMachine == MachineDraft(None, None, Some([])) && !isEditingMachine
    {
      this.machines := machines;
      editMachine := MachineDraft(None, None, Some([]));
      isEditingMachine := false;
    }

    /** `handleSaveMachine`, with the time of the save passed in; the request that
        stores the list is not modelled. */
    method SaveMachine(stamp: nat)
      modifies this
      ensures machines == SavedMachines(old(machines), old(editMachine), stamp)
      ensures isEditingMachine == if NameIsBlank(old(editMachine)) then old(isEditingMachine) else false
      ensures editMachine == old(editMachine)
    {
      if NameIsBlank(editMachine) {
        return;
      }
      var newMachines := machines;
      var newMachine := SavedMachine(editMachine, stamp);
      if HasId(editMachine) {
        newMachines := AssignFirstWithId(newMachines, editMachine.id.value, newMachine);
      } else {
        newMachines := newMachines + [newMachine];
      }
      assert newMachines == SavedMachines(machines, editMachine, stamp);
      machines := newMachines;
      isEditingMachine := false;
    }

    /** The delete button: every machine with that id goes, the rest keep their order. */
    method RemoveMachine(id: string)
      modifies this
      ensures machines == Filter(old(machines), (x: Machine) => x.id != id)
      ensures forall m :: m in machines <==> m in old(machines) && m.id != id
      ensures editMachine == old(editMachine) && isEditingMachine == old(isEditingMachine)
    {
      machines := Filter(machines, (x: Machine) => x.id != id);
    }
  }

  // ---------------------------------------------------------------------------
  // Presets

  /** The body of the `save_standard` request. */
  datatype SaveStandard = SaveStandard(
    id: Option<string>,
    productName: string,
    structure: string,
    data: map<string, real>,
    tolerances: map<string, real>,
    machineId: string)

  /** `p => p.productName === name`. */
  function NamedOf(name: string): ProductPreset -> bool
  {
    (p: ProductPreset) => p.productName == name
  }

  /** The id sent with a save: when editing, that of the first preset named
      `name`; none when creating. */
  function EditedId(presets: seq<ProductPreset>, name: string, isEditing: bool): (id: Option<string>)
    ensures !isEditing ==> id.None?
    ensures isEditing ==> (id.Some? <==> exists p :: p in presets && p.productName == name)
    ensures id.Some? ==>
      exists i :: 0 <= i < |presets| && presets[i].productName == name && presets[i].id == id.value &&
        forall j :: 0 <= j < i ==> presets[j].productName != name
  {
    if isEditing then
      match Find(presets, NamedOf(name))
      case None => None
      case Some(p) => Some(p.id)
    else None
  }

  /** What `handleCreatePreset` sends, or None when it refuses: a blank name or
      structure, or no machine. When editing, the id is that of the first preset
      whose name equals the (untrimmed) name in the form. */
  function CreateRequest(name: string, structure: string, data: map<string, real>, tolerances: map<string, real>,
                         isEditing: bool, presets: seq<ProductPreset>, currentMachineId: Option<string>)
    : (r: Option<SaveStandard>)
    ensures r.None? <==> Trim(name) == "" || Trim(structure) == "" || currentMachineId.None? || currentMachineId.value == ""
    ensures r.Some? ==> r.value.productName == Trim(name) && r.value.structure == Trim(structure)
    ensures r.Some? ==> r.value.data == data && r.value.tolerances == tolerances && Some(r.value.machineId) == currentMachineId
    ensures r.Some? ==> r.value.id == EditedId(presets, name, isEditing)
  {
    if Trim(name) == "" || Trim(structure) == "" || currentMachineId.None? || currentMachineId.value == "" then None
    else Some(SaveStandard(EditedId(presets, name, isEditing), Trim(name), Trim(structure), data, tolerances,
                           currentMachineId.value))
  }

  /** The guard and the payload of `handleCreatePreset`. */
  method BuildRequest(name: string, structure: string, data: map<string, real>, tolerances: map<string, real>,
                      isEditing: bool, presets: seq<ProductPreset>, currentMachineId: Option<string>)
    returns (request: Option<SaveStandard>)
    ensures request == CreateRequest(name, structure, data, tolerances, isEditing, presets, currentMachineId)
  {
    if Trim(name) == "" || Trim(structure) == "" || currentMachineId.None? || currentMachineId.value == "" {
      return None;
    }
    var id := EditedId(presets, name, isEditing);
    request := Some(SaveStandard(id, Trim(name), Trim(structure), data, tolerances, currentMachineId.value));
  }

  /** Saving a preset opened for editing, unchanged, updates that preset — when
      no earlier preset bears the same name. */
  lemma {:induction false} EditedPresetKeepsItsId(presets: seq<ProductPreset>, i: int, currentMachineId: Option<string>)
    requires 0 <= i < |presets| && forall j :: 0 <= j < i ==> presets[j].productName != presets[i].productName
    requires Trim(presets[i].productName) != "" && Trim(presets[i].structure) != ""
    requires currentMachineId.Some? && currentMachineId.value != ""
    ensures var p := presets[i];
      CreateRequest(p.productName, p.structure, p.data, p.tolerances, true, presets, currentMachineId)
      == Some(SaveStandard(Some(p.id), Trim(p.productName), Trim(p.structure), p.data, p.tolerances, currentMachineId.value))
  {
    var p := presets[i];
    var id := EditedId(presets, p.productName, true);
    var k :| 0 <= k < |presets| && presets[k].productName == p.productName && presets[k].id == id.value &&
      forall j :: 0 <= j < k ==> presets[j].productName != p.productName;
    assert k == i;
  }

  /** The preset tab's form. */
  class PresetForm {
    var newProductName: string
    var newStructure: string
    var newData: map<string, real>
    var newTolerances: map<string, real>
    var isEditing: bool
    var isCreating: bool

    constructor()
      ensures newProductName == "" && newStructure == "" && newData == map[] && newTolerances == map[]
      ensures !isEditing && !isCreating
    {
      newProductName, newStructure := "", "";
      newData, newTolerances := map[], map[];
      isEditing, isCreating := false, false;
    }

    /** `handleEditPreset`: the form holds the preset, in edit mode. */
    method EditPreset(p: ProductPreset)
      modifies this
      ensures newProductName == p.productName && newStructure == p.structure
      ensures newData == p.data && newTolerances == p.tolerances
      ensures isEditing && isCreating
    {
      newProductName, newStructure := p.productName, p.structure;
      newData, newTolerances := p.data, p.tolerances;
      isEditing, isCreating := true, true;
    }

    /** `handleCopyPreset`: the form holds a copy named `<name> (Copy)`, to be created. */
    method CopyPreset(p: ProductPreset)
      modifies this
      ensures newProductName == p.productName + " (Copy)" && newStructure == p.structure
      ensures newData == p.data && newTolerances == p.tolerances
      ensures !isEditing && isCreating
    {
      newProductName := p.productName + " (Copy)";
      newStructure := p.structure;
      newData, newTolerances := p.data, p.tolerances;
      isEditing, isCreating := false, true;
    }

    /** `handleCreatePreset`: the request it sends, or None when it refuses. After
        a request (taken to succeed) the form leaves create and edit mode; after a
        refusal it is unchanged. */
    method CreatePreset(presets: seq<ProductPreset>, currentMachineId: Option<string>)
      returns (request: Option<SaveStandard>)
      modifies this
      ensures request == CreateRequest(old(newProductName), old(newStructure), old(newData), old(newTolerances),
                                       old(isEditing), presets, currentMachineId)
      ensures newProductName == old(newProductName) && newStructure == old(newStructure)
      ensures newData == old(newData) && newTolerances == old(newTolerances)
      ensures request.None? ==> isEditing == old(isEditing) && isCreating == old(isCreating)
      ensures request.Some? ==> !isEditing && !isCreating
    {
      request := BuildRequest(newProductName, newStructure, newData, newTolerances, isEditing, presets,
                              currentMachineId);
      if request.Some? {
        isCreating, isEditing := false, false;
      }
    }
  }

  // ---------------------------------------------------------------------------
  // Labels

  /** `{...fieldLabels, [key]: value}`, skipped for an empty key. */
  function WithLabel(labels: map<string, string>, key: string, value: string): (r: map<string, string>)
    ensures key == "" ==> r == labels
    ensures key != "" ==> key in r && r[key] == value
    ensures forall k :: k != key ==> (k in r <==> k in labels) && (k in r ==> r[k] == labels[k])
  {
    if key == "" then labels else labels[key := value]
  }

  /** A copy of the labels with `key` deleted. */
  function WithoutLabel(labels: map<string, string>, key: string): (r: map<string, string>)
    ensures key !in r
    ensures forall k :: k != key ==> (k in r <==> k in labels) && (k in r ==> r[k] == labels[k])
  {
    labels - {key}
  }

  /** Deleting a label just added restores the labels, when the key was new. */
  lemma {:induction false} DeleteUndoesAdd(labels: map<string, string>, key: string, value: string)
    requires key !in labels
    ensures WithoutLabel(WithLabel(labels, key, value), key) == labels
  {
    var r := WithoutLabel(WithLabel(labels, key, value), key);
    assert forall k :: k in r <==> k in labels;
  }

  /** The label tab's state. */
  class LabelEditor {
    var fieldLabels: map<string, string>
    var newLabelKey: string
    var newLabelVal: string

    constructor(labels: map<string, string>)
      ensures fieldLabels == labels && newLabelKey == "" && newLabelVal == ""
    {
      fieldLabels, newLabelKey, newLabelVal := labels, "", "";
    }

    /** The add button: a no-op for an empty key; otherwise sets that one label
        and clears the form. */
    method AddLabel()
      modifies this
      ensures fieldLabels == WithLabel(old(fieldLabels), old(newLabelKey), old(newLabelVal))
      ensures old(newLabelKey) == "" ==> newLabelVal == old(newLabelVal) && newLabelKey == ""
      ensures old(newLabelKey) != "" ==> newLabelKey == "" && newLabelVal == ""
    {
      if newLabelKey == "" {
        return;
      }
      fieldLabels := fieldLabels[newLabelKey := newLabelVal];
      newLabelKey, newLabelVal := "", "";
    }

    /** The delete button: that label goes, every other stays. */
    method DeleteLabel(key: string)
      modifies this
      ensures fieldLabels == WithoutLabel(old(fieldLabels), key)
      ensures newLabelKey == old(newLabelKey) && newLabelVal == old(newLabelVal)
    {
      fieldLabels := fieldLabels - {key};
    }
  }

  // ---------------------------------------------------------------------------
  // API keys, script URLs and models

  /** The AI and cloud tabs' state. */
  class ConfigForm {
    var apiKeys: seq<ApiKeyConfig>
    var scriptUrls: seq<ScriptUrl>
    var customModels: seq<ModelConfig>
    var newKeyName: string
    var newKeyValue: string
    var newScriptName: string
    var newScriptValue: string
    var newModelId: string
    var newModelName: string

    constructor(apiKeys: seq<ApiKeyConfig>, scriptUrls: seq<ScriptUrl>, customModels: seq<ModelConfig>)
      ensures this.apiKeys == apiKeys && this.scriptUrls == scriptUrls && this.customModels == customModels
      ensures newKeyName == "" && newKeyValue == "" && newScriptName == "" && newScriptValue == ""
      ensures newModelId == "" && newModelName == ""
    {
      this.apiKeys, this.scriptUrls, this.customModels := apiKeys, scriptUrls, customModels;
      newKeyName, newKeyValue, newScriptName, newScriptValue := "", "", "", "";
      newModelId, newModelName := "", "";
    }

    /** `handleAddApiKey`, with the time passed in for the id: a no-op when either
        field is empty; otherwise one key appended and both fields cleared. */
    method AddApiKey(stamp: nat)
      modifies this
      ensures old(newKeyName) == "" || old(newKeyValue) == "" ==>
        apiKeys == old(apiKeys) && newKeyName == old(newKeyName) && newKeyValue == old(newKeyValue)
      ensures old(newKeyName) != "" && old(newKeyValue) != "" ==>
        apiKeys == old(apiKeys) + [ApiKeyConfig("key_" + NatToString(stamp), old(newKeyName), old(newKeyValue))] &&
        newKeyName == "" && newKeyValue == ""
      ensures scriptUrls == old(scriptUrls) && customModels == old(customModels)
      ensures newScriptName == old(newScriptName) && newScriptValue == old(newScriptValue)
      ensures newModelId == old(newModelId) && newModelName == old(newModelName)
    {
      if newKeyName == "" || newKeyValue == "" {
        return;
      }
      apiKeys := apiKeys + [ApiKeyConfig("key_" + NatToString(stamp), newKeyName, newKeyValue)];
      newKeyName, newKeyValue := "", "";
    }

    /** `handleAddScriptUrl`, likewise. */
    method AddScriptUrl(stamp: nat)
      modifies this
      ensures old(newScriptName) == "" || old(newScriptValue) == "" ==>
        scriptUrls == old(scriptUrls) && newScriptName == old(newScriptName) && newScriptValue == old(newScriptValue)
      ensures old(newScriptName) != "" && old(newScriptValue) != "" ==>
        scriptUrls == old(scriptUrls) + [ScriptUrl("script_" + NatToString(stamp), old(newScriptName), old(newScriptValue))] &&
        newScriptName == "" && newScriptValue == ""
      ensures apiKeys == old(apiKeys) && customModels == old(customModels)
      ensures newKeyName == old(newKeyName) && newKeyValue == old(newKeyValue)
      ensures newModelId == old(newModelId) && newModelName == old(newModelName)
    {
      if newScriptName == "" || newScriptValue == "" {
        return;
      }
      scriptUrls := scriptUrls + [ScriptUrl("script_" + NatToString(stamp), newScriptName, newScriptValue)];
      newScriptName, newScriptValue := "", "";
    }

    /** `handleAddCustomModel`: the id is the one typed in. */
    method AddCustomModel()
      modifies this
      ensures old(newModelId) == "" || old(newModelName) == "" ==>
        customModels == old(customModels) && newModelId == old(newModelId) && newModelName == old(newModelName)
      ensures old(newModelId) != "" && old(newModelName) != "" ==>
        customModels == old(customModels) + [ModelConfig(old(newModelId), old(newModelName))] &&
        newModelId == "" && newModelName == ""
      ensures apiKeys == old(apiKeys) && scriptUrls == old(scriptUrls)
      ensures newKeyName == old(newKeyName) && newKeyValue == old(newKeyValue)
      ensures newScriptName == old(newScriptName) && newScriptValue == old(newScriptValue)
    {
      if newModelId == "" || newModelName == "" {
        return;
      }
      customModels := customModels + [ModelConfig(newModelId, newModelName)];
      newModelId, newModelName := "", "";
    }

    /** Removing a key drops exactly the keys with that id. */
    method RemoveApiKey(id: string)
      modifies this
      ensures apiKeys == Filter(old(apiKeys), (x: ApiKeyConfig) => x.id != id)
      ensures forall k :: k in apiKeys <==> k in old(apiKeys) && k.id != id
      ensures scriptUrls == old(scriptUrls) && customModels == old(customModels)
      ensures newKeyName == old(newKeyName) && newKeyValue == old(newKeyValue)
      ensures newScriptName == old(newScriptName) && newScriptValue == old(newScriptValue)
      ensures newModelId == old(newModelId) && newModelName == old(newModelName)
    {
      apiKeys := Filter(apiKeys, (x: ApiKeyConfig) => x.id != id);
    }

    /** Removing a script drops exactly the scripts with that id. */
    method RemoveScriptUrl(id: string)
      modifies this
      ensures scriptUrls == Filter(old(scriptUrls), (x: ScriptUrl) => x.id != id)
      ensures forall s :: s in scriptUrls <==> s in old(scriptUrls) && s.id != id
      ensures apiKeys == old(apiKeys) && customModels == old(customModels)
      ensures newKeyName == old(newKeyName) && newKeyValue == old(newKeyValue)
      ensures newScriptName == old(newScriptName) && newScriptValue == old(newScriptValue)
      ensures newModelId == old(newModelId) && newModelName == old(newModelName)
    {
      scriptUrls := Filter(scriptUrls, (x: ScriptUrl) => x.id != id);
    }

    /** Removing a model drops exactly the custom models with that id; the
        defaults are not in this list and stay available. */
    method RemoveCustomModel(id: string)
      modifies this
      ensures customModels == Filter(old(customModels), (x: ModelConfig) => x.id != id)
      ensures forall m :: m in customModels <==> m in old(customModels) && m.id != id
      ensures apiKeys == old(apiKeys) && scriptUrls == old(scriptUrls)
      ensures newKeyName == old(newKeyName) && newKeyValue == old(newKeyValue)
      ensures newScriptName == old(newScriptName) && newScriptValue == old(newScriptValue)
      ensures newModelId == old(newModelId) && newModelName == old(newModelName)
      ensures forall m :: m in App.DefaultModels ==> m in App.AvailableModels(customModels)
    {
      customModels := Filter(customModels, (x: ModelConfig) => x.id != id);
    }
  }

  /** A model just added is offered last. */
  lemma {:induction false} AddedModelIsOfferedLast(customModels: seq<ModelConfig>, m: ModelConfig)
    ensures var offered := App.AvailableModels(customModels + [m]);
      offered[|offered| - 1] == m && offered[..|offered| - 1] == App.AvailableModels(customModels)
  {
  }
}
