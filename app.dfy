/** The derived values and the machine switch of the capture screen (App.tsx):
    the model list, the current machine and preset, the API key in use, the
    preset search of the header, and the state `handleMachineChange` resets. */
module App {
  import opened JsRuntime
  import opened JsArrays
  import opened Types
  import opened Presets

  /** The models offered before any custom model is added. */
  const DefaultModels: seq<ModelConfig> := [
    ModelConfig("gemini-flash-lite-latest", "Gemini Flash Lite"),
    ModelConfig("gemini-3-flash-preview", "Gemini 3.0 Flash"),
    ModelConfig("gemini-3-pro-preview", "Gemini 3.0 Pro")
  ]

  /** The model selected when nothing was stored. */
  const InitialModel: string := "gemini-flash-lite-latest"

  /** `[...DEFAULT_MODELS, ...customModels]`: the defaults first, then the custom
      models in their order. */
  function AvailableModels(customModels: seq<ModelConfig>): (r: seq<ModelConfig>)
    ensures |r| == |DefaultModels| + |customModels|
    ensures r[..|DefaultModels|] == DefaultModels && r[|DefaultModels|..] == customModels
    ensures forall m :: m in r <==> m in DefaultModels || m in customModels
  {
    DefaultModels + customModels
  }

  /** Whatever custom models there are, the initial selection is on the list. */
  lemma {:induction false} InitialModelAvailable(customModels: seq<ModelConfig>)
    ensures exists m :: m in AvailableModels(customModels) && m.id == InitialModel
  {
    assert AvailableModels(customModels)[0] == DefaultModels[0];
  }

  /** `machines.find(m => m.id === currentMachineId) || null`. */
  function CurrentMachine(machines: seq<Machine>, currentMachineId: Option<string>): (r: Option<Machine>)
    ensures r.Some? ==> r.value in machines && currentMachineId == Some(r.value.id)
    ensures r.None? <==> forall m :: m in machines ==> currentMachineId != Some(m.id)
  {
    Find(machines, (m: Machine) => Some(m.id) == currentMachineId)
  }

  /** `presets.find(p => p.id === currentPresetId) || null`. */
  function CurrentPreset(presets: seq<ProductPreset>, currentPresetId: Option<string>): (r: Option<ProductPreset>)
    ensures r.Some? ==> r.value in presets && currentPresetId == Some(r.value.id)
    ensures r.None? <==> forall p :: p in presets ==> currentPresetId != Some(p.id)
  {
    Find(presets, (p: ProductPreset) => Some(p.id) == currentPresetId)
  }

  /** `process.env.API_KEY || ''`: an absent environment key reads as empty. */
  function EnvKey(env: Option<string>): (k: string)
    ensures env.Some? ==> k == env.value
    ensures env.None? ==> k == ""
  {
    if env.Some? then env.value else ""
  }

  /** The key requests are made with: that of the first stored key whose id is
      selected, else the environment's key. */
  function ActiveApiKey(keys: seq<ApiKeyConfig>, selectedApiKeyId: Option<string>, env: Option<string>): (k: string)
    ensures (forall c :: c in keys ==> selectedApiKeyId != Some(c.id)) ==> k == EnvKey(env)
    ensures (exists c :: c in keys && selectedApiKeyId == Some(c.id)) ==>
      exists i :: 0 <= i < |keys| && selectedApiKeyId == Some(keys[i].id) && k == keys[i].key &&
        forall j :: 0 <= j < i ==> selectedApiKeyId != Some(keys[j].id)
  {
    var custom := Find(keys, (c: ApiKeyConfig) => Some(c.id) == selectedApiKeyId);
    if custom.Some? then custom.value.key else EnvKey(env)
  }

  /** The header's preset list: nothing before a machine is chosen, else the
      machine's presets matching the search. */
  function FilteredPresets(presets: seq<ProductPreset>, currentMachineId: Option<string>, productSearch: string)
    : (r: seq<ProductPreset>)
    ensures currentMachineId.None? || currentMachineId == Some("") ==> r == []
    ensures currentMachineId.Some? && currentMachineId.value != "" ==>
      r == MachinePresets(presets, currentMachineId, productSearch)
  {
    if currentMachineId.None? || currentMachineId.value == "" then []
    else MachinePresets(presets, currentMachineId, productSearch)
  }

  /** A preset is listed exactly when it belongs to the chosen (non-empty) machine
      and matches the search; the listing keeps the order of `presets`. */
  lemma {:induction false} FilteredPresetsExactly(presets: seq<ProductPreset>, currentMachineId: Option<string>,
                                                  productSearch: string)
    ensures forall p :: p in FilteredPresets(presets, currentMachineId, productSearch) <==>
      p in presets && currentMachineId != Some("") && OnMachine(p, currentMachineId) && MatchesSearch(p, productSearch)
    ensures currentMachineId != Some("") ==>
      (FilteredPresets(presets, currentMachineId, productSearch)
         == Filter(presets, Both(OnMachineOf(currentMachineId), MatchesSearchOf(productSearch))))
  {
    MachinePresetsInOrder(presets, currentMachineId, productSearch);
  }

  /** The capture screen's state that a change of machine touches. */
  class CaptureSession {
    var currentMachineId: Option<string>
    var activeZoneId: Option<string>
    var data: seq<ZoneData>
    var uiState: map<string, ProcessingState>
    var currentPresetId: Option<string>
    var selectedModel: string

    /** The initial state: no machine, zone or preset, no readings, the initial model. */
    constructor()
      ensures currentMachineId.None? && activeZoneId.None? && currentPresetId.None?
      ensures data == [] && uiState == map[] && selectedModel == InitialModel
    {
      currentMachineId := None;
      activeZoneId := None;
      data := [];
      uiState := map[];
      currentPresetId := None;
      selectedModel := InitialModel;
    }

    /** `handleMachineChange(id)`: select the machine (an empty id selects none,
        since `id || null` maps it to null), and drop the active zone, the readings and the zones' states; the preset
        and the model stay. */
    method MachineChange(id: Option<string>)
      modifies this
      ensures currentMachineId == (if id == Some("") then None else id)
      ensures activeZoneId.None? && data == [] && uiState == map[]
      ensures currentPresetId == old(currentPresetId) && selectedModel == old(selectedModel)
    {
      currentMachineId := if id.Some? && id.value != "" then id else None;
      activeZoneId := None;
      data := [];
      uiState := map[];
    }
  }
}
