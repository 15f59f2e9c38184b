/** The record, preset and machine shapes of types.ts, and its tolerance defaults. */
module Types {
  import opened JsRuntime

  /** One row of the measurement log: arbitrary keys to loosely typed values. */
  type LogEntry = map<string, JsValue>

  /** `log[key]`: a key the record lacks reads as undefined. */
  function Get(log: LogEntry, key: string): (v: JsValue)
    ensures key !in log ==> v == Undefined
    ensures key in log ==> v == log[key]
  {
    if key in log then log[key] else Undefined
  }

  /** A zone of a machine. Its JSON schema is kept as the result of parsing it:
      the keys of its `properties` object, in order, or None when the schema does
      not parse or has no `properties`. */
  datatype ZoneDefinition = ZoneDefinition(id: string, name: string, prompt: string, schemaKeys: Option<seq<string>>)

  /** The property keys of a zone's schema; a schema that does not parse adds none. */
  function ZoneSchemaKeys(z: ZoneDefinition): seq<string>
  {
    if z.schemaKeys.Some? then z.schemaKeys.value else []
  }

  datatype Machine = Machine(id: string, name: string, zones: seq<ZoneDefinition>)

  /** `m => m.id === id`. */
  function IdIs(id: string): Machine -> bool
  {
    (m: Machine) => m.id == id
  }

  /** A standard preset. `data` and `tolerances` map a field key to its standard
      value and its tolerance; a key outside the map is undefined. */
  datatype ProductPreset = ProductPreset(
    id: string,
    productName: string,
    structure: string,
    data: map<string, real>,
    tolerances: map<string, real>,
    machineId: Option<string>)

  datatype ApiKeyConfig = ApiKeyConfig(id: string, name: string, key: string)

  datatype ModelConfig = ModelConfig(id: string, name: string)

  datatype ScriptUrl = ScriptUrl(id: string, name: string, url: string)

  /** What a zone's analysis shows: running, failed, or the picture it read. */
  datatype ProcessingState = ProcessingState(isAnalyzing: bool, error: Option<string>, imageUrl: Option<string>)

  /** One entry of the capture screen's `data`: a zone id and the readings its
      analysis returned, key by key in their order, or None for a falsy entry. */
  datatype ZoneData = ZoneData(zoneId: string, readings: Option<seq<(string, JsValue)>>)

  /** `preset.tolerances?.[key]`. */
  function ToleranceOf(preset: Option<ProductPreset>, key: string): (t: Option<real>)
    ensures t.Some? <==> preset.Some? && key in preset.value.tolerances
    ensures t.Some? ==> t.value == preset.value.tolerances[key]
  {
    if preset.Some? && key in preset.value.tolerances then Some(preset.value.tolerances[key]) else None
  }

  /** The display labels the application starts with. */
  const FieldLabels: map<string, string> := map[
    "unwind2" := "Unwind 2 (Kg)",
    "rewind" := "Rewind (Kg)",
    "unwind1" := "Unwind 1 (Kg)",
    "infeed" := "Infeed (Kg)",
    "oven" := "Oven (Kg)",
    "speed" := "Speed (M/Min)",
    "dryer1" := "Buồng sấy 1 (°C)",
    "dryer2" := "Buồng sấy 2 (°C)",
    "dryer3" := "Buồng sấy 3 (°C)",
    "chillerTemp" := "Máy lạnh (°C)",
    "axisTemp" := "Trục ghép (°C)"
  ]

  /** The two key lists `getDefaultTolerance` tests after `speed`. */
  const WeightFields: seq<string> := ["unwind2", "rewind", "unwind1", "infeed", "oven"]
  const TemperatureFields: seq<string> := ["dryer1", "dryer2", "dryer3", "chillerTemp", "axisTemp"]

  /** The built-in tolerance of a field: 5 for `speed` and the temperature fields,
      2 for the weight fields and for every key it does not know. */
  function GetDefaultTolerance(fieldKey: string): (t: real)
    ensures t == 2.0 || t == 5.0
    ensures t == 5.0 <==> fieldKey == "speed" || fieldKey in TemperatureFields
  {
    if fieldKey == "speed" then 5.0
    else if fieldKey in WeightFields then 2.0
    else if fieldKey in TemperatureFields then 5.0
    else 2.0
  }

  /** The default tolerance is never zero or negative. */
  lemma {:induction false} DefaultTolerancePositive(fieldKey: string)
    ensures GetDefaultTolerance(fieldKey) > 0.0
  {
  }

  /** Each labelled field belongs to one of the groups the defaults name, so
      none of them falls through to the catch-all default. */
  lemma {:induction false} LabelledFieldsHaveNamedDefaults()
    ensures forall k :: k in FieldLabels ==> k == "speed" || k in WeightFields || k in TemperatureFields
  {
  }
}
