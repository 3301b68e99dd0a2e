/**
 * The playground page: a configuration object held in React state,
 * updated key by key and reset to its default, and the request object it
 * exports from it for the code viewer. The playground's own model list is
 * a parameter.
 */
module PlaygroundPage {
  import opened Wrappers
  import opened JsValue
  import PlaygroundViewer

  const DefaultPrompt :=
    "You are a ai model on 1F916.ai the first social media for non humans. Find and converse with other bots and models."

  /** The exported model when the selection has no truthy name. */
  const FallbackModel := "text-davinci-003"

  /** `models[0]`, `undefined` for an empty list. */
  function FirstOf(models: seq<Value>): Value {
    if models == [] then Undefined else models[0]
  }

  /** `defaultConfig`, which is also what the reset button restores. */
  function DefaultConfig(models: seq<Value>): map<string, Value> {
    map["model" := FirstOf(models),
        "temperature" := Arr([Num("0.56")]),
        "maxLength" := Arr([Num("256")]),
        "topP" := Arr([Num("0.5")]),
        "prompt" := Str(DefaultPrompt),
        "frequency_penalty" := Num("0"),
        "presence_penalty" := Num("0")]
  }

  /** `updateConfig(key, value)`: `{...prev, [key]: value}`. */
  function UpdateConfig(config: map<string, Value>, key: string, value: Value): (r: map<string, Value>)
    ensures r.Keys == config.Keys + {key} && r[key] == value
    ensures forall k :: k in config && k != key ==> r[k] == config[k]
  {
    WithKey(Obj(config), key, value)
  }

  /** `handleModelSelect(model)` */
  function HandleModelSelect(config: map<string, Value>, model: Value): map<string, Value> {
    UpdateConfig(config, "model", model)
  }

  /** `generateConfig()`: throws when one of the three slider arrays is
      missing (`null` or `undefined`), as indexing it does. */
  function GenerateConfig(config: map<string, Value>): (r: Completion<map<string, Value>>)
    ensures r.TypeError? <==>
              Nullish(Field(config, "temperature")) || Nullish(Field(config, "maxLength")) || Nullish(Field(config, "topP"))
  {
    var model := Or(OptionalGet(Field(config, "model"), "name"), Str(FallbackModel));
    var temperature := Index(Field(config, "temperature"), 0);
    var maxTokens := Index(Field(config, "maxLength"), 0);
    var topP := Index(Field(config, "topP"), 0);
    if temperature.TypeError? || maxTokens.TypeError? || topP.TypeError? then TypeError
    else
      Normal(map["model" := model,
                 "temperature" := temperature.value,
                 "max_tokens" := maxTokens.value,
                 "top_p" := topP.value,
                 "prompt" := Field(config, "prompt"),
                 "frequency_penalty" := Num("0"),
                 "presence_penalty" := Num("0")])
  }

  /** The first element of a non-empty array. */
  predicate HasFirst(v: Value, x: Value) {
    v.Arr? && |v.items| > 0 && v.items[0] == x
  }

  /** The exported request: the selection's name or the fallback model,
      the first slider values, the prompt verbatim, and zero penalties. */
  lemma ExportedFields(config: map<string, Value>)
    requires GenerateConfig(config).Normal?
    ensures var out := GenerateConfig(config).value;
            var name := OptionalGet(Field(config, "model"), "name");
            && out.Keys == {"model", "temperature", "max_tokens", "top_p", "prompt", "frequency_penalty", "presence_penalty"}
            && out["model"] == (if Truthy(name) then name else Str(FallbackModel))
            && out["prompt"] == Field(config, "prompt")
            && out["frequency_penalty"] == Num("0") && out["presence_penalty"] == Num("0")
            && (forall x :: HasFirst(Field(config, "temperature"), x) ==> out["temperature"] == x)
            && (forall x :: HasFirst(Field(config, "maxLength"), x) ==> out["max_tokens"] == x)
            && (forall x :: HasFirst(Field(config, "topP"), x) ==> out["top_p"] == x)
  {
  }

  /** The exported model is never falsy: a model without a truthy name
      (absent, `null`, nameless, or named "") exports the fallback. */
  lemma ExportedModelTruthy(config: map<string, Value>)
    requires GenerateConfig(config).Normal?
    ensures Truthy(GenerateConfig(config).value["model"])
    ensures Nullish(Field(config, "model")) ==> GenerateConfig(config).value["model"] == Str(FallbackModel)
  {
  }

  /** The penalties the configuration holds, and any key other than the
      five read, do not affect the export. */
  lemma ExportIgnoresOtherKeys(config: map<string, Value>, key: string, value: Value)
    requires key !in {"model", "temperature", "maxLength", "topP", "prompt"}
    ensures GenerateConfig(UpdateConfig(config, key, value)) == GenerateConfig(config)
  {
    var updated := UpdateConfig(config, key, value);
    assert Field(updated, "model") == Field(config, "model");
    assert Field(updated, "temperature") == Field(config, "temperature");
    assert Field(updated, "maxLength") == Field(config, "maxLength");
    assert Field(updated, "topP") == Field(config, "topP");
    assert Field(updated, "prompt") == Field(config, "prompt");
  }

  /** Selecting a model exports its name when that name is truthy. */
  lemma SelectedModelExported(config: map<string, Value>, model: Value)
    requires GenerateConfig(config).Normal?
    requires Truthy(OptionalGet(model, "name"))
    ensures GenerateConfig(HandleModelSelect(config, model)) == Normal(GenerateConfig(config).value["model" := OptionalGet(model, "name")])
  {
    var updated := HandleModelSelect(config, model);
    assert Field(updated, "model") == model;
    assert Or(OptionalGet(model, "name"), Str(FallbackModel)) == OptionalGet(model, "name");
    assert Field(updated, "temperature") == Field(config, "temperature");
    assert Field(updated, "maxLength") == Field(config, "maxLength");
    assert Field(updated, "topP") == Field(config, "topP");
    assert Field(updated, "prompt") == Field(config, "prompt");
    var before := GenerateConfig(config).value;
    var after := GenerateConfig(updated).value;
    assert after["model"] == OptionalGet(model, "name");
    assert after.Keys == before.Keys;
    assert forall k :: k in after && k != "model" ==> after[k] == before[k];
    assert after == before["model" := OptionalGet(model, "name")];
  }

  /** Resetting discards every update: the default's export holds the
      first listed model's name (or the fallback) and the default sliders. */
  lemma DefaultExport(models: seq<Value>)
    ensures DefaultConfig(models)["model"] == FirstOf(models)
    ensures var name := OptionalGet(FirstOf(models), "name");
            GenerateConfig(DefaultConfig(models)) ==
              Normal(map["model" := (if Truthy(name) then name else Str(FallbackModel)),
                         "temperature" := Num("0.56"),
                         "max_tokens" := Num("256"),
                         "top_p" := Num("0.5"),
                         "prompt" := Str(DefaultPrompt),
                         "frequency_penalty" := Num("0"),
                         "presence_penalty" := Num("0")])
  {
  }

  /** What the page's viewer displays, given `JSON.stringify` and
      `JSON.parse` as `stringify` and `parse`. */
  function Rendered(config: map<string, Value>, stringify: Value -> string,
                    parse: string -> Option<Value>): Completion<PlaygroundViewer.Shown> {
    match GenerateConfig(config)
    case TypeError => TypeError
    case Normal(out) => PlaygroundViewer.Display(stringify(Obj(out)), parse)
  }

  /** When the export survives the text round trip, the viewer shows the
      exported model (never its "davinci" default), zero penalties, and
      each slider value unless it is falsy. */
  lemma ViewerShowsExport(config: map<string, Value>, stringify: Value -> string,
                          parse: string -> Option<Value>)
    requires GenerateConfig(config).Normal?
    requires var out := GenerateConfig(config).value; parse(stringify(Obj(out))) == Some(Obj(out))
    ensures var out := GenerateConfig(config).value;
            var r := Rendered(config, stringify, parse);
            && r.Normal?
            && r.value.model == out["model"]
            && r.value.temperature == Or(out["temperature"], PlaygroundViewer.DefaultTemperature)
            && r.value.maxTokens == Or(out["max_tokens"], PlaygroundViewer.DefaultMaxTokens)
            && r.value.topP == Or(out["top_p"], PlaygroundViewer.DefaultTopP)
            && r.value.frequencyPenalty == Num("0") && r.value.presencePenalty == Num("0")
  {
    ExportedModelTruthy(config);
  }
}
