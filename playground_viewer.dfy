/**
 * The playground's code viewer: it parses the configuration text it is
 * given (an empty object when parsing fails) and fills the Python snippet
 * it displays with the parsed fields, each replaced by a default when it
 * is falsy (JavaScript `||`).
 */
module PlaygroundViewer {
  import opened Wrappers
  import opened JsValue

  /** The values the snippet displays, in the order it lists them. */
  datatype Shown = Shown(model: Value, temperature: Value, maxTokens: Value, topP: Value,
                         frequencyPenalty: Value, presencePenalty: Value, prompt: string)

  const DefaultModel := Str("davinci")
  const DefaultTemperature := Num("0.9")
  const DefaultMaxTokens := Num("5")
  const DefaultTopP := Num("1")
  const DefaultPenalty := Num("0")

  /** What every field shows when the configuration holds none of them. */
  const AllDefaults := Shown(DefaultModel, DefaultTemperature, DefaultMaxTokens, DefaultTopP,
                             DefaultPenalty, DefaultPenalty, "\"\"")

  /** `let config = {}; try { config = JSON.parse(code) } catch ...`;
      `parse` is `JSON.parse`, `None` where it throws. */
  function Parsed(code: string, parse: string -> Option<Value>): Value {
    parse(code).GetOr(Obj(map[]))
  }

  /** `formattedPrompt`: the prompt between double quotes when it is
      truthy, `""` otherwise; nothing inside is escaped. */
  function FormattedPrompt(p: Value): string {
    if Truthy(p) then "\"" + ToText(p) + "\"" else "\"\""
  }

  /** The fields the snippet shows for a parsed configuration. Reading
      `config.prompt` throws when the parsed value is `null`. */
  function ShownFrom(config: Value): (r: Completion<Shown>)
    ensures r.TypeError? <==> Nullish(config)
  {
    if Nullish(config) then TypeError
    else
      Normal(Shown(Or(Get(config, "model").value, DefaultModel),
                   Or(Get(config, "temperature").value, DefaultTemperature),
                   Or(Get(config, "max_tokens").value, DefaultMaxTokens),
                   Or(Get(config, "top_p").value, DefaultTopP),
                   Or(Get(config, "frequency_penalty").value, DefaultPenalty),
                   Or(Get(config, "presence_penalty").value, DefaultPenalty),
                   FormattedPrompt(Get(config, "prompt").value)))
  }

  /** What the viewer shows for the text `code`. */
  function Display(code: string, parse: string -> Option<Value>): Completion<Shown> {
    ShownFrom(Parsed(code, parse))
  }

  /** Text that fails to parse shows every default. */
  lemma ParseFailureShowsDefaults(code: string, parse: string -> Option<Value>)
    requires parse(code).None?
    ensures Display(code, parse) == Normal(AllDefaults)
  {
  }

  /** So does any parsed value without those properties: a number, a
      string, an array or an object that lacks them. */
  lemma NoFieldsShowsDefaults(config: Value)
    requires !Nullish(config)
    requires config.Obj? ==> forall k :: k in config.props ==> !Truthy(config.props[k])
    ensures ShownFrom(config) == Normal(AllDefaults)
  {
  }

  /** Only a parsed `null` (or `undefined`) makes the viewer throw. */
  lemma DisplayThrowsIff(code: string, parse: string -> Option<Value>)
    ensures Display(code, parse).TypeError? <==> parse(code) == Some(Null) || parse(code) == Some(Undefined)
  {
  }

  /** Each numeric field shows the configuration's value when it is truthy
      and its default otherwise, so a genuine 0 (or `NaN`, `false`, `""`)
      shows as the default. */
  lemma FieldFallbacks(props: map<string, Value>)
    ensures var s := ShownFrom(Obj(props)).value;
            && (s.model == if Truthy(Field(props, "model")) then Field(props, "model") else DefaultModel)
            && (s.temperature == if Truthy(Field(props, "temperature")) then Field(props, "temperature") else DefaultTemperature)
            && (s.maxTokens == if Truthy(Field(props, "max_tokens")) then Field(props, "max_tokens") else DefaultMaxTokens)
            && (s.topP == if Truthy(Field(props, "top_p")) then Field(props, "top_p") else DefaultTopP)
            && (s.frequencyPenalty == if Truthy(Field(props, "frequency_penalty")) then Field(props, "frequency_penalty") else DefaultPenalty)
            && (s.presencePenalty == if Truthy(Field(props, "presence_penalty")) then Field(props, "presence_penalty") else DefaultPenalty)
  {
  }

  /** A configuration that asks for zero tokens is displayed with 5. */
  lemma ZeroMaxTokensShowsFive(props: map<string, Value>)
    requires "max_tokens" in props && props["max_tokens"] == Num("0")
    ensures ShownFrom(Obj(props)).value.maxTokens == Num("5")
  {
  }

  /** The displayed prompt of a non-empty string is that string between two
      quote characters, verbatim: a quote inside it is not escaped, so the
      displayed text can hold more than two quote characters. */
  lemma PromptVerbatim(s: string)
    requires s != ""
    ensures var f := FormattedPrompt(Str(s));
            && |f| == |s| + 2 && f[0] == '"' && f[|f| - 1] == '"' && f[1..|f| - 1] == s
    ensures FormattedPrompt(Str("\"")) == "\"\"\""
  {
    var f := FormattedPrompt(Str(s));
    assert f == ['"'] + s + ['"'];
    assert f[1..|f| - 1] == s;
  }
}
