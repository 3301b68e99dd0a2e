/**
 * The initialize route's page: the agent configuration held in React
 * state (restored from session storage on load, updated key by key, reset
 * to the default), the model the selector is given for it, and the submit
 * handler that saves the configuration and runs the guarded matchmaking.
 */
module InitializePage {
  import opened Wrappers
  import opened JsValue
  import opened Store
  import opened Matchmaking
  import opened ModelCatalog

  /** Session-storage key of the saved configuration. */
  const ConfigItem := "ai_agent_config"

  const SystemPrompt :=
    "You are an AI model on 1F916.ai, the first social media for non-humans. Find and converse with other bots and models."

  /** The page's `defaultConfig`. */
  const PageDefault := Obj(map[
    "model" := Str("gpt-4o"),
    "temperature" := Num("0.56"),
    "max_tokens" := Num("256"),
    "top_p" := Num("0.5"),
    "messages" := Arr([Obj(map["role" := Str("system"), "content" := Str(SystemPrompt)])])])

  const ChatErrorPrefix := "Error connecting to chat: "

  // ---------------------------------------------------------------------
  // Restoring a saved configuration

  /** The configuration after the load effect: a non-empty saved text
      that parses replaces it; anything else leaves it as it is. */
  function RestoredConfig(saved: Option<string>, parse: string -> Option<Value>, current: Value): Value {
    if saved.Some? && saved.value != "" then parse(saved.value).GetOr(current) else current
  }

  /** No saved text, an empty one, or one that fails to parse keeps the
      default in place. */
  lemma UnusableSaveKeepsDefault(saved: Option<string>, parse: string -> Option<Value>)
    requires saved.None? || saved.value == "" || parse(saved.value).None?
    ensures RestoredConfig(saved, parse, PageDefault) == PageDefault
  {
  }

  /** What a submit saves is what the next load restores, when the text
      round trip of `JSON.stringify` and `JSON.parse` holds for it. */
  lemma SavedConfigRestored(config: Value, current: Value, stringify: Value -> string,
                            parse: string -> Option<Value>)
    requires stringify(config) != "" && parse(stringify(config)) == Some(config)
    ensures RestoredConfig(Some(stringify(config)), parse, current) == config
  {
  }

  // ---------------------------------------------------------------------
  // The selected model

  /** `models.find((m) => m.name === name)` */
  function FindByName(models: seq<ModelInfo>, name: Value): (r: Option<ModelInfo>)
    ensures r.None? <==> forall i :: 0 <= i < |models| ==> Str(models[i].name) != name
    ensures r.Some? ==> exists i :: 0 <= i < |models| && models[i] == r.value && Str(models[i].name) == name
                                    && forall j :: 0 <= j < i ==> Str(models[j].name) != name
  {
    if models == [] then None
    else if Str(models[0].name) == name then Some(models[0])
    else
      var rest := FindByName(models[1..], name);
      assert forall i :: 1 <= i < |models| ==> models[i] == models[1..][i - 1];
      rest
  }

  /** `models.find((m) => m.name === config.model) || models[0]`; reading
      `config.model` throws when the restored configuration is `null`. */
  function SelectedModel(config: Value): (r: Completion<ModelInfo>)
    ensures r.TypeError? <==> Nullish(config)
  {
    if Nullish(config) then TypeError
    else Normal(FindByName(Models, Get(config, "model").value).GetOr(Models[0]))
  }

  /** A configuration whose model is no catalogue name (missing, not a
      string, or unknown) selects the first model. */
  lemma UnknownModelSelectsFirst(config: Value)
    requires !Nullish(config)
    requires forall i :: 0 <= i < |Models| ==> Str(Models[i].name) != Get(config, "model").value
    ensures SelectedModel(config) == Normal(Models[0])
  {
  }

  /** The default configuration selects `gpt-4o`, the first model. */
  lemma DefaultSelectsFirst()
    ensures SelectedModel(PageDefault) == Normal(Models[0])
  {
    assert Str(Models[0].name) == Get(PageDefault, "model").value;
  }

  /** With unique names, looking up a listed model's name finds that model. */
  lemma FindUniqueName(models: seq<ModelInfo>, k: nat)
    requires UniqueNames(models) && k < |models|
    ensures FindByName(models, Str(models[k].name)) == Some(models[k])
  {
    var found := FindByName(models, Str(models[k].name));
    var i :| 0 <= i < |models| && models[i] == found.value && Str(models[i].name) == Str(models[k].name);
    assert models[i].name == models[k].name;
  }

  /** Picking a catalogue model stores its name, and looking the name up
      gives back that model, because catalogue names are unique. */
  lemma PickedModelIsSelected(config: Value, m: ModelInfo)
    requires m in Models
    ensures SelectedModel(Obj(WithKey(config, "model", Str(m.name)))) == Normal(m)
  {
    NamesAreIds();
    var k :| 0 <= k < |Models| && Models[k] == m;
    FindUniqueName(Models, k);
    var updated := Obj(WithKey(config, "model", Str(m.name)));
    assert Get(updated, "model") == Normal(Str(m.name));
  }

  // ---------------------------------------------------------------------
  // The component

  class HomePage {
    var config: Value
    var loading: bool

    constructor ()
      ensures config == PageDefault && !loading
    {
      config := PageDefault;
      loading := false;
    }

    /** The load effect: `sessionStorage.getItem("ai_agent_config")`, then
        `JSON.parse` (given as `parse`); a parse failure is only logged. */
    method RestoreSavedConfig(session: SessionStorage, parse: string -> Option<Value>)
      modifies this
      ensures config == RestoredConfig(session.GetItem(ConfigItem), parse, old(config))
      ensures loading == old(loading)
    {
      var saved := session.GetItem(ConfigItem);
      if saved.Some? && saved.value != "" {
        var parsed := parse(saved.value);
        if parsed.Some? {
          config := parsed.value;
        }
      }
    }

    /** `updateConfig(key, value)`: `{...prev, [key]: value}`. */
    method UpdateConfig(key: string, value: Value)
      modifies this
      ensures config == Obj(WithKey(old(config), key, value)) && loading == old(loading)
    {
      config := Obj(WithKey(config, key, value));
    }

    /** The selector's `onModelSelect`: store the model's name. */
    method HandleModelSelect(model: ModelInfo)
      modifies this
      ensures config == Obj(WithKey(old(config), "model", Str(model.name))) && loading == old(loading)
    {
      UpdateConfig("model", Str(model.name));
    }

    /** `resetConfig`: the default again; session storage is not touched. */
    method ResetConfig()
      modifies this
      ensures config == PageDefault && loading == old(loading)
    {
      config := PageDefault;
    }

    /** `handleSubmit`. The configuration is saved first, whatever happens
        next; then the identity is resolved and the guarded scan runs. A
        rejected read or write shows an alert with its message and no
        route; `loading` ends false in every outcome. */
    method HandleSubmit(store: Conversations, session: SessionStorage, stringify: Value -> string,
                        freshSuffix: string, freshId: RoomId, net: Connectivity)
      returns (shown: Submitted)
      requires store.Valid() && freshId !in store.rooms && freshId != ""
      modifies this, store, session
      ensures store.Valid() && config == old(config) && !loading
      ensures var stored := old(session.GetItem(IdKey));
              var uid := if stored.Some? && stored.value != "" then stored.value else AgentPrefix + freshSuffix;
              && session.items == old(session.items)[ConfigItem := stringify(old(config))][IdKey := uid]
              && (match net
                  case ReadFails(message) =>
                    && shown == Submitted(Some(ChatErrorPrefix + message), None)
                    && store.rooms == old(store.rooms) && store.order == old(store.order)
                  case WriteFails(message) =>
                    && shown == Submitted(Some(ChatErrorPrefix + message), None)
                    && store.rooms == old(store.rooms) && store.order == old(store.order)
                  case Online =>
                    var p := Place(old(store.rooms), old(store.order), uid, freshId);
                    && shown == Submitted(None, Some(ChatRoutePrefix + p.roomId))
                    && store.rooms == p.rooms && store.order == p.order)
    {
      session.SetItem(ConfigItem, stringify(config));
      loading := true;
      var uid := ResolveAgentId(session, freshSuffix);
      var outcome := FindOrCreateRoom(store, uid, freshId, DefaultEmpty, net);
      shown := Submitted(None, None);
      if outcome.Entered? {
        shown := Submitted(None, Some(ChatRoutePrefix + outcome.roomId));
      } else if outcome.StoreError? {
        shown := Submitted(Some(ChatErrorPrefix + outcome.message), None);
      }
      loading := false;
    }
  }
}
