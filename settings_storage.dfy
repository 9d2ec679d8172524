/**
 * `WasmJsSettingsStorage` (browser/.../SettingsStorage.wasmJs.kt): the settings kept in
 * the browser's `localStorage`, one string entry per field under a common key prefix.
 */
module SettingsStore {
  import opened Wrappers
  import opened Text
  import opened Settings

  const Prefix := "browser-agent-"
  const KeyApiKey := "browser-agent-apiKey"
  const KeyMaxIterations := "browser-agent-maxIterations"
  const KeyHost := "browser-agent-host"
  const KeyConnectionType := "browser-agent-connectionType"
  const KeyOpenAIModel := "browser-agent-openAIModel"
  const KeyAnthropicModel := "browser-agent-anthropicModel"
  const KeySystemPrompt := "browser-agent-systemPrompt"

  const DefaultMaxIterations: Int32 := 50

  /** The entries `saveSettings(s)` writes: seven keys, a null host written as "". */
  function Encoded(s: AppSettings): map<string, string> {
    map[
      KeyApiKey := s.apiKey,
      KeyMaxIterations := IntToString(s.maxIterations),
      KeyHost := s.host.GetOr(""),
      KeyConnectionType := s.connectionType.Name(),
      KeyOpenAIModel := s.openAIModel.Name(),
      KeyAnthropicModel := s.anthropicModel.Name(),
      KeySystemPrompt := s.systemPrompt
    ]
  }

  /** `getItem(key)`: the stored string, or null. */
  function GetItem(items: map<string, string>, key: string): Option<string> {
    if key in items then Some(items[key]) else None
  }

  /** The iteration limit `loadSettings` reads: the stored number, or 50 when missing or unreadable. */
  function ReadMaxIterations(items: map<string, string>): (r: Int32)
    ensures KeyMaxIterations !in items || ParseInt(items[KeyMaxIterations]).None? ==> r == DefaultMaxIterations
    ensures KeyMaxIterations in items && ParseInt(items[KeyMaxIterations]).Some? ==>
              r == ParseInt(items[KeyMaxIterations]).value
  {
    match GetItem(items, KeyMaxIterations)
    case None => DefaultMaxIterations
    case Some(text) => ParseInt(text).GetOr(DefaultMaxIterations)
  }

  /** The host `loadSettings` reads: present exactly when stored and not blank. */
  function ReadHost(items: map<string, string>): (r: Option<string>)
    ensures r.Some? <==> KeyHost in items && !IsBlank(items[KeyHost])
    ensures r.Some? ==> r.value == items[KeyHost]
  {
    match GetItem(items, KeyHost)
    case Some(h) => if IsBlank(h) then None else Some(h)
    case None => None
  }

  /**
   * `loadSettings()` over the stored entries: null without an api key entry; a missing or
   * unreadable iteration limit is 50, a blank host is null, a missing enum entry is the
   * default constant and a missing prompt the default prompt; an enum entry that names no
   * constant makes `valueOf` throw, and the whole load is null.
   */
  function LoadSettings(items: map<string, string>): (r: Option<AppSettings>)
    ensures KeyApiKey !in items ==> r == None
    ensures r.Some? ==> r.value.apiKey == items[KeyApiKey]
    ensures r.Some? ==> (r.value.host.Some? <==> KeyHost in items && !IsBlank(items[KeyHost]))
    ensures r.Some? && r.value.host.Some? ==> r.value.host.value == items[KeyHost]
    ensures r.Some? && (KeyMaxIterations !in items || ParseInt(items[KeyMaxIterations]).None?) ==>
              r.value.maxIterations == DefaultMaxIterations
    ensures r.Some? && KeySystemPrompt !in items ==> r.value.systemPrompt == DefaultSystemPrompt
    ensures KeyConnectionType in items && ConnectionTypeValueOf(items[KeyConnectionType]).None? ==> r == None
    ensures KeyOpenAIModel in items && OpenAIModelValueOf(items[KeyOpenAIModel]).None? ==> r == None
    ensures KeyAnthropicModel in items && AnthropicModelValueOf(items[KeyAnthropicModel]).None? ==> r == None
  {
    if KeyApiKey !in items then None
    else
      var maxIterations := ReadMaxIterations(items);
      var host := ReadHost(items);
      var connectionType := ConnectionTypeValueOf(GetItem(items, KeyConnectionType).GetOr(OpenAI.Name()));
      var openAIModel := OpenAIModelValueOf(GetItem(items, KeyOpenAIModel).GetOr(Gpt4oMini.Name()));
      var anthropicModel := AnthropicModelValueOf(GetItem(items, KeyAnthropicModel).GetOr(Claude37Sonnet.Name()));
      if connectionType.None? || openAIModel.None? || anthropicModel.None? then None
      else
        Some(AppSettings(
          items[KeyApiKey], maxIterations, host, connectionType.value, openAIModel.value, anthropicModel.value,
          GetItem(items, KeySystemPrompt).GetOr(DefaultSystemPrompt)))
  }

  /** The seven keys, in the order `saveSettings` writes them. */
  const Keys := {KeyApiKey, KeyMaxIterations, KeyHost, KeyConnectionType, KeyOpenAIModel, KeyAnthropicModel,
                 KeySystemPrompt}

  /** No two of the seven keys are equal, so no entry overwrites another. */
  lemma KeysDistinct()
    ensures KeyApiKey !in {KeyMaxIterations, KeyHost, KeyConnectionType, KeyOpenAIModel, KeyAnthropicModel,
                           KeySystemPrompt}
    ensures KeyMaxIterations !in {KeyHost, KeyConnectionType, KeyOpenAIModel, KeyAnthropicModel, KeySystemPrompt}
    ensures KeyHost !in {KeyConnectionType, KeyOpenAIModel, KeyAnthropicModel, KeySystemPrompt}
    ensures KeyConnectionType !in {KeyOpenAIModel, KeyAnthropicModel, KeySystemPrompt}
    ensures KeyOpenAIModel !in {KeyAnthropicModel, KeySystemPrompt}
    ensures KeyAnthropicModel != KeySystemPrompt
  {
    assert KeyApiKey[14] == 'a' && KeyApiKey[15] == 'p';
    assert KeyMaxIterations[14] == 'm';
    assert KeyHost[14] == 'h';
    assert KeyConnectionType[14] == 'c';
    assert KeyOpenAIModel[14] == 'o';
    assert KeyAnthropicModel[14] == 'a' && KeyAnthropicModel[15] == 'n';
    assert KeySystemPrompt[14] == 's';
  }

  /** `saveSettings` writes exactly the seven keys, each under the common prefix. */
  lemma EncodedKeys(s: AppSettings)
    ensures Encoded(s).Keys == Keys
    ensures forall k | k in Encoded(s) :: StartsWith(k, Prefix)
  {
    assert KeyApiKey[..14] == Prefix && KeyMaxIterations[..14] == Prefix && KeyHost[..14] == Prefix;
    assert KeyConnectionType[..14] == Prefix && KeyOpenAIModel[..14] == Prefix;
    assert KeyAnthropicModel[..14] == Prefix && KeySystemPrompt[..14] == Prefix;
  }

  /** Loading what was saved gives it back, unless the host was blank (then it is read as null). */
  lemma LoadAfterSave(items: map<string, string>, s: AppSettings)
    ensures s.host.None? || !IsBlank(s.host.value) ==> LoadSettings(items + Encoded(s)) == Some(s)
    ensures s.host.Some? && IsBlank(s.host.value) ==> LoadSettings(items + Encoded(s)) == Some(s.(host := None))
  {
    var m := items + Encoded(s);
    KeysDistinct();
    assert m[KeyApiKey] == s.apiKey;
    assert GetItem(m, KeyMaxIterations) == Some(IntToString(s.maxIterations));
    assert GetItem(m, KeyHost) == Some(s.host.GetOr(""));
    assert GetItem(m, KeyConnectionType) == Some(s.connectionType.Name());
    assert GetItem(m, KeyOpenAIModel) == Some(s.openAIModel.Name());
    assert GetItem(m, KeyAnthropicModel) == Some(s.anthropicModel.Name());
    assert GetItem(m, KeySystemPrompt) == Some(s.systemPrompt);
    ParseIntToString(s.maxIterations);
    ValueOfName(s.connectionType, s.openAIModel, s.anthropicModel);
  }

  /** A store holding only an api key loads as the defaults with that key. */
  lemma LoadOnlyApiKey(apiKey: string)
    ensures LoadSettings(map[KeyApiKey := apiKey]) == Some(Defaults.(apiKey := apiKey))
  {
    var items := map[KeyApiKey := apiKey];
    KeysDistinct();
    assert KeyMaxIterations !in items && KeyHost !in items && KeyConnectionType !in items;
    assert KeyOpenAIModel !in items && KeyAnthropicModel !in items && KeySystemPrompt !in items;
  }

  lemma UnionUpdate(m: map<string, string>, e: map<string, string>, k: string, v: string)
    ensures (m + e)[k := v] == m + e[k := v]
  {
  }

  /** `localStorage` of the page: a string-to-string store. */
  class WasmJsSettingsStorage {
    var items: map<string, string>

    constructor(items: map<string, string>)
      ensures this.items == items
    {
      this.items := items;
    }

    method SetItem(key: string, value: string)
      modifies this
      ensures items == old(items)[key := value]
    {
      items := items[key := value];
    }

    /** `saveSettings(s)`: the seven entries of `s` are written; every other entry stays. */
    method SaveSettings(s: AppSettings)
      modifies this
      ensures items == old(items) + Encoded(s)
    {
      ghost var written: map<string, string> := map[];
      assert items == old(items) + written;
      UnionUpdate(old(items), written, KeyApiKey, s.apiKey);
      SetItem(KeyApiKey, s.apiKey);
      written := written[KeyApiKey := s.apiKey];
      UnionUpdate(old(items), written, KeyMaxIterations, IntToString(s.maxIterations));
      SetItem(KeyMaxIterations, IntToString(s.maxIterations));
      written := written[KeyMaxIterations := IntToString(s.maxIterations)];
      UnionUpdate(old(items), written, KeyHost, s.host.GetOr(""));
      SetItem(KeyHost, s.host.GetOr(""));
      written := written[KeyHost := s.host.GetOr("")];
      UnionUpdate(old(items), written, KeyConnectionType, s.connectionType.Name());
      SetItem(KeyConnectionType, s.connectionType.Name());
      written := written[KeyConnectionType := s.connectionType.Name()];
      UnionUpdate(old(items), written, KeyOpenAIModel, s.openAIModel.Name());
      SetItem(KeyOpenAIModel, s.openAIModel.Name());
      written := written[KeyOpenAIModel := s.openAIModel.Name()];
      UnionUpdate(old(items), written, KeyAnthropicModel, s.anthropicModel.Name());
      SetItem(KeyAnthropicModel, s.anthropicModel.Name());
      written := written[KeyAnthropicModel := s.anthropicModel.Name()];
      UnionUpdate(old(items), written, KeySystemPrompt, s.systemPrompt);
      SetItem(KeySystemPrompt, s.systemPrompt);
      written := written[KeySystemPrompt := s.systemPrompt];
      assert written == Encoded(s);
    }
  }
}
