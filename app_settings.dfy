/**
 * `AppSettings` (browser/.../AppSettings.kt): the connection type and model enums with the
 * names shown to the user, the settings record with its defaults, and the manager that
 * holds the current settings and saves every update.
 */
module Settings {
  import opened Wrappers
  import opened Text

  datatype ConnectionType = OpenAI | Anthropic {
    /** The enum constant's `name`. */
    function Name(): string {
      match this
      case OpenAI => "OPENAI"
      case Anthropic => "ANTHROPIC"
    }
  }

  datatype OpenAIModel = Gpt4oMini | Gpt4o {
    function Name(): string {
      match this
      case Gpt4oMini => "GPT4O_MINI"
      case Gpt4o => "GPT4O"
    }

    /** The overridden `toString()`, shown in the settings screen. */
    function DisplayName(): string {
      match this
      case Gpt4oMini => "GPT-4o Mini"
      case Gpt4o => "GPT-4o"
    }
  }

  datatype AnthropicModel = Claude37Sonnet | Claude4Sonnet {
    function Name(): string {
      match this
      case Claude37Sonnet => "CLAUDE_3_7_SONNET"
      case Claude4Sonnet => "CLAUDE_4_SONNET"
    }

    function DisplayName(): string {
      match this
      case Claude37Sonnet => "Claude 3.7 Sonnet"
      case Claude4Sonnet => "Claude 4 Sonnet"
    }
  }

  /** `ConnectionType.valueOf(name)`; `None` where Kotlin throws `IllegalArgumentException`. */
  function ConnectionTypeValueOf(name: string): (r: Option<ConnectionType>)
    ensures r.Some? ==> r.value.Name() == name
    ensures r.None? ==> forall c: ConnectionType :: c.Name() != name
  {
    if name == "OPENAI" then Some(OpenAI)
    else if name == "ANTHROPIC" then Some(Anthropic)
    else None
  }

  /** `OpenAIModel.valueOf(name)`: matches the constant's name, not its display name. */
  function OpenAIModelValueOf(name: string): (r: Option<OpenAIModel>)
    ensures r.Some? ==> r.value.Name() == name
    ensures r.None? ==> forall m: OpenAIModel :: m.Name() != name
  {
    if name == "GPT4O_MINI" then Some(Gpt4oMini)
    else if name == "GPT4O" then Some(Gpt4o)
    else None
  }

  /** `AnthropicModel.valueOf(name)`. */
  function AnthropicModelValueOf(name: string): (r: Option<AnthropicModel>)
    ensures r.Some? ==> r.value.Name() == name
    ensures r.None? ==> forall m: AnthropicModel :: m.Name() != name
  {
    if name == "CLAUDE_3_7_SONNET" then Some(Claude37Sonnet)
    else if name == "CLAUDE_4_SONNET" then Some(Claude4Sonnet)
    else None
  }

  /** Each constant is found again by its name. */
  lemma ValueOfName(c: ConnectionType, o: OpenAIModel, a: AnthropicModel)
    ensures ConnectionTypeValueOf(c.Name()) == Some(c)
    ensures OpenAIModelValueOf(o.Name()) == Some(o)
    ensures AnthropicModelValueOf(a.Name()) == Some(a)
  {
  }

  /**
   * The display names tell the models apart, and none of them is a constant's name, so
   * `valueOf` cannot read back what `toString` shows.
   */
  lemma DisplayNamesDistinct(o1: OpenAIModel, o2: OpenAIModel, a1: AnthropicModel, a2: AnthropicModel)
    ensures o1.DisplayName() == o2.DisplayName() ==> o1 == o2
    ensures a1.DisplayName() == a2.DisplayName() ==> a1 == a2
    ensures OpenAIModelValueOf(o1.DisplayName()) == None
    ensures AnthropicModelValueOf(a1.DisplayName()) == None
  {
    assert "GPT-4o Mini"[3] != "GPT4O_MINI"[3];
    assert "GPT-4o"[3] != "GPT4O"[3];
    assert "Claude 3.7 Sonnet"[1] != "CLAUDE_3_7_SONNET"[1];
    assert "Claude 4 Sonnet"[1] != "CLAUDE_4_SONNET"[1];
  }

  /** The `AppSettings` data class; `host == None` means the provider's default host. */
  datatype AppSettings = AppSettings(
    apiKey: string,
    maxIterations: Int32,
    host: Option<string>,
    connectionType: ConnectionType,
    openAIModel: OpenAIModel,
    anthropicModel: AnthropicModel,
    systemPrompt: string)

  /** The default system prompt: the indented text block after `trimIndent()`, with no trailing newline. */
  const DefaultSystemPrompt :=
    "You are an AI agent designed to automate browser tasks. Your goal is to accomplish the ultimate task following the rules\n" +
    "\n" +
    "1. Element Interaction\n" +
    "\U{2013} Interact only using element references.\n" +
    "\n" +
    "2. Navigation & Errors\n" +
    "\U{2013} If no elements found, use alternative methods (back, search, refresh, etc).\n" +
    "\U{2013} Handle popups/cookies (accept/close).\n" +
    "\U{2013} Scroll to locate elements.\n" +
    "\U{2013} Wait if page isn't fully loaded.\n" +
    "\n" +
    "3. Task Completion\n" +
    "\U{2013} Call done only when the " + "task is complete or at the final step.\n" +
    "\U{2013} Include all related gathered info in the result\n" +
    "\U{2013} Track repetitions (e.g. \"for each\", \"x times\") using memory; don't stop early.\n" +
    "\U{2013} Never hallucinate actions.\n" +
    "\n" +
    "4. Visual Context\n" +
    "\U{2013} Use provided images to understand layout.\n" +
    "\U{2013} Use bounding box labels for element indexing.\n" +
    "\n" +
    "5. Forms\n" +
    "\U{2013} Handle field suggestions/popups that appear after input.\n" +
    "\n" +
    "6. Long Tasks\n" +
    "\U{2013} Track status/progress in memory.\n" +
    "\U{2013} Use procedural memory summaries to stay on track and avoid repeating steps."

  /** `AppSettings()`: every field at its default. */
  const Defaults := AppSettings("", 50, None, OpenAI, Gpt4oMini, Claude37Sonnet, DefaultSystemPrompt)
}

/**
 * `SettingsManager`: the current settings, loaded once from the browser's storage, and
 * replaced and saved by every update.
 */
module SettingsManagement {
  import opened Wrappers
  import opened Text
  import opened Settings
  import opened SettingsStore

  class SettingsManager {
    var settings: AppSettings
    const storage: WasmJsSettingsStorage

    /** `init`: the stored settings, or the defaults when nothing usable is stored. */
    constructor(storage: WasmJsSettingsStorage)
      ensures this.storage == storage
      ensures settings == LoadSettings(storage.items).GetOr(Defaults)
      ensures storage.items.Keys !! {KeyApiKey} ==> settings == Defaults
    {
      this.storage := storage;
      settings := LoadSettings(storage.items).GetOr(Defaults);
    }

    /** `getSettings()`. */
    function GetSettings(): AppSettings
      reads this
    {
      settings
    }

    /**
     * `updateSettings(s)`: the current settings become `s`, and the storage receives `s`,
     * so a later load returns `s` unless its host is blank.
     */
    method UpdateSettings(s: AppSettings)
      modifies this, storage
      ensures settings == s && GetSettings() == s
      ensures storage.items == old(storage.items) + Encoded(s)
      ensures s.host.None? || !IsBlank(s.host.value) ==> LoadSettings(storage.items) == Some(s)
    {
      settings := s;
      storage.SaveSettings(s);
      LoadAfterSave(old(storage.items), s);
    }
  }

  /**
   * A manager created after another one saved `s` starts with `s`: the settings survive
   * a restart of the page.
   */
  method SettingsSurviveRestart(items: map<string, string>, s: AppSettings) returns (restored: AppSettings)
    requires s.host.None? || !IsBlank(s.host.value)
    ensures restored == s
  {
    var storage := new WasmJsSettingsStorage(items);
    var first := new SettingsManager(storage);
    first.UpdateSettings(s);
    var second := new SettingsManager(storage);
    restored := second.GetSettings();
  }
}
