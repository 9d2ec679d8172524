# browser-agent core in Dafny

browser-agent is a Kotlin LLM agent that drives a web browser through Playwright. The model
gives the agent a set of tools ("start the browser", "take an ARIA snapshot", "click the
element `[ref=e12]`", "type text", "navigate"). The agent runs a graph strategy that sends
tool results back to the model until the model stops calling tools.

This project models the core of that system and proves properties of it:

- **Tool-answer protocol** (`BrowserResults`, `CurrentBrowser`).
  - `BrowserResult.execute` turns a page lookup plus an action into a string.
  - `executeSafely` turns any exception into a string that starts with `Error:`,
    `Warning:` or `Success:`.
- **Browser session** (`CurrentBrowser.Session`).
  - The engine, browser and page handles; the last snapshot; the URL-to-hash map.
  - Start, close, open link, snapshot, `isChanged`.
  - The validation chain of `toLocator` that turns a `[ref=eN]` token into an `aria-ref=eN` selector.
  - Playwright itself is an input. Each driver call's outcome, returned or thrown, is a
    parameter, and the calls that act on browser objects are recorded in a ghost log.
- **Agent tools** (`AgentTools`).
  - Every tool of `PlaywrightAgentTools` over a shared session, including its input checks.
- **Strategy** (`Strategy`).
  - The edge table of the agent graph with first-match edge selection.
  - The feedback prompt.
  - The compress node. When the prompt holds more than two snapshot tool messages, it keeps
    only the newest of them; with two or fewer, the prompt is unchanged.
- **Plugin registry** (`PluginRegistry`).
  - The insertion-ordered id-to-plugin map, with registration, removal and queries.
  - Discovery over the sequence of plugins the service loader offers.
- **Settings** (`Settings`, `SettingsStore`, `SettingsManagement`).
  - The enums with their constant and display names, and the settings record and its defaults.
  - The `localStorage` save/load of the web build, with a round trip.
  - The settings manager.

The `Text` module holds the pieces of the Kotlin standard library the core relies on:
`isBlank`, `trim`, `removePrefix`, `removeSuffix`, `contains`, `joinToString`,
`Int.toString` and `toIntOrNull`.

## Model

| member | source | states |
|---|---|---|
| Text.ParseInt | browser/src/wasmJsMain/kotlin/com/opentool/SettingsStorage.wasmJs.kt:42 | `toIntOrNull`: a value is only read from an optionally signed run of decimal digits; the empty string and a lone sign give `None`; an unsigned digit run below 2^31 gives its value |
| Text.ParseIntToString | browser/src/wasmJsMain/kotlin/com/opentool/SettingsStorage.wasmJs.kt:25-42 | `toIntOrNull` reads back every 32-bit value that `Int.toString` writes |
| Text.JoinContainsEach | agent/src/main/kotlin/com/opentool/agent/AgentStrategy.kt:21 | `joinToString(", ")` contains each joined name |
| Text.TrimStartRemovesBlankPrefix | playwright/src/main/kotlin/com/opentool/playwright/CurrentBrowser.kt:219 | The start of `trim()` removes exactly a whitespace-only prefix: what remains is a suffix of the input that is empty or starts with a non-whitespace character |
| Text.TrimEndRemovesBlankSuffix | playwright/src/main/kotlin/com/opentool/playwright/CurrentBrowser.kt:219 | The end of `trim()` removes exactly a whitespace-only suffix: what remains is a prefix that is empty or ends with a non-whitespace character |
| BrowserResults.Execute | playwright/src/main/kotlin/com/opentool/playwright/BrowserResult.kt:22-36 | A failure gives its error text, unchanged. A success with no page gives the "not initialized" message. Otherwise the action's text is returned, or "Error executing action: " plus the exception message (or "Unknown error") |
| BrowserResults.ExecuteFailureIgnoresAction | playwright/src/main/kotlin/com/opentool/playwright/BrowserResult.kt:34 | On a failure the action is never consulted: two actions give the same answer |
| BrowserResults.ExecuteThrowIsUnprefixed | playwright/src/main/kotlin/com/opentool/playwright/BrowserResult.kt:30-31 | The text for a thrown action ("Error executing action: ...") carries none of the protocol prefixes `Error:`, `Warning:`, `Success:` |
| BrowserResults.ExecuteFailureKeepsUnprefixedText | playwright/src/main/kotlin/com/opentool/playwright/BrowserResult.kt:34 | A failure whose text has no protocol prefix reaches the caller still without one |
| CurrentBrowser.Normalize | playwright/src/main/kotlin/com/opentool/playwright/CurrentBrowser.kt:184-189 | The result always carries a protocol prefix. A message that already has one is kept; any other message gets "Error: " in front |
| CurrentBrowser.ExecuteSafely | playwright/src/main/kotlin/com/opentool/playwright/CurrentBrowser.kt:179-191 | A returned value passes through untouched, whatever its prefix. An exception always yields a prefixed text: its own message if already prefixed, otherwise "Error: " + message, or the default error when the message is null |
| CurrentBrowser.ExecuteSafelyNested | playwright/src/main/kotlin/com/opentool/playwright/CurrentBrowser.kt:179-191 | Wrapping twice, as the tools do over the session, is the same as wrapping once; re-throwing the inner result also leaves it unchanged |
| CurrentBrowser.CleanRefOfToken | playwright/src/main/kotlin/com/opentool/playwright/CurrentBrowser.kt:219 | Cleaning `[ref=<id>]` (trim, then remove `[ref=` and `]`) gives back `<id>` |
| CurrentBrowser.CheckRef | playwright/src/main/kotlin/com/opentool/playwright/CurrentBrowser.kt:204-224 | The validation chain of `toLocator` before the page is consulted: no snapshot, blank reference, reference absent from the snapshot, blank cleaned id, each checked in that order, then the `aria-ref=` selector. Its outcomes are stated by `CheckRefOutcomes` |
| CurrentBrowser.CheckRefOutcomes | playwright/src/main/kotlin/com/opentool/playwright/CurrentBrowser.kt:202-224 | Each error holds exactly when its check is the first to fail, in order: no snapshot, blank reference, reference absent from the snapshot, blank cleaned id. Exactly when all pass, the result is the selector `aria-ref=<cleaned id>` |
| CurrentBrowser.CheckRefOfToken | playwright/src/main/kotlin/com/opentool/playwright/CurrentBrowser.kt:202-224 | A token `[ref=<id>]` found in the last snapshot, with a non-blank id, selects `aria-ref=<id>` |
| CurrentBrowser.StartOutcome | playwright/src/main/kotlin/com/opentool/playwright/CurrentBrowser.kt:38-47 | What the `startBrowser` action yields: the first driver call to throw decides, and otherwise "Success: Browser started". Stated by `StartOutcomeFirstThrow` |
| CurrentBrowser.StartOutcomeFirstThrow | playwright/src/main/kotlin/com/opentool/playwright/CurrentBrowser.kt:38-47 | `startBrowser` succeeds exactly when create, launch and new page all return. Otherwise it reports the message of the first one that threw |
| CurrentBrowser.CloseOutcome | playwright/src/main/kotlin/com/opentool/playwright/CurrentBrowser.kt:88-128 | What the `closeBrowser` action yields: the last present handle whose close threw decides, because each close runs in the `finally` of the one before. Stated by `CloseOutcomeSucceeds` and `CloseReportIsPrefixed` |
| CurrentBrowser.CloseOutcomeSucceeds | playwright/src/main/kotlin/com/opentool/playwright/CurrentBrowser.kt:88-128 | The close succeeds exactly when no present handle's close threw |
| CurrentBrowser.CloseCalls | playwright/src/main/kotlin/com/opentool/playwright/CurrentBrowser.kt:88-128 | The close calls `closeBrowser` makes: one per present handle, page first and engine last. Stated by `CloseCallsOrder` |
| CurrentBrowser.CloseCallsOrder | playwright/src/main/kotlin/com/opentool/playwright/CurrentBrowser.kt:88-128 | There is one close per present handle, and only closes. The page is closed first and the engine last; with all three present the calls are page, browser, engine |
| CurrentBrowser.CloseReportIsPrefixed | playwright/src/main/kotlin/com/opentool/playwright/CurrentBrowser.kt:88-128 | Whatever the three closes do, the close answer carries a protocol prefix. It is "Browser closed" when none throws; otherwise it is built from the last exception |
| CurrentBrowser.SnapshotAct | playwright/src/main/kotlin/com/opentool/playwright/CurrentBrowser.kt:155-167 | What the `getSnapshot` action yields from the capture: an empty capture throws the empty-snapshot message, and a non-empty one is returned after the captured prefix. Stated by `SnapshotActOutcomes` |
| CurrentBrowser.SnapshotActOutcomes | playwright/src/main/kotlin/com/opentool/playwright/CurrentBrowser.kt:155-167 | The action succeeds exactly on a non-empty capture, with the text after "Success: Snapshot captured". An empty capture gives the empty-snapshot error, and a thrown capture keeps its message |
| CurrentBrowser.Session.constructor | playwright/src/main/kotlin/com/opentool/playwright/CurrentBrowser.kt:19-24 | A new session has no engine, browser, page or snapshot, and an empty hash map |
| CurrentBrowser.Session.IsChanged | playwright/src/main/kotlin/com/opentool/playwright/CurrentBrowser.kt:71-74 | A page counts as changed exactly when its URL has a recorded hash that differs from the MD5 of its content; an unrecorded URL is never changed |
| CurrentBrowser.Session.StartBrowser | playwright/src/main/kotlin/com/opentool/playwright/CurrentBrowser.kt:38-47 | The engine is created on every call but kept only if none was set (compare-and-set). Browser and page are replaced only when their creation returns. The answer is the started message or the normalised exception. The driver calls made are logged |
| CurrentBrowser.Session.GetPage | playwright/src/main/kotlin/com/opentool/playwright/CurrentBrowser.kt:57-69 | No page gives a failure with the "start browser" message and changes nothing. With a page it records the MD5 of the page content under its URL and returns the page, which then does not count as changed |
| CurrentBrowser.Session.CloseBrowser | playwright/src/main/kotlin/com/opentool/playwright/CurrentBrowser.kt:88-128 | Page, browser and engine are each closed if present, in that order, even when an earlier close throws. All three handles are cleared. The answer reports the last exception thrown |
| CurrentBrowser.Session.OpenLink | playwright/src/main/kotlin/com/opentool/playwright/CurrentBrowser.kt:138-145 | Without a page the answer is the "start browser" error and nothing is called. Otherwise the page navigates, and the answer is the opened message or the normalised exception |
| CurrentBrowser.Session.GetSnapshot | playwright/src/main/kotlin/com/opentool/playwright/CurrentBrowser.kt:155-167 | A non-empty snapshot becomes the last snapshot and is returned after the captured prefix. An empty or thrown snapshot gives an error and keeps the old one. Without a page nothing changes |
| CurrentBrowser.Session.ToLocator | playwright/src/main/kotlin/com/opentool/playwright/CurrentBrowser.kt:202-240 | Each check failure yields its message and changes nothing. Once the checks pass, a missing page fails with "Failed to get page: ...", and an unresolved locator fails with "Failed to create locator for reference" |
| AgentTools.ClickByRefText | playwright/src/main/kotlin/com/opentool/playwright/PlaywrightAgentTools.kt:116-128 | An invisible element gives only a warning. A visible element that was clicked gives success. A thrown visibility check or click gives "Error: Failed to click on <ref> - " plus the exception message, or "Unknown error" |
| AgentTools.CloseBrowser | playwright/src/main/kotlin/com/opentool/playwright/PlaywrightAgentTools.kt:36-40 | The session's close, with its answer passed through and all handles cleared |
| AgentTools.StartBrowser | playwright/src/main/kotlin/com/opentool/playwright/PlaywrightAgentTools.kt:52-56 | The session's start, with its answer, new handles and driver calls |
| AgentTools.GetSnapshot | playwright/src/main/kotlin/com/opentool/playwright/PlaywrightAgentTools.kt:68-72 | The session's snapshot with every answer and state change passed through |
| AgentTools.Click | playwright/src/main/kotlin/com/opentool/playwright/PlaywrightAgentTools.kt:83-96 | Negative coordinates are refused without touching the session. Without a page the answer is the page error. Otherwise one mouse click is made, and the answer is the success or the execute error text |
| AgentTools.ClickByRef | playwright/src/main/kotlin/com/opentool/playwright/PlaywrightAgentTools.kt:109-130 | A blank reference is refused. A failed check or a missing page answers with the raw failure text. Only a visible element is clicked, and the answer is the click text |
| AgentTools.ClickFound | playwright/src/main/kotlin/com/opentool/playwright/PlaywrightAgentTools.kt:115-129 | On what `toLocator` found: a failure's text passes through with no click, and a found locator is clicked only when visible, answering with the click text |
| AgentTools.TypeText | playwright/src/main/kotlin/com/opentool/playwright/PlaywrightAgentTools.kt:143-161 | Only the empty text is refused; blank text is typed. A missing keyboard is an execute error. Otherwise the text is typed once, and the answer is the typed or failed text |
| AgentTools.NavigateTo | playwright/src/main/kotlin/com/opentool/playwright/PlaywrightAgentTools.kt:173-187 | A blank URL is refused. A URL without http://, https:// or file:// gets only a warning, and nothing navigates. Otherwise the answer is the session's open-link answer |
| Strategy.Edges | agent/src/main/kotlin/com/opentool/agent/AgentStrategy.kt:31-40 | The ten edges of `createStrategy`, with their source, target, condition and transformation, in declaration order |
| Strategy.Passed | agent/src/main/kotlin/com/opentool/agent/AgentStrategy.kt:31-40 | The value an edge delivers: "Chat finished" for the exit-tool edge, the reply's text for `onAssistantMessage`, and the value itself otherwise |
| Strategy.FirstMatch | agent/src/main/kotlin/com/opentool/agent/AgentStrategy.kt:31-40 | The result is the first edge from the node that accepts the value; no earlier edge matches, and `None` means no edge matches |
| Strategy.Step | agent/src/main/kotlin/com/opentool/agent/AgentStrategy.kt:31-40 | The next node and the value delivered, chosen by the first matching edge. Its routing is stated by `StepTotalAndWellTyped` and the routing lemmas below |
| Strategy.StepTotalAndWellTyped | agent/src/main/kotlin/com/opentool/agent/AgentStrategy.kt:18-40 | Every node except finish has an outgoing edge for every value it can produce. The value delivered is of the kind the target node accepts |
| Strategy.StartCallsModel | agent/src/main/kotlin/com/opentool/agent/AgentStrategy.kt:31 | The user's input goes to the model unchanged |
| Strategy.ModelReplyRouting | agent/src/main/kotlin/com/opentool/agent/AgentStrategy.kt:32-35 | From the model call and from the feedback node, a tool call goes to tool execution and plain text goes to the feedback node |
| Strategy.ToolResultIsCompressed | agent/src/main/kotlin/com/opentool/agent/AgentStrategy.kt:36-37 | Every tool result passes through the compress node before it is sent back |
| Strategy.AfterToolResultRouting | agent/src/main/kotlin/com/opentool/agent/AgentStrategy.kt:38-40 | After a tool result is sent: plain text finishes with its text; the `__exit__` tool finishes with "Chat finished"; any other tool call runs again |
| Strategy.ExitEdgeShadowsGeneric | agent/src/main/kotlin/com/opentool/agent/AgentStrategy.kt:39-40 | The `__exit__` call matches both the exit edge and the generic tool-call edge, and declaration order makes it finish |
| Strategy.FinishIsTerminal | agent/src/main/kotlin/com/opentool/agent/AgentStrategy.kt:31-40 | No edge leaves the finish node |
| Strategy.FeedbackPrompt | agent/src/main/kotlin/com/opentool/agent/AgentStrategy.kt:21 | The feedback user message: the lead text, then the tool names joined by ", ". Stated by `FeedbackPromptNamesEveryTool` |
| Strategy.FeedbackPromptNamesEveryTool | agent/src/main/kotlin/com/opentool/agent/AgentStrategy.kt:21 | The feedback message starts with "Don't chat with plain text!..." and names every available tool |
| Strategy.DropFirst | agent/src/main/kotlin/com/opentool/agent/AgentStrategy.kt:62-70 | The `remainingToSkip` filter: the first k snapshot tool messages are skipped and every other message is kept. Stated by `DropFirstNamed`, `DropFirstOthers` and `DropFirstIsSubsequence` |
| Strategy.Compacted | agent/src/main/kotlin/com/opentool/agent/AgentStrategy.kt:55-72 | The prompt after `filterOutSnapshotMessages`: unchanged with two or fewer snapshot messages, otherwise all but the newest are dropped. Stated by the `Compacted...` lemmas |
| Strategy.DropFirstNamed | agent/src/main/kotlin/com/opentool/agent/AgentStrategy.kt:62-70 | Skipping the first k snapshot messages leaves exactly the later ones, and the prompt is k shorter |
| Strategy.DropFirstOthers | agent/src/main/kotlin/com/opentool/agent/AgentStrategy.kt:63-70 | Skipping snapshot messages keeps every other message, in order |
| Strategy.DropFirstIsSubsequence | agent/src/main/kotlin/com/opentool/agent/AgentStrategy.kt:63-70 | The filtered prompt is a subsequence of the original |
| Strategy.CompactedKeepsShortHistory | agent/src/main/kotlin/com/opentool/agent/AgentStrategy.kt:59-61 | With at most two snapshot messages the prompt is returned as is |
| Strategy.CompactedKeepsNewestSnapshot | agent/src/main/kotlin/com/opentool/agent/AgentStrategy.kt:57-71 | With more than two, only the newest snapshot message remains, and the prompt shrinks by the number dropped |
| Strategy.CompactedKeepsOthersInOrder | agent/src/main/kotlin/com/opentool/agent/AgentStrategy.kt:55-72 | Filtering keeps every other message in order, and the result is a subsequence of the prompt |
| Strategy.CompactedIdempotent | agent/src/main/kotlin/com/opentool/agent/AgentStrategy.kt:55-72 | Filtering twice is the same as filtering once |
| Strategy.WriteSession.FilterOutSnapshotMessages | agent/src/main/kotlin/com/opentool/agent/AgentStrategy.kt:55-72 | The loop with its skip counter leaves the prompt equal to `Compacted` of the old prompt |
| Strategy.WriteSession.AddFeedback | agent/src/main/kotlin/com/opentool/agent/AgentStrategy.kt:19-22 | Exactly one user message, the feedback prompt, is appended |
| Strategy.WriteSession.CompressHistory | agent/src/main/kotlin/com/opentool/agent/AgentStrategy.kt:45-53 | The input is returned unchanged, and the prompt is compacted for the `getSnapshot` tool |
| PluginRegistry.Without | tools/src/main/kotlin/com/opentool/plugin/ToolPluginRegistry.kt:35-37 | Removing an id keeps exactly the other ids, in order, and keeps them distinct; an absent id changes nothing |
| PluginRegistry.FlatTools | tools/src/main/kotlin/com/opentool/plugin/ToolPluginRegistry.kt:64 | A tool is in the flattened list exactly when some plugin provides it |
| PluginRegistry.Accepted | tools/src/main/kotlin/com/opentool/plugin/ToolPluginRegistry.kt:76-90 | The plugins a discovery pass registers: each offered plugin whose id is not yet taken, in order, with later duplicates skipped. Stated by `AcceptedBounded`, `AcceptedFresh`, `AcceptedDistinct` and `AcceptedCovers` |
| PluginRegistry.AcceptedBounded | tools/src/main/kotlin/com/opentool/plugin/ToolPluginRegistry.kt:76-90 | Discovery registers no more plugins than it was offered |
| PluginRegistry.AcceptedFresh | tools/src/main/kotlin/com/opentool/plugin/ToolPluginRegistry.kt:76-90 | Each registered plugin was offered, under an id not taken before |
| PluginRegistry.AcceptedDistinct | tools/src/main/kotlin/com/opentool/plugin/ToolPluginRegistry.kt:76-90 | Discovery registers no id twice, even when several offered plugins share an id |
| PluginRegistry.AcceptedCovers | tools/src/main/kotlin/com/opentool/plugin/ToolPluginRegistry.kt:76-90 | After discovery every offered id is taken |
| PluginRegistry.ToolPluginRegistry.constructor | tools/src/main/kotlin/com/opentool/plugin/ToolPluginRegistry.kt:14 | A new registry is empty |
| PluginRegistry.ToolPluginRegistry.GetPlugin | tools/src/main/kotlin/com/opentool/plugin/ToolPluginRegistry.kt:45-47 | A plugin is found exactly when its id is registered, and it carries that id |
| PluginRegistry.ToolPluginRegistry.GetAllPlugins | tools/src/main/kotlin/com/opentool/plugin/ToolPluginRegistry.kt:54-56 | Each registered plugin appears once, in insertion order, and nothing else appears |
| PluginRegistry.ToolPluginRegistry.GetAllTools | tools/src/main/kotlin/com/opentool/plugin/ToolPluginRegistry.kt:63-65 | The tools of all plugins in registration order; a tool appears exactly when some registered plugin has it |
| PluginRegistry.ToolPluginRegistry.RegisterPlugin | tools/src/main/kotlin/com/opentool/plugin/ToolPluginRegistry.kt:22-27 | A taken id gives "Plugin with ID <id> is already registered" and changes nothing. Otherwise the plugin is added at the end of the order. The registry stays valid |
| PluginRegistry.ToolPluginRegistry.UnregisterPlugin | tools/src/main/kotlin/com/opentool/plugin/ToolPluginRegistry.kt:35-37 | Returns true exactly when the id was registered; afterwards it is not, and the other ids keep their order |
| PluginRegistry.ToolPluginRegistry.DiscoverPlugins | tools/src/main/kotlin/com/opentool/plugin/ToolPluginRegistry.kt:76-90 | The registry grows by exactly `Accepted(old ids, offered)` in order, and the count is its length |
| Settings.ConnectionTypeValueOf | browser/src/wasmJsMain/kotlin/com/opentool/SettingsStorage.wasmJs.kt:44-46 | `valueOf` finds the constant with that name, or no constant has the name |
| Settings.OpenAIModelValueOf | browser/src/wasmJsMain/kotlin/com/opentool/SettingsStorage.wasmJs.kt:47-49 | Same for the OpenAI models |
| Settings.AnthropicModelValueOf | browser/src/wasmJsMain/kotlin/com/opentool/SettingsStorage.wasmJs.kt:50-52 | Same for the Anthropic models |
| Settings.DefaultSystemPrompt | browser/src/commonMain/kotlin/com/opentool/AppSettings.kt:59-87 | The default system prompt after `trimIndent()`: the text block without its indentation and without the leading and trailing blank lines |
| Settings.Defaults | browser/src/commonMain/kotlin/com/opentool/AppSettings.kt:52-87 | `AppSettings()`: an empty api key, 50 iterations, no host, OpenAI, GPT-4o mini, Claude 3.7 Sonnet and the default prompt. Stated by `LoadOnlyApiKey` and the settings manager's constructor |
| Settings.ValueOfName | browser/src/wasmJsMain/kotlin/com/opentool/SettingsStorage.wasmJs.kt:27-52 | Every constant is found again by the `name` that save writes |
| Settings.DisplayNamesDistinct | browser/src/commonMain/kotlin/com/opentool/AppSettings.kt:18-38 | The `toString` display names are distinct, and `valueOf` does not accept a display name |
| SettingsStore.ReadMaxIterations | browser/src/wasmJsMain/kotlin/com/opentool/SettingsStorage.wasmJs.kt:42 | The stored iteration limit when it parses as an `Int`, and 50 when it is missing or does not parse |
| SettingsStore.ReadHost | browser/src/wasmJsMain/kotlin/com/opentool/SettingsStorage.wasmJs.kt:43 | A host is present exactly when one is stored and it is not blank, and it is the stored text |
| SettingsStore.LoadSettings | browser/src/wasmJsMain/kotlin/com/opentool/SettingsStorage.wasmJs.kt:33-59 | Null without an api key entry or with an unknown enum name. The api key is read as stored. The host is present exactly when stored and not blank. A missing or unparsable iteration limit is 50, and a missing prompt is the default prompt |
| SettingsStore.Encoded | browser/src/wasmJsMain/kotlin/com/opentool/SettingsStorage.wasmJs.kt:25-31 | The entries `saveSettings` writes: seven keys, the number as `Int.toString`, the enums by `name`, a null host as "". Stated by `EncodedKeys` and `LoadAfterSave` |
| SettingsStore.KeysDistinct | browser/src/wasmJsMain/kotlin/com/opentool/SettingsStorage.wasmJs.kt:12-19 | The seven storage keys are pairwise distinct |
| SettingsStore.EncodedKeys | browser/src/wasmJsMain/kotlin/com/opentool/SettingsStorage.wasmJs.kt:12-31 | Save writes exactly the seven keys, each under the `browser-agent-` prefix |
| SettingsStore.LoadAfterSave | browser/src/wasmJsMain/kotlin/com/opentool/SettingsStorage.wasmJs.kt:22-59 | Loading after a save, over any earlier store, returns the saved settings. The only exception is a blank host, which comes back as null |
| SettingsStore.LoadOnlyApiKey | browser/src/commonMain/kotlin/com/opentool/AppSettings.kt:52-87 | A store holding only an api key loads as the defaults with that key |
| SettingsStore.WasmJsSettingsStorage.SaveSettings | browser/src/wasmJsMain/kotlin/com/opentool/SettingsStorage.wasmJs.kt:22-31 | The store becomes the old store overwritten with the seven encoded entries; other entries stay |
| SettingsManagement.SettingsManager.constructor | browser/src/commonMain/kotlin/com/opentool/AppSettings.kt:97-100 | The settings are the loaded ones, or the defaults when the load gives null, as it does with no api key |
| SettingsManagement.SettingsManager.UpdateSettings | browser/src/commonMain/kotlin/com/opentool/AppSettings.kt:112-115 | The current settings become the given ones, and they are saved so that a later load returns them (host not blank) |
| SettingsManagement.SettingsSurviveRestart | browser/src/commonMain/kotlin/com/opentool/AppSettings.kt:93-115 | A manager created on the same store after an update starts with the updated settings |
| SessionScenarios.OpenLinkAfterClose | playwright/src/main/kotlin/com/opentool/playwright/CurrentBrowser.kt:88-145 | After start then close, whatever the driver did, opening a link fails with the "start browser" error |
| SessionScenarios.LocateBeforeSnapshot | playwright/src/main/kotlin/com/opentool/playwright/CurrentBrowser.kt:204-206 | A fresh session refuses every reference until a snapshot is taken |
| SessionScenarios.LocateAfterSnapshot | playwright/src/main/kotlin/com/opentool/playwright/CurrentBrowser.kt:155-240 | After start and snapshot, a token from the snapshot locates `aria-ref=<id>` on the started page |
| SessionScenarios.LocateAfterClose | playwright/src/main/kotlin/com/opentool/playwright/CurrentBrowser.kt:88-240 | Close keeps the last snapshot, so the token passes every check and fails only for want of a page |
| SessionScenarios.CloseWhenEveryCloseThrows | playwright/src/main/kotlin/com/opentool/playwright/CurrentBrowser.kt:88-128 | When every close throws, the driver log is exactly the start calls followed by the closes of page, browser and engine, all handles are cleared, and the engine's exception, thrown last, is the one reported |

## Left out

- Playwright is not executed. Each driver call is a parameter:
  - creating the engine, launching the browser, opening a page;
  - navigating, capturing the ARIA snapshot, the mouse click, typing;
  - the visibility check, and whether a locator resolves.

  Calls that act on browser objects are recorded in a ghost log.
- `hashOfPage` uses `MessageDigest` MD5. It is an uninterpreted function of the page content.
  The page's URL and content are an input.
- CurrentBrowser.Session.GetPage: reading the page's URL and content is treated as never
  throwing. In the source, an exception from `url()` or `content()` escapes `getPage` to the
  tool's `executeSafely`. The model cannot produce that answer.
- CurrentBrowser.Session.ToLocator: `getPage`'s reads and `page.locator()` are treated as
  never throwing. The model only has a flag for whether the locator resolves.
- AgentTools: because of the two lines above, the default error texts of the `click`,
  `clickByRef`, `typeText` and `getSnapshot` tools never appear in the model. In the source,
  they answer a page read that throws with a null message.
- The `AtomicReference` fields are modelled as plain fields. The model is single-threaded.
- The "mouse interface is not available" branch of `click` is not modelled separately. A
  null mouse is one of the ways the click `Attempt` can throw.
- A null ARIA snapshot is treated as the empty snapshot. The source handles both with `isNullOrEmpty`.
- Strings are sequences of Unicode scalar values. Kotlin strings are UTF-16 code units, so
  `isWhitespace`, `trim`, `contains` and lengths are not exact for text with surrogate pairs.
- Text.ParseInt: reads ASCII digits only. Kotlin's `toIntOrNull` also accepts other Unicode decimal digits.
- AgentTools.Click: coordinates are unbounded integers, not 32-bit `Int`.
- The koog framework is not part of this model:
  - the node implementations for the model request, tool execution and sending the tool result;
  - the iteration budget;
  - how the prompt records the model's replies.

  `onAssistantMessage` is modelled as delivering the reply's text, and the strategy is
  modelled only as its edge table and the prompt operations.
- `AgentStrategy`'s generic `compressHistory<T>` is modelled as `CompressHistory<T>`, and the
  graph passes a tool result through it.
- `ServiceLoader` is not modelled. `DiscoverPlugins` takes the offered plugins as a sequence.
  The registry's companion singleton is not modelled.
- Tools are identified only by name; `ToolPlugin.getTools()` is the plugin's `tools` sequence.
- The desktop `Preferences` storage (SettingsStorage.jvm.kt) is not part of this model, and
  neither is the `getSettingsStorage` platform choice. The web `localStorage` is a
  string-to-string map.
- `SettingsManager` is a Kotlin `object` singleton. The model makes it a class built over a
  given storage, so that a restart can be expressed.
- The UI, `ChatService`, `BrowserAgent`, `BrowserAgentCore`, the example program and the
  keyboard, mouse, navigation and snapshot tool interfaces are not part of this model.
- AgentTools.StartBrowser: takes the `headless` flag as a parameter. The tool calls
  `startBrowser()` with no argument (PlaywrightAgentTools.kt:54), but the session method
  declares the parameter.
- AgentTools.NavigateTo: the tool's own default error text is never used, because the session's
  `openLink` catches every exception itself.
- CurrentBrowser.CheckRef: the "not found" text follows CurrentBrowser.kt:215.
  CurrentBrowserTest.kt expects a different message.
