# 1F916.ai front-end core, modelled in Dafny

This project models the deterministic parts of the 1F916.ai web front-end. The site is a themed page where a user configures a mock LLM request, is paired with another agent in a two-party "conversation room" kept in a realtime database, and then watches the room. The modelled parts are:

- **Room matchmaking**, shared by the two `handleSubmit` handlers of the initialize route (`Matchmaking`, `Store`).
  - Resolve the session's agent identity.
  - Scan the `conversations` snapshot for an open room: active, with exactly one agent. The last such room in enumeration order wins.
  - Either join that room with one key write, or push a fresh room.
  - The page's handler reads `agents` with a `|| {}` default. The editor's handler does not, and throws on an active room without `agents`.
- **The initialize page** (`InitializePage`):
  - the configuration held in state: restore from session storage, key-by-key update, reset;
  - the model lookup handed to the selector;
  - the submit handler, which saves the configuration first.
- **The initialize JSON editor** (`InitializeEditor`):
  - the JSON gate in front of the matchmaking;
  - the reset button;
  - the caret-restore walk over the lengths of its text nodes.
- **The request-message editor** (`MessagesEditor`): in-place field update through a shallow copy, append of a trimmed draft, and removal by index.
- **The model catalogue and selector** (`ModelCatalog`, `ModelSelector`): the constant tables, the initial selection, `handleSelect`, grouping by type and the check mark.
- **The playground page and its code viewer** (`PlaygroundPage`, `PlaygroundViewer`): the exported request object and the `||` display fallbacks.
- **The reverse captcha** (`RecaptchaWidget`): a status/loading state machine whose timer always reports failure.
- **The API-key login form** (`LoginForm`): a `sk-` prefix check, a session write and a redirect.

How JavaScript is represented:

- JavaScript values are the datatype `JsValue.Value`. A number is kept as the text JavaScript prints for it, because the components only test numbers for truthiness and display them.
- An expression that may throw a `TypeError` yields a `Completion`.
- These effects are parameters:
  - `JSON.parse` (`string -> Option<Value>`, `None` where it throws) and `JSON.stringify`;
  - `DOMPurify.sanitize`;
  - the random part of a generated identity;
  - the push key of a new room;
  - whether the database read or write is rejected (`Store.Connectivity`).
- The realtime database's `conversations` node is a class holding a map from room id to room, plus the order in which a snapshot enumerates the children. A pushed room is enumerated last.
- Navigation and alerts are returned as values (`Matchmaking.Submitted`, `LoginForm.Submission`).

The model follows the code, including where it departs from what the site's description and the code's own comments suggest:

- The page saves the configuration to session storage before it reads the store, and saves it even if the store is unreachable. The editor's handler saves no configuration and never uses the parsed JSON.
- The editor's scan throws on an active room with no `agents` child. The error is only logged: no room is joined or created and there is no navigation.
- The caret walk runs off the last text node when the caret is at the very end of the text (see Findings).
- The selector ignores the `selectedModel` prop the page passes it, so its check mark starts on the first model whatever the configuration says.

## Model

| member | source | states |
|---|---|---|
| JsValue.Get | app/playground/components/code-viewer.jsx:26 | reading a property throws exactly on `null`/`undefined`; on an object it reads the key's value, or `undefined` when the key is missing; on any other value it reads `undefined` |
| JsValue.Index | app/playground/page.jsx:39-41 | indexing throws exactly on `null`/`undefined`; on an array it is the element, or `undefined` past the end |
| JsValue.WithKey | app/initialize/page.jsx:91-93 | `{...prev, [key]: value}` holds `value` at `key`, and every other key is present and equal exactly as in the spread of `prev` |
| JsValue.WithKeyOnObject | app/playground/page.jsx:31-33 | on an object, the update is a one-key map update, and the key set grows by at most that key |
| JsString.TrimStart | app/initialize/components/messages.jsx:18 | the result is a suffix of the input, everything dropped is whitespace, and the result does not start with whitespace |
| JsString.TrimEnd | app/initialize/components/messages.jsx:18 | the result is a prefix of the input, everything dropped is whitespace, and the result does not end with whitespace |
| JsString.TrimIsInfix | app/initialize/components/messages.jsx:18-21 | `trim()` is a contiguous slice of the input whose first and last characters are not whitespace |
| JsString.TrimEmptyIffBlank | app/initialize/components/messages.jsx:18 | the trimmed text is empty exactly when every character is whitespace |
| Store.Children | app/initialize/page.jsx:111-113 | the snapshot's `forEach` visits each room exactly once (keys are pairwise distinct and a key is visited iff it is a room), in child order, each with its own value |
| Store.SessionStorage.SetItem | components/login-form.jsx:29 | `setItem` changes exactly one key to the given value |
| Matchmaking.LastOpenIndex | app/initialize/page.jsx:112-117 | the index found holds an open room, and no later child is open |
| Matchmaking.ScanRooms | app/initialize/page.jsx:109-118 | the `forEach` scan with its mutable `chatRoomId` throws exactly when unguarded and some room is active without `agents`; otherwise it ends on the last open room |
| Matchmaking.FindOrCreateRoom | app/initialize/page.jsx:106-137 | a rejected read or write, or a throwing scan, leaves the store as it was and reports which; otherwise the store becomes the placement (join the last open room or push a fresh one) and the caller enters that room; the store stays well formed |
| Matchmaking.ResolveAgentId | app/initialize/page.jsx:100-104 | a non-empty stored `ai_agent_uid` is reused and storage is untouched; otherwise `agent_` + the random part is returned and stored under that key |
| Matchmaking.GeneratedIdHasPrefix | app/initialize/components/code-viewer.jsx:121 | a generated identity starts with `agent_` |
| Matchmaking.LastOpenIsLastMatch | app/initialize/page.jsx:114-115 | the room the scan picks is active with exactly one agent, and no open room comes after it in child order |
| Matchmaking.LastOpenNoneIffNoOpenRoom | app/initialize/page.jsx:109-118 | the scan finds nothing exactly when no room is open, counting a missing `agents` as zero agents |
| Matchmaking.ScanThrowsIffActiveWithoutAgents | app/initialize/components/code-viewer.jsx:131-136 | the unguarded scan throws exactly when some active room has no `agents`; the guarded scan never throws |
| Matchmaking.JoinChangesOnlyChosenAgents | app/initialize/page.jsx:120-124 | joining adds `uid` to the chosen room's `agents` and changes nothing else: not its other fields, not the keys, not the order, not other rooms |
| Matchmaking.SelfJoinChangesNothing | app/initialize/page.jsx:114-123 | a caller that is already the sole agent of the chosen room leaves the store unchanged, and the room keeps one agent |
| Matchmaking.CreateAddsFreshRoom | app/initialize/page.jsx:125-135 | with no open room, the fresh key gets `{createdBy: uid, isActive: true, agents: {uid}, viewers: 0, messages: {}}`, is enumerated last, and existing rooms are untouched |
| Matchmaking.PlacedRoomHoldsCaller | app/initialize/page.jsx:137 | the room the caller is sent to exists and holds the caller, and the store stays well formed |
| Matchmaking.PlacePreservesAtMostTwo | app/initialize/page.jsx:114-124 | if no room has more than two agents before a placement, none has after it |
| Matchmaking.SequentialCallersArePaired | app/initialize/page.jsx:106-137 | two sequential distinct callers on a store with no open room share one room created by the first; it holds both, and no room is left open |
| InitializePage.UnusableSaveKeepsDefault | app/initialize/page.jsx:70-77 | a missing, empty or unparsable saved configuration leaves the default in place |
| InitializePage.SavedConfigRestored | app/initialize/page.jsx:73-97 | the text a submit saves restores that configuration on the next load, when the JSON round trip holds |
| InitializePage.FindByName | app/initialize/page.jsx:224 | `find` returns the first model with that name, and nothing exactly when no name matches |
| InitializePage.SelectedModel | app/initialize/page.jsx:224 | the lookup throws exactly on a `null` configuration |
| InitializePage.UnknownModelSelectsFirst | app/initialize/page.jsx:224 | a model that is no catalogue name falls back to `models[0]` |
| InitializePage.DefaultSelectsFirst | app/initialize/page.jsx:224 | the default configuration selects the first catalogue model |
| InitializePage.PickedModelIsSelected | app/initialize/page.jsx:224-226 | picking a catalogue model stores its name, and looking that name up returns the same model |
| InitializePage.HomePage.constructor | app/initialize/page.jsx:60-64 | the page starts with the default configuration and not loading |
| InitializePage.HomePage.RestoreSavedConfig | app/initialize/page.jsx:67-80 | the configuration becomes the parsed saved text when that text is non-empty and parses; otherwise it is unchanged |
| InitializePage.HomePage.UpdateConfig | app/initialize/page.jsx:91-93 | the configuration becomes the spread update at one key |
| InitializePage.HomePage.HandleModelSelect | app/initialize/page.jsx:226 | selecting a model stores its name under `model` |
| InitializePage.HomePage.ResetConfig | app/initialize/page.jsx:146-149 | reset restores the default and does not touch storage |
| InitializePage.HomePage.HandleSubmit | app/initialize/page.jsx:95-144 | the configuration is saved whatever happens next; then the identity is resolved and matchmaking uses the guarded read; a rejected read or write alerts `Error connecting to chat: ` + message and navigates nowhere; otherwise it navigates to `/chat/{id}` of the placement; `loading` ends false |
| InitializeEditor.RestoreCursorPosition | app/initialize/components/code-viewer.jsx:70-92 | a `null` position or no first child changes nothing; otherwise the walk stops at the first node it cannot step over, with offset `position - pos` clamped to the node's length; it crashes exactly when it steps over every node; the loop keeps `pos` equal to the skipped lengths and at most `position` |
| InitializeEditor.RestoreCursorPositionAtEnd | app/initialize/components/code-viewer.jsx:80-88 | the corrected walk never crashes; when every node before the last is stepped over, it puts the caret at the end of the last node, so with no empty node a caret at or past the end of the text lands there; elsewhere it stops where the written walk stops |
| InitializeEditor.EmptyNodeStopsWalk | app/initialize/components/code-viewer.jsx:80-88 | with nodes of lengths 2, 0 and 3 and the caret at 5, the walk stops in the empty second node at offset 0, that is at textual position 2 |
| InitializeEditor.EndOfTextCrashes | app/initialize/components/code-viewer.jsx:80-88 | with one five-character node and position 5, the written walk steps over every node |
| InitializeEditor.StopIsUnique | app/initialize/components/code-viewer.jsx:80-85 | at most one node satisfies the stopping condition, and none does when every node is stepped over |
| InitializeEditor.OffsetWithinNode | app/initialize/components/code-viewer.jsx:87-88 | the walk never passes the position; the offset is the distance into the stopping node, strictly inside a non-empty node, and 0 in an empty one |
| InitializeEditor.SkipsWhileAtOrPast | app/initialize/components/code-viewer.jsx:80-85 | over non-empty nodes, the first `k` are stepped over exactly when the position is at or past their total length |
| InitializeEditor.BoundaryAdvances | app/initialize/components/code-viewer.jsx:80-88 | a position exactly at a node's end puts the caret at offset 0 of the next node |
| InitializeEditor.InteriorPosition | app/initialize/components/code-viewer.jsx:80-88 | a position strictly inside a node puts the caret in that node, at the distance from its start |
| InitializeEditor.CrashesIffAtTotalLength | app/initialize/components/code-viewer.jsx:80-88 | with no empty node, the walk steps over every node exactly when the position is at least the total length |
| InitializeEditor.CodeViewer.constructor | app/initialize/components/code-viewer.jsx:13-48 | the editor starts with the default configuration's indented text, not loading |
| InitializeEditor.CodeViewer.HandleInput | app/initialize/components/code-viewer.jsx:94-98 | the edited text, sanitized, becomes `rawCode` |
| InitializeEditor.CodeViewer.Reset | app/initialize/components/code-viewer.jsx:211-217 | reset sets `rawCode` back to the default configuration's indented text |
| InitializeEditor.CodeViewer.HandleSubmit | app/initialize/components/code-viewer.jsx:109-162 | text that does not parse alerts `Invalid JSON configuration` and touches neither `loading`, storage nor the store; otherwise the identity is resolved and the unguarded scan runs; every failure leaves the store unchanged and navigates nowhere, with no alert; success navigates to `/chat/{id}`; `loading` ends false |
| MessagesEditor.Without | app/initialize/components/messages.jsx:28 | `filter((_, i) => i !== index)` drops exactly element `index` when it is in range and returns an equal list otherwise |
| MessagesEditor.RemoveDropsExactlyOne | app/initialize/components/messages.jsx:27-30 | removal shortens the list by one; together with the removed element it holds exactly the original elements |
| MessagesEditor.RemoveKeepsOrder | app/initialize/components/messages.jsx:27-30 | elements before the removed one keep their positions, and later ones move down by one |
| MessagesEditor.AddedContentIsTrimmedDraft | app/initialize/components/messages.jsx:18-21 | a draft is refused exactly when it is all whitespace; added content neither starts nor ends with whitespace |
| MessagesEditor.Editor.constructor | app/initialize/components/messages.jsx:8-9 | the draft starts with role `user` and empty content |
| MessagesEditor.Editor.SetNewRole | app/initialize/components/messages.jsx:69 | the draft's role changes and its content does not |
| MessagesEditor.Editor.SetNewContent | app/initialize/components/messages.jsx:78 | the draft's content changes and its role does not |
| MessagesEditor.Editor.UpdateMessage | app/initialize/components/messages.jsx:11-15 | the list passed on holds the same element objects; only the named field of element `index` changes, and the change is visible through the caller's list; with distinct elements every other element is unchanged; out of range it throws before `onChange` |
| MessagesEditor.Editor.AddMessage | app/initialize/components/messages.jsx:17-25 | a blank draft changes nothing and calls no `onChange`; otherwise a new `{role: newRole, content: trimmed}` is appended after the unchanged elements, `newContent` is cleared and `newRole` kept |
| MessagesEditor.Editor.RemoveMessage | app/initialize/components/messages.jsx:27-30 | in range, the list passed on is one shorter, lacks exactly the element at `index` (as a multiset) and keeps the others in order; out of range, it is the same list |
| ModelCatalog.IdsAreDistinct | app/initialize/data/models.js:8-90 | the catalogue has ten models with distinct ids |
| ModelCatalog.NamesAreIds | app/initialize/data/models.js:8-90 | every model's name is its id, so names are distinct too |
| ModelCatalog.TypesCoverModels | app/initialize/data/models.js:1-90 | the four types are distinct, every model's type is one of them, and every type has a model |
| ModelCatalog.FirstModelIsDefault | app/initialize/data/models.js:10-11 | the first model is `gpt-4o` |
| ModelSelector.OfType | app/initialize/components/model-selector.jsx:115-116 | the filter keeps exactly the models of the given type |
| ModelSelector.GroupsFollowTypes | app/initialize/components/model-selector.jsx:109-127 | there is one group per type, in the order of `types`, and each item is a model of that group's type |
| ModelSelector.OfTypeKeepsOrder | app/initialize/components/model-selector.jsx:115-117 | filtering distributes over concatenation, so items keep catalogue order |
| ModelSelector.OfTypeCounts | app/initialize/components/model-selector.jsx:115-116 | a group lists each model of its type as often as the catalogue does, and no other model |
| ModelSelector.ModelsOfItems | app/initialize/components/model-selector.jsx:117-124 | the items of a group are its filtered models, in order |
| ModelSelector.EachModelListedOnce | app/initialize/components/model-selector.jsx:109-127 | with distinct types, a model is shown as often as it occurs if its type is listed, and not at all otherwise |
| ModelSelector.MarkedInGroup | app/initialize/components/model-selector.jsx:121 | the check marks in a group count the group's models whose id is the selection's id |
| ModelSelector.CountWithUnique | app/initialize/components/model-selector.jsx:121 | with unique ids, a selection from the list matches only itself |
| ModelSelector.CountWithAbsent | app/initialize/components/model-selector.jsx:121 | an id no model has is matched by none |
| ModelSelector.ExactlyOneMarked | app/initialize/components/model-selector.jsx:109-127 | with unique ids and distinct types, exactly one item is marked when the selection's type is listed, and none otherwise |
| ModelSelector.CatalogueRendering | app/initialize/components/model-selector.jsx:109-127 | with the catalogue itself, every model is shown once and a selected catalogue model is the one marked item |
| ModelSelector.OccursOnce | app/initialize/data/models.js:8-90 | in a list with unique ids, a member occurs exactly once |
| ModelSelector.Selector.constructor | app/initialize/components/model-selector.jsx:28-31 | the popover starts closed, and the selected and peeked models both start as `models[0]`; a `selectedModel` prop has no effect |
| ModelSelector.Selector.HandleSelect | app/initialize/components/model-selector.jsx:33-39 | the selection becomes the model, the popover closes, and `onModelSelect` is called once with it when supplied |
| ModelSelector.Selector.SetOpen | app/initialize/components/model-selector.jsx:58 | the popover's open state changes and nothing else does |
| ModelSelector.Selector.Peek | app/initialize/components/model-selector.jsx:122 | the peeked model changes and the selection does not |
| PlaygroundPage.UpdateConfig | app/playground/page.jsx:31-33 | the named key takes the value and every other key keeps its value |
| PlaygroundPage.GenerateConfig | app/playground/page.jsx:36-46 | the export throws exactly when one of the three slider arrays is missing |
| PlaygroundPage.ExportedFields | app/playground/page.jsx:36-46 | the exported `model` is the selection's name, or "text-davinci-003" when that name is falsy; `temperature`, `max_tokens` and `top_p` are the first slider elements; `prompt` is copied verbatim; both penalties are 0; there are no other keys |
| PlaygroundPage.ExportedModelTruthy | app/playground/page.jsx:38 | the exported model is never falsy, and a missing model exports the fallback |
| PlaygroundPage.ExportIgnoresOtherKeys | app/playground/page.jsx:36-46 | the penalties the configuration holds, and any other key the export does not read, do not affect the export |
| PlaygroundPage.SelectedModelExported | app/playground/page.jsx:36-51 | selecting a model with a truthy name changes only the exported `model`, to that name |
| PlaygroundPage.DefaultExport | app/playground/page.jsx:19-64 | reset restores a default whose model is `models[0]`, and whose export is that model's name (or the fallback), 0.56, 256, 0.5, the default prompt and zero penalties |
| PlaygroundPage.ViewerShowsExport | app/playground/page.jsx:59 | when the JSON round trip holds, the viewer shows the exported model, never its "davinci" default, along with zero penalties and each slider value unless it is falsy |
| PlaygroundViewer.ShownFrom | app/playground/components/code-viewer.jsx:26 | the viewer throws exactly on a parsed `null` |
| PlaygroundViewer.ParseFailureShowsDefaults | app/playground/components/code-viewer.jsx:18-23 | text that fails to parse shows every default |
| PlaygroundViewer.NoFieldsShowsDefaults | app/playground/components/code-viewer.jsx:63-103 | any parsed value without truthy fields shows every default |
| PlaygroundViewer.DisplayThrowsIff | app/playground/components/code-viewer.jsx:18-26 | the display throws exactly when the text parses to `null` |
| PlaygroundViewer.FieldFallbacks | app/playground/components/code-viewer.jsx:63-97 | each field shows the configuration's value when truthy, and otherwise `davinci`, 0.9, 5, 1, 0 and 0 respectively |
| PlaygroundViewer.ZeroMaxTokensShowsFive | app/playground/components/code-viewer.jsx:79 | a genuine 0 for `max_tokens` is displayed as 5 |
| PlaygroundViewer.PromptVerbatim | app/playground/components/code-viewer.jsx:26 | a non-empty prompt is shown verbatim between two quote characters, with nothing escaped |
| RecaptchaWidget.StepKeepsReachable | components/recaptcha.jsx:19-51 | every event keeps the invariant: never `success`, a timer pending exactly while loading, loading only when idle |
| RecaptchaWidget.RunKeepsReachable | components/recaptcha.jsx:19-34 | any sequence of events keeps the invariant |
| RecaptchaWidget.NeverSucceeds | components/recaptcha.jsx:19-106 | no sequence of events from the start reaches `success`, so the footer Reset has no effect |
| RecaptchaWidget.ClickTimerTryAgain | components/recaptcha.jsx:23-93 | a click is accepted exactly when idle and not loading, and sets `loading`; the timer gives `failed` with `loading` cleared; Try Again from `failed` gives `idle` |
| RecaptchaWidget.Recaptcha.constructor | components/recaptcha.jsx:19-20 | the widget starts idle, not loading, with no timer |
| RecaptchaWidget.Recaptcha.HandleVerification | components/recaptcha.jsx:22-30 | `loading` is set and the timer scheduled; the status is unchanged |
| RecaptchaWidget.Recaptcha.TimerCallback | components/recaptcha.jsx:26-29 | the status becomes `failed` and `loading` false |
| RecaptchaWidget.Recaptcha.HandleReset | components/recaptcha.jsx:32-34 | the status becomes `idle` and `loading` is left unchanged |
| RecaptchaWidget.Recaptcha.Handle | components/recaptcha.jsx:48-106 | dispatching an event through the rendered handlers has the effect of `Step` |
| LoginForm.AcceptsKeyIff | components/login-form.jsx:24 | a key is accepted exactly when its first three characters are `s`, `k`, `-` |
| LoginForm.BarePrefixAccepted | components/login-form.jsx:24 | `sk-` alone is accepted |
| LoginForm.LeadingWhitespaceRejected | components/login-form.jsx:24 | a key with leading whitespace is rejected, because nothing is trimmed |
| LoginForm.Form.constructor | components/login-form.jsx:18 | the key starts empty |
| LoginForm.Form.SetApiKey | components/login-form.jsx:52 | the input sets the key |
| LoginForm.Form.HandleSubmit | components/login-form.jsx:21-31 | a key without the prefix alerts and stores nothing, with no navigation; an accepted key is stored verbatim under `openai_api_key` and the form navigates to `/` |

## Left out

- The realtime-database client (`ref`, `get`, `push`, `set`), `async`/`await` sequencing and the router. The store is a map-valued object, a rejected request is the `Connectivity` parameter, and navigation is a returned value.
- The race where two concurrent joiners both see a one-agent room and both write. This is concurrency across clients; the model handles one caller at a time.
- DOMPurify, the regex-based `syntaxHighlight` and the `innerHTML` writes. They are a foreign library and a regex engine producing HTML. Sanitizing is a parameter of `HandleInput`.
- `saveCursorPosition`, `requestAnimationFrame` and the paste handler. These are DOM selection calls. The restore walk is modelled over the lengths of text nodes only, and element nodes in the editor are not modelled.
- `JSON.parse` and `JSON.stringify`. They are opaque parameters, and their round trip is a hypothesis where a lemma needs it.
- `Math.random`. The random part of an identity and the push key are parameters.
- The `setTimeout` delays, the clipboard writes and the "Copied!" flag. Only the order of the timer callback is modelled, as an event.
- Floating point. Slider values are opaque number texts.
- The pass-through UI components: the temperature, max-length and top-p selectors, and both prompt components.
- Presence tracking, the message relay and the chat-room page.
- How React renders a value (`{config.temperature || 0.9}`). The viewer's result is the value that would be rendered.
- Built-in properties such as `length` and prototype members. No property the components read is one of them.
- The link from `config.messages` on the initialize page to `MessagesEditor.Message` objects. The page's configuration is a value, and the editor works on the objects it is given.
- app/playground/data/models.js and the playground's own model selector are not part of this model. The playground's model list is a parameter of `PlaygroundPage.DefaultConfig`.
- MessagesEditor.Editor.UpdateMessage: the source's `key` can be any property name. The model takes only the two fields the UI edits, `role` and `content`.
- InitializeEditor.RestoreCursorPosition: the result says where the caret is placed, not the DOM `Range` calls that place it.
- InitializeEditor.RestoreCursorPositionAtEnd: corrects only the run past the last node. Like the written walk, it stops at an empty text node, so its end-of-text placement is promised only when every node before the last is stepped over.

## Findings

| source | as written | input that shows it | evidently intended | confidence | as-written member | corrected member |
|---|---|---|---|---|---|---|
| app/initialize/components/code-viewer.jsx:80-88 | a position equal to the end of the last node steps over that node, so `node` becomes `null` and `node.length` throws | text nodes of lengths `[5]`, caret at position 5 (the end of the text) | keep the caret at the end of the last node, when every node before it is stepped over | high, not executed | InitializeEditor.EndOfTextCrashes | InitializeEditor.RestoreCursorPositionAtEnd |

A second observation, not entered as a row because no corrected walk is modelled for it: the `node.length > 0` condition at code-viewer.jsx:80 also stops the walk at an empty text node. With nodes of lengths 2, 0 and 3 and the caret at 5, the caret is put at textual position 2 (`InitializeEditor.EmptyNodeStopsWalk`). Not executed.
