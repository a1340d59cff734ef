# ai-project-init: the Gemini generation service in Dafny

This project models the service layer of ai-project-init that turns a language
model's raw reply into typed nodes of a project hierarchy:
project → epics → features → user stories → tasks. It also models the node
shape that service fills in. The model covers:

- **`GeminiService`** (class `Service.GeminiService`). It holds the SDK client
  and the model handle that `initialize` sets. `generateContent` fails when no
  model handle is set, and otherwise wraps provider failures with a fixed
  prefix.
- **`cleanJsonResponse`** (module `Sanitizer`). This is the response
  sanitizer: trim, strip a Markdown code fence, cut to the span from the first
  `[` to the last `]`, then either return the text trimmed (when it already
  parses) or run a lossy repair:
  - un-escape `\n`, `\r`, `\t`, `\\` and `\"`;
  - drop control characters other than tab, line feed and carriage return;
  - trim.

  The pipeline is written twice. The first is pure functions (`Cleaned` and its
  steps), the specification. The second is the imperative method
  `CleanJsonResponse`, which reassigns the working text step by step and runs
  loops over the characters; it is proved equal to `Cleaned`.
- **The four generators** `generateEpics`, `generateFeatures`,
  `generateStories` and `generateTasks`. Each one:
  1. builds a prompt around the parent's title and description (module
     `Prompts`);
  2. calls the model;
  3. sanitizes and parses the reply;
  4. maps each parsed record, by position, to a `ProjectNode` of the generated
     level (module `Mapping`).

  Failures: the epic generator translates a failure message into a
  user-facing one by looking for "API key", then "network" or "fetch", then
  "JSON". The other three re-throw the failure unchanged.
- **The data model** of `src/components/models.ts` (module `Models`):
  - the `CellType` tags;
  - the enumerated domains of priority, status and effort;
  - `ProjectNode`, whose copied properties hold whatever JSON value the model's
    record had, because the service checks none of them. The predicate
    `WellTyped` states the declared interface.

The language model, `JSON.parse` and `Date.now()` are parameters:

- `provider` answers a prompt sent through a model handle, either with a text
  or with a thrown value (an `Error` with its message, or any other value).
- `parse` maps a text to a JSON value or to the parser's error message.
- `clock` gives the successive readings of `Date.now()`. The mapping reads it
  twice per record: reading `2 * i` for record `i`'s id and reading `2 * i + 1`
  for its timestamp.

Where the written description of the service and its code differ, the model
follows the code:

- A task's `status` is copied from the record as it is. It is not defaulted to
  `pending` (`src/services/geminiService.ts:342`).
- Only the epic generator classifies failure messages. The others re-throw the
  original message, so a reply that does not parse reaches their callers as
  the parser's own message, not as an invalid-response message
  (`src/services/geminiService.ts:217-220`).
- The repair pass un-escapes `\n` before `\\`. An over-escaped reply such as
  `[\"a\\nb\"]` therefore becomes `["a\` followed by a line feed and `b"]`.
  That is not valid JSON, so the repair does not always make a reply parse
  (`SanitizerExamples.OverEscapedReply`).
- Rendering the parent's title, description or criteria into a prompt can
  itself fail: a value from `JSON.parse` that is an object with its own
  `toString` key cannot be converted to text. The prompt is built before the
  `try`, so that failure reaches even the epic caller unclassified
  (`Service.EpicTitleNotConvertible`).

## Model

| member | source | states |
|---|---|---|
| Models.CellTypeOf | src/components/models.ts:53 | a string names a tag exactly when it is one of project, epic, feature, story, task, and then it names exactly that tag |
| Models.PriorityOf | src/components/models.ts:64 | a string is a priority exactly when it is low, medium or high |
| Models.StatusOf | src/components/models.ts:69 | a string is a status exactly when it is pending, in-progress or completed |
| Models.EffortOf | src/components/models.ts:67 | a string is an effort exactly when it is small, medium or large |
| Models.PriorityValue | src/components/models.ts:64 | a well-typed node's priority is absent exactly when it has none, and otherwise it is the text of one of the three priorities |
| Models.StatusValue | src/components/models.ts:69 | a well-typed node's status is absent or the text of one of the three statuses |
| Models.EffortValue | src/components/models.ts:67 | a well-typed node's estimated effort is absent or the text of one of the three efforts |
| Text.Trim | src/services/geminiService.ts:39 | `trim()`: the result is the part of the text that starts after its leading JavaScript whitespace, everything after that part is whitespace, the result has no whitespace at either end, and a text already in that state is returned unchanged |
| Text.TrimKeepsCharacters | src/services/geminiService.ts:82 | every character of the trimmed text occurs in the original |
| Text.IndexOf | src/services/geminiService.ts:50 | `indexOf`: -1 exactly when the character is absent, otherwise an index holding it with no earlier occurrence |
| Text.LastIndexOf | src/services/geminiService.ts:51 | `lastIndexOf`: -1 exactly when the character is absent, otherwise an index holding it with no later occurrence |
| Text.Join | src/services/geminiService.ts:287 | `join(separator)`: no parts give the empty text, one part gives that part, and the result starts with the first part; it is empty exactly when every part is empty and the separator is never written or is empty |
| Text.JoinAppend | src/services/geminiService.ts:287 | the separator goes between the parts: joining one more part appends the separator and then that part |
| Text.NatToDecimal | src/services/geminiService.ts:141 | the numeral a template literal writes for a time or an index is a non-empty run of digits, one digit long exactly for numbers below ten, and starts with `0` only for zero |
| Text.NatToDecimalValue | src/services/geminiService.ts:141 | the numeral read back as a decimal number is the number written: the digits spell `n` |
| Text.NatToDecimalInjective | src/services/geminiService.ts:141 | different numbers are written as different numerals |
| Text.ContainsAfterPrefix | src/services/geminiService.ts:33 | putting a fixed text before a message neither creates nor hides an occurrence of a word that cannot start inside that text |
| Sanitizer.DropOpening | src/services/geminiService.ts:43 | removing the opening fence and an optional line feed shortens the text by at least the marker's length |
| Sanitizer.DropClosing | src/services/geminiService.ts:46 | removing a closing fence keeps a prefix of the text, and shortens it exactly when it ends with a fence |
| Sanitizer.Unfenced | src/services/geminiService.ts:41-47 | fence stripping never lengthens the text and leaves a text without a leading fence unchanged; the four fence forms are stated by the lemmas below |
| Sanitizer.UnfencedJsonBlock | src/services/geminiService.ts:41-43 | a `json` fence with line feeds around an array is removed whole |
| Sanitizer.UnfencedJsonInline | src/services/geminiService.ts:41-43 | a `json` fence without line feeds around an array is removed whole |
| Sanitizer.UnfencedBareBlock | src/services/geminiService.ts:44-46 | a bare fence with line feeds around an array is removed whole |
| Sanitizer.UnfencedBareInline | src/services/geminiService.ts:44-46 | a bare fence without line feeds around an array is removed whole |
| Sanitizer.SpanConditionIsBracketPair | src/services/geminiService.ts:50-53 | the source's slicing condition holds exactly when some `[` is followed later by a `]` |
| Sanitizer.SliceArray | src/services/geminiService.ts:50-55 | with a `[`...`]` pair the result is the span from the first `[` to the last `]`, starting with `[` and ending with `]`; without one the text is unchanged |
| Sanitizer.Unescaped | src/services/geminiService.ts:68-72 | an un-escaping replacement never lengthens the text; its replacing behaviour is stated by the three lemmas below |
| Sanitizer.UnescapedPlainPrefix | src/services/geminiService.ts:68-72 | text before the first backslash passes through unchanged |
| Sanitizer.UnescapedNoPairPrefix | src/services/geminiService.ts:68-72 | text in which no backslash is followed by the letter passes through unchanged, backslashes included |
| Sanitizer.UnescapedPair | src/services/geminiService.ts:68-72 | the first backslash followed by the letter is replaced, with the surrounding text and the rest still un-escaped |
| Sanitizer.UnescapedLoneBackslash | src/services/geminiService.ts:68-72 | a first backslash not followed by the letter is kept, and scanning resumes right after it |
| Sanitizer.UnescapedAll | src/services/geminiService.ts:68-72 | the five replacements in order never lengthen the text and leave text without a backslash unchanged |
| Sanitizer.KeptPrintable | src/services/geminiService.ts:74-80 | the character filter never lengthens the text and keeps only code 32 and above, tab, line feed and carriage return; that it keeps every such character, in order, is stated by the two lemmas below |
| Sanitizer.KeptPrintableConcat | src/services/geminiService.ts:74-80 | filtering works character by character: the filter of a concatenation is the concatenation of the filters |
| Sanitizer.KeptPrintableCounts | src/services/geminiService.ts:74-80 | the filter keeps every occurrence of each printable character and none of any other |
| Sanitizer.Repaired | src/services/geminiService.ts:66-82 | the repair pass never lengthens the text and leaves no control character other than tab, line feed and carriage return |
| Sanitizer.Cleaned | src/services/geminiService.ts:38-84 | the sanitized text is never longer than the reply |
| Sanitizer.Finished | src/services/geminiService.ts:58-83 | the last step, fast path or repair, never lengthens the sliced text |
| Sanitizer.ReplaceEscape | src/services/geminiService.ts:68-72 | the left-to-right scan computes the un-escaping replacement |
| Sanitizer.DropControlCharacters | src/services/geminiService.ts:74-80 | the scan computes the character filter |
| Sanitizer.RepairText | src/services/geminiService.ts:66-82 | the five replacements, the filter and the trim compute the repair pass |
| Sanitizer.StripFences | src/services/geminiService.ts:41-47 | the two conditional reassignments compute the fence stripping |
| Sanitizer.SliceToArray | src/services/geminiService.ts:49-55 | the conditional `substring` computes the slice |
| Sanitizer.CleanJsonResponse | src/services/geminiService.ts:38-84 | the step-by-step method returns exactly the sanitized text `Cleaned` specifies |
| Sanitizer.UnescapedKeepsFirst | src/services/geminiService.ts:68-72 | un-escaping keeps a first character that is not a backslash |
| Sanitizer.UnescapedKeepsLast | src/services/geminiService.ts:68-72 | un-escaping keeps a last character that is not the escaped letter |
| Sanitizer.UnescapedWithoutBackslash | src/services/geminiService.ts:68-72 | text without a backslash is not changed by un-escaping |
| Sanitizer.KeptPrintableKeepsLast | src/services/geminiService.ts:74-80 | the filter keeps a printable last character |
| Sanitizer.KeptPrintableWhenPrintable | src/services/geminiService.ts:74-80 | the filter leaves printable text unchanged |
| Sanitizer.RepairedFramesArray | src/services/geminiService.ts:66-82 | the repair of a text framed by `[` and `]` is still framed by them |
| Sanitizer.RepairedPlainText | src/services/geminiService.ts:66-82 | on text without backslashes or control characters the repair is just a trim |
| Sanitizer.RepairedAfterUnescaping | src/services/geminiService.ts:66-82 | when the un-escaped text is printable and trimmed, the repair is the un-escaping alone |
| Sanitizer.FinishedIsBracketed | src/services/geminiService.ts:58-83 | a text framed by `[` and `]` stays framed on both the fast path and the repair path |
| Sanitizer.CleanedIsBracketed | src/services/geminiService.ts:50-82 | when the trimmed, fence-stripped reply has a `[` followed later by a `]`, the sanitized text starts with `[` and ends with `]`, whether or not it parsed |
| Sanitizer.SliceArrayKeepsArray | src/services/geminiService.ts:50-55 | slicing a text framed by `[` and `]` keeps all of it |
| Sanitizer.CleanedFixesParsedArray | src/services/geminiService.ts:39-61 | a text framed by `[` and `]` that parses comes back unchanged |
| Sanitizer.CleanedIdempotentOnFastPath | src/services/geminiService.ts:38-61 | for a reply with a `[` followed later by a `]` whose sliced text parses, sanitizing the result again gives the same text |
| Sanitizer.CleanedWithoutBracketPair | src/services/geminiService.ts:50-55 | without a `[`...`]` pair the slicing step changes nothing: the result is the fence-stripped text trimmed, or repaired |
| Sanitizer.CleanedPlainProse | src/services/geminiService.ts:39-82 | bracket-free prose without backslashes, control characters or a fence comes back only trimmed, whether it parses or not |
| Sanitizer.FencedArrayUnwrapped | src/services/geminiService.ts:42-61 | a parseable array inside a json code fence comes back without the fence |
| Sanitizer.SliceArrayAroundArray | src/services/geminiService.ts:50-55 | slicing cuts away text without `[` before an array and text without `]` after it |
| Sanitizer.ProseAroundArray | src/services/geminiService.ts:49-61 | commentary around a parseable array is cut away |
| SanitizerExamples.ProseAroundArrayExample | src/services/geminiService.ts:49-61 | `Here you go: [1,2,3] thanks` becomes `[1,2,3]` |
| SanitizerExamples.FencedArrayExample | src/services/geminiService.ts:42-61 | a fenced one-element array loses its fence |
| SanitizerExamples.OverEscapedReply | src/services/geminiService.ts:68-82 | the over-escaped reply `[\"a\\nb\"]` is repaired to `["a\`, a line feed and `b"]`, because `\n` is replaced before `\\` |
| Runtime.Show | src/services/geminiService.ts:102-103 | a template literal renders a string as the string itself, and renders something empty only for the empty string or an array |
| Runtime.ShowItems | src/services/geminiService.ts:287 | the parts `join` works with: one per element, a string element is its text and a `null` element is empty |
| Runtime.ShowField | src/services/geminiService.ts:102-103 | a missing property renders as `undefined`, a present one as its value renders |
| Runtime.NullRead | src/services/geminiService.ts:143 | the `TypeError` for reading a property of `null` names that property |
| Runtime.NotAFunction | src/services/geminiService.ts:140 | the `TypeError` for calling a non-function starts with the callee and ends with ` is not a function` |
| Prompts.CriteriaText | src/services/geminiService.ts:287 | the criteria render fails exactly when they are present, not `null`, and either not an array (with the `join is not a function` error) or an array holding an object with its own `toString` key (with the conversion error); otherwise the text is never empty, and missing, `null` and empty criteria render as `N/A` |
| Prompts.CriteriaOfTexts | src/services/geminiService.ts:287 | a list of strings renders as those strings joined with `, `, or as `N/A` when that join is empty |
| Prompts.Prompt | src/services/geminiService.ts:100-103 | building a prompt fails exactly when the title or description cannot be converted to text, or, for a task, when the criteria render fails; a conversion failure gives the conversion `TypeError` and otherwise the criteria render's error (likewise 171-174, 224-227, 283-287) |
| Prompts.PromptShowsParent | src/services/geminiService.ts:100-103 | a prompt opens with its role sentence, ends with the closing line, and carries the parent's title and description as a template literal renders them (likewise 171-174, 224-227, 283-286) |
| Prompts.TaskPromptWithoutCriteria | src/services/geminiService.ts:287 | a story with renderable title and description and without criteria, with `null` criteria or with an empty list gives the line `Acceptance Criteria: N/A` |
| Mapping.BatchIdInjective | src/services/geminiService.ts:141 | equal ids come from the same level, the same clock reading and the same index |
| Mapping.Member | src/services/geminiService.ts:143-146 | a property read yields a value exactly when the record is an object with that key, and then yields that key's value |
| Mapping.BatchId | src/services/geminiService.ts:141 | an id starts with the level's tag and `_`, and ends with `_` and the record's index |
| Mapping.NewNode | src/services/geminiService.ts:140-150 | node `i` has id `<tag>_<reading>_<i>`, the level's tag, the caller's id as parent, no children, the second reading as timestamp, and exactly the level's keys copied from the record, with all other copied properties absent; only tasks get empty dependencies (likewise 206-216, 264-275, 335-347) |
| Mapping.MapBatch | src/services/geminiService.ts:140-150 | mapping succeeds exactly on an array without `null` records, keeping count and order (record `i` becomes node `i`); a `null` reply, a non-array reply and a `null` record each fail with the engine's `TypeError` |
| Mapping.BatchNodesShape | src/services/geminiService.ts:142-148 | every node of a batch has the generated level, the caller's id as parent, no children, dependencies only for tasks, and an id that starts with its level's tag |
| Mapping.BatchIdsDistinct | src/services/geminiService.ts:141 | no two nodes of a batch share an id, whatever the clock reads |
| Mapping.NewNodeWellTyped | src/services/geminiService.ts:140-146 | a node has the declared `ProjectNode` shape exactly when every property copied from its record passes its domain check |
| Mapping.NumericTitleNotChecked | src/services/geminiService.ts:143 | a record with a numeric title yields a node that is not well typed: nothing is checked |
| Service.Content | src/services/geminiService.ts:21-36 | `generateContent` fails with the not-initialized message without a model handle; it succeeds exactly when the provider replies, with that reply; otherwise it fails with the provider's message (or `Unknown error`) behind `Failed to generate content: ` |
| Service.ThrownMessage | src/services/geminiService.ts:33 | an `Error` contributes its own message; any other thrown value contributes a message with none of the recognised words |
| Service.ClassifyEpicError | src/services/geminiService.ts:156-166 | a message with `API key` becomes the invalid-key message; otherwise one with `network` or `fetch` becomes the network message; otherwise one with `JSON` becomes the invalid-format message; a message without any of the words is re-thrown as it is |
| Service.Attempt | src/services/geminiService.ts:130-150 | the `try` block fails with the not-initialized message without a model handle, re-throws a `generateContent` failure as it is, and succeeds only when the provider replied, the sanitized reply parsed and the parsed value mapped |
| Service.Generation | src/services/geminiService.ts:99-168 | a prompt that cannot be built fails the call with its own error; the other levels return the attempt unchanged; an epic failure after the prompt is one of the three user-facing messages or a message with none of the recognised words |
| Service.GeminiService.constructor | src/services/geminiService.ts:5-7 | a new service has neither client nor model handle |
| Service.GeminiService.Initialize | src/services/geminiService.ts:9-19 | an empty key fails with `API key is required` and changes nothing; any other key sets the client and the model handle for the named model |
| Service.GeminiService.GenerateContent | src/services/geminiService.ts:21-36 | the method's outcome is `Content` for the current model handle |
| Service.GeminiService.TryGenerate | src/services/geminiService.ts:130-150 | the shared `try` block fetches, sanitizes, parses and maps, ending at the first failure |
| Service.GeminiService.GenerateEpics | src/services/geminiService.ts:99-168 | epic generation returns what `Generation` specifies, with failures classified |
| Service.GeminiService.GenerateFeatures | src/services/geminiService.ts:170-221 | feature generation returns what `Generation` specifies, with failures unchanged |
| Service.GeminiService.GenerateStories | src/services/geminiService.ts:223-280 | story generation returns what `Generation` specifies, with failures unchanged |
| Service.GeminiService.GenerateTasks | src/services/geminiService.ts:282-352 | task generation returns what `Generation` specifies, including the prompt's own failure |
| Service.NotInitializedMentionsApiKey | src/services/geminiService.ts:23 | the not-initialized message contains `API key` |
| Service.UninitializedEpicsReportInvalidKey | src/services/geminiService.ts:156-158 | before `initialize`, epic generation with a renderable prompt fails with the invalid-API-key message |
| Service.UninitializedOtherLevels | src/services/geminiService.ts:217-220 | before `initialize`, the other generators fail with the not-initialized message itself |
| Service.TaskPromptFailsFirst | src/services/geminiService.ts:287 | for a story with renderable title and description, criteria that are not an array fail task generation with the `join is not a function` error, initialized or not |
| Service.PrefixKeepsRecognition | src/services/geminiService.ts:32-34 | the `Failed to generate content: ` prefix neither adds nor hides a recognised word, so the classification is that of the provider's message |
| Service.EpicProviderFailure | src/services/geminiService.ts:151-166 | a provider failure in epic generation is classified by the provider's message, or re-thrown wrapped when that has none of the words |
| Service.UnknownErrorUnrecognised | src/services/geminiService.ts:33 | `Unknown error` contains none of the recognised words |
| Service.EpicThrownValue | src/services/geminiService.ts:30-34 | a thrown non-`Error` reaches the epic caller as `Failed to generate content: Unknown error` |
| Service.OtherLevelProviderFailure | src/services/geminiService.ts:217-220 | the other generators re-throw a provider failure as `generateContent` wrapped it |
| Service.ParseFailure | src/services/geminiService.ts:137 | a reply that does not parse fails with the parser's message, classified for epics and unchanged otherwise |
| Service.NullReadUnrecognised | src/services/geminiService.ts:143 | reading a property of `null` raises a message with none of the recognised words, for a property name without `A`, `w`, `h` or `J` |
| Service.NotAFunctionUnrecognised | src/services/geminiService.ts:140 | calling a non-function raises a message with none of the recognised words, for a name without `A`, `w`, `h` or `J` |
| Service.MappingErrorsUnrecognised | src/services/geminiService.ts:140 | the mapping's `TypeError`s contain none of the recognised words |
| Service.MappingFailureUnchanged | src/services/geminiService.ts:140-166 | a parsed reply that is not an array of non-null records fails every generator, epics included, with the mapping's own `TypeError` |
| Service.GenerationSucceeded | src/services/geminiService.ts:130-150 | a success implies an initialized service, a provider reply, a sanitized reply that parsed to an array, and nodes that are that array mapped |
| Service.GeneratedBatchShape | src/services/geminiService.ts:140-150 | a successful generation's nodes have the generated level, the caller's id as parent, no children, and distinct ids |
| Service.ApiKeyTakesPriority | src/services/geminiService.ts:157-158 | a message containing `API key` becomes the invalid-key message, whatever else it contains |
| Service.NetworkBeforeJson | src/services/geminiService.ts:159-162 | a message without `API key` that contains `network` or `fetch` becomes the network message, even when it also contains `JSON` |
| Service.JsonOnlyReportsInvalidFormat | src/services/geminiService.ts:161-162 | a message whose only recognised word is `JSON` becomes the invalid-format message |
| Service.EpicTitleNotConvertible | src/services/geminiService.ts:102 | a project whose title is an object with its own `toString` key fails epic generation with the conversion `TypeError`, unclassified, initialized or not |

## Left out

- The Gemini SDK and the Promise machinery (`src/services/geminiService.ts:17-18`, `27-29`). The SDK client and model handle are plain values. The model call is the `provider` parameter, and `await` is not modelled.
- `JSON.parse` is the `parse` parameter. JSON numbers are integers, so fractions, exponents and double rounding are not modelled. Objects are maps, so key order and duplicate keys are not modelled.
- `Date.now()` is the `clock` parameter. The model says nothing about the clock's values (monotonic or not); ids are distinct whatever it returns.
- Prompts.Prompt: the schema and formatting guidance between the parent's lines and the closing line of each prompt (`src/services/geminiService.ts:105-127`, `176-198`, `229-256`, `289-327`) is fixed text and is not reproduced.
- `testConnection` (`src/services/geminiService.ts:87-97`) is a network probe that lower-cases the reply; it is not modelled.
- `console.log` and `console.error` are logging only, including the key prefix logged by `initialize`.
- The exported singleton `geminiService` (`src/services/geminiService.ts:355`). The model has the class; a caller constructs it.
- Errors are modelled by their message only; their class (`Error`, `TypeError`, `SyntaxError`) is not kept. Inside the generators every caught value is an `Error`, so the `instanceof Error` test there always holds.
- Runtime.NullRead and Runtime.NotAFunction follow the V8 engine's wording of the `TypeError` messages. Other engines word them differently.
- Runtime.Show renders every object without its own `toString` key as `[object Object]`, and `Runtime.Convertible` marks an object with that key (or an array holding one) as failing conversion. A `toString` key from `JSON.parse` is never a function, so a successful custom conversion does not arise.
- Text is a sequence of Unicode scalar values rather than UTF-16 code units. Surrogate pairs count as one character, not two.
- `initialize` called with a non-string key (`undefined`, `null`) is outside the model, since the parameter is a string.
- src/services/mermaidService.ts and src/router/routes.ts are not part of this model. They are a wrapper over the mermaid library and static router configuration.
- The legacy `Project`, `Epic`, `Feature`, `Story`, `Task` and `NotebookCellData` interfaces (`src/components/models.ts:3-51`, `74-81`) are not used by the service. Only their enumerated domains are kept.
