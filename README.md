# Claude-to-Gemini relay core, modelled in Dafny

This project models the parts of claude-relay-service that hold its logic. The service accepts
Claude Messages API requests, forwards them to Google Gemini, and translates the answers back.
Three JavaScript services are modelled:

- **The format converter** (`src/services/claudeToGemini.js`). It covers:
  - request conversion: the system-prompt splice, the role mapping and same-role merging of
    turns, thought signatures on function calls, the tool-result name lookup, the tool and
    tool-choice mapping, and the thinking configuration;
  - the recursive JSON-Schema sanitiser for tool parameters;
  - the non-streaming response converter;
  - the streaming reconstructor `convertStreamChunk`, a state machine over one per-stream
    state record.
- **The unified mixed scheduler** (`src/services/unifiedMixedScheduler.js`). It covers:
  - candidate filtering and the priority/least-recently-used ordering;
  - sticky sessions with their TTL renewal;
  - rate-limit flags and the Gemini rate-limit window;
  - group-bound selection.
- **The Gemini direct relay** (`src/services/geminiDirectRelayService.js`). It covers:
  - target-model resolution and the system-prompt fallback;
  - model-path prefixing;
  - the bounded retry loop and the final-error reply;
  - the SSE framer over the upstream text;
  - the `functionResponse.id` stripping for API-key accounts;
  - the stream driver's event filtering and usage accumulation, and the usage-recording guard.

Modules, one file each:

| file | module | models |
|---|---|---|
| wire.dfy | `Wire` | JSON values and ordered objects, `Option`/`Result`, JS string helpers (`startsWith`, first-match `replace`, `indexOf`, `trim`, ASCII `toUpperCase`), UTF-8 and base64 |
| schema.dfy | `Schema` | `_processJsonSchema`, as pure functions over a size measure |
| request.dfy | `Request` | `convertRequest`, `_convertMessages` (a loop method proved equal to a specification function), `_findToolNameForId`, `_convertToolDefinition` |
| response.dfy | `Response` | `convertResponse` |
| stream.dfy | `Stream` | `convertStreamChunk`: the `StreamState` class, whose methods are proved equal to per-step functions, plus the block-discipline lemmas |
| scheduler.dfy | `Scheduler` | the scheduler, as functions on a `Store` value and a `MixedScheduler` class over it |
| relay.dfy | `Relay` | model resolution, the prompt fallback, path prefixing, the retry loop method and `_handleFinalError` |
| sse.dfy | `Sse` | `_geminiChunkGenerator` as loop methods proved equal to a framing function |
| sanitize.dfy | `Sanitize` | `_sanitizeForApiKey` as loop methods proved equal to functions |
| driver.dfy | `StreamRelay` | `_handleStreamResponse`'s event loop and usage totals, and `_recordUsage`'s guard |

Random ids, the clock and `JSON.parse`/`JSON.stringify` are parameters:
- `uuid` functions and `searchUuid` strings;
- `nowMs`, and `now` inside the `Store`;
- `parse` and `stringify` functions.

Every external service the scheduler calls is a lookup in the `Store`. The relay's per-attempt
account selection and upstream call are the functions `select` and `call`.

Terms used in the table:

- A schema is **clean** when, in it and in every schema reached along `items`, `anyOf` and `properties`, each `type` is one of the eight Gemini type tags and no keyword the
  converter drops (such as `$schema`, `additionalProperties` or `default`) is left.
- A streaming step is **disciplined** when a client that tracks the open block replays its events from the old
  state to the new one. A replaying client accepts a block start only when no block is open and at the current
  index, a delta only when it fits the open block's type, and a stop only for the open block, after which the
  index rises by one. A disciplined step also emits a `signature_delta` exactly when it sets `signatureSent`,
  and it never clears that flag.
- An event sequence **stays inside the message** when it holds no `message_delta` and no `message_stop`.
- The stream **invariant** says that a signature is sent only after thinking content, and that thinking followed by
  text is always signed.

Where the repository's tests and its code disagree, the model follows the code:

- The request converter sends a thinking block of the history as a text part, flagged as a thought when a
  signature is available, rather than skipping it (src/services/claudeToGemini.js:260-280).
- gemini-3 models get a `thinkingConfig` with a `thinkingLevel` when thinking or an effort is requested.
- No `thinkingConfig` is added without a thinking or effort parameter, so there is no `-1` automatic budget
  (src/services/claudeToGemini.js:152-186).

The stream driver forwards the converter's `message_delta` and then writes its own. A client therefore sees two
`message_delta` events, and `StreamRelay.StreamEndsOnce` states that as it is.

## Model

| member | source | states |
|---|---|---|
| `Wire.Lookup` | src/services/claudeToGemini.js:436 | reading a property finds a value exactly when the key is present, and the value is stored under that key |
| `Wire.Put` | src/services/claudeToGemini.js:514 | after an assignment the key reads back the new value, and every other key reads as before |
| `Wire.Remove` | src/services/claudeToGemini.js:429-431 | after `delete` the key is gone, every other key reads as before, and deleting an absent key changes nothing |
| `Wire.Entries` | src/services/claudeToGemini.js:456 | `Object.entries` gives an object's own fields, one entry per array element, or one per string character |
| `Wire.Iterate` | src/services/claudeToGemini.js:477 | `for...of` succeeds exactly on arrays and strings; for an array it yields the elements |
| `Wire.FindFromLeftmost` | src/services/geminiDirectRelayService.js:743 | the separator search returns the leftmost match at or after the start, or reports that none exists |
| `Wire.ReplaceFirstOfPrefix` | src/services/unifiedMixedScheduler.js:793-794 | replacing the first occurrence of a prefix the string starts with removes exactly that prefix |
| `Wire.AsciiUpper` | src/services/claudeToGemini.js:406 | upper-casing keeps the length and maps each character on its own |
| `Wire.NatToString` | src/services/claudeToGemini.js:304 | the decimal form of a timestamp is non-empty and all digits |
| `Wire.Base64Shape` | src/services/claudeToGemini.js:303-305 | base64 of `n` bytes has length `4 * ceil(n / 3)` and uses only the 64 alphabet characters |
| `Wire.EncodeBase64` | src/services/claudeToGemini.js:303-305 | `Buffer.from(s).toString('base64')` of a non-empty string is non-empty and all base64 characters |
| `Wire.TrimStartSpec` | src/services/claudeToGemini.js:793 | removing leading whitespace gives the longest suffix that does not start with whitespace, and everything removed is whitespace |
| `Wire.TrimEndSpec` | src/services/geminiDirectRelayService.js:753 | removing trailing whitespace gives the longest prefix that does not end with whitespace, and everything removed is whitespace |
| `Request.SpliceSystem` | src/services/claudeToGemini.js:43-66 | an empty custom prompt leaves the system text alone; if the system text is empty the custom prompt is used alone; otherwise `prepend` puts the prompt, a blank line and the system text in that order, and any other position puts them the other way round; the result is empty only when both are |
| `Request.MessageSignature` | src/services/claudeToGemini.js:228-236 | a message's signature is non-empty exactly when some thinking block carries one of the three signature fields |
| `Request.MessageSignatureAt` | src/services/claudeToGemini.js:228-236 | the message signature is the signature of the first thinking block that has one |
| `Request.PlaceholderSignature` | src/services/claudeToGemini.js:303-305 | the placeholder signature is never empty |
| `Request.FirstToolUseFirst` | src/services/claudeToGemini.js:351 | `content.find` returns the first `tool_use` block with the id, or reports that none exists |
| `Request.FindToolNameInLast` | src/services/claudeToGemini.js:346-358 | scanning backwards over a prefix of the messages returns the name from the last assistant message that declares the id, otherwise `unknown_tool` |
| `Request.ToolNameLookup` | src/services/claudeToGemini.js:346-358 | a tool result's name comes from the last assistant message that declares the id, otherwise it is `unknown_tool` |
| `Request.MappedRole` | src/services/claudeToGemini.js:325-328 | `assistant` maps to `model` and every other role to `user` |
| `Request.MergeNext` | src/services/claudeToGemini.js:217-340 | handling one more message merges that message's parts, under its mapped role, into the turns built so far |
| `Request.ScanSignature` | src/services/claudeToGemini.js:228-236 | the first loop over a message's blocks computes the message signature |
| `Request.ScanParts` | src/services/claudeToGemini.js:239-321 | the second loop over the blocks yields exactly the parts the conversion prescribes |
| `Request.ScanMessage` | src/services/claudeToGemini.js:218-322 | the parts built for one message: its text for string content, the block parts for block content, nothing otherwise |
| `Request.MergeInto` | src/services/claudeToGemini.js:331-339 | one merge step: same role as the last turn appends the parts to it, otherwise a new turn is pushed, with `[{text:''}]` if it has no parts |
| `Request.ConvertMessages` | src/services/claudeToGemini.js:214-343 | the loop computes exactly the merged turns of the messages |
| `Request.MergeShape` | src/services/claudeToGemini.js:331-339 | a merge step keeps the turns well formed, adds a turn exactly when the role changes, and leaves the new role last |
| `Request.MergeTurnsShape` | src/services/claudeToGemini.js:324-339 | merging any run of user/model turns gives well-formed contents with one turn per maximal same-role run, ending in the last turn's role |
| `Request.ContentsShape` | src/services/claudeToGemini.js:214-343 | the output turns are never empty and never repeat a role; there is one turn per run of same-role messages, and the last turn has the last message's mapped role |
| `Request.AllPartsMerge` | src/services/claudeToGemini.js:331-339 | a merge step appends the message's parts, in order, to the flattened parts; only a new turn with no parts contributes `[{text:''}]` instead |
| `Request.MergeTurnsKeepsParts` | src/services/claudeToGemini.js:331-339 | merging turns that all have parts keeps every part, in order |
| `Request.MergeKeepsParts` | src/services/claudeToGemini.js:214-343 | when every message yields parts, merging loses, adds and reorders none of them |
| `Request.BlockPartsSigned` | src/services/claudeToGemini.js:281-307 | every function call built from a message's blocks carries a non-empty thought signature |
| `Request.MessagePartsSigned` | src/services/claudeToGemini.js:223-322 | every function call built from one message carries a non-empty thought signature |
| `Request.UnmergedSigned` | src/services/claudeToGemini.js:217-322 | the parts of all messages, before merging, have signed function calls |
| `Request.MergeTurnsSigned` | src/services/claudeToGemini.js:331-339 | merging keeps every function call signed |
| `Request.CallsSigned` | src/services/claudeToGemini.js:297-307 | every function call in the converted contents has a non-empty thought signature |
| `Request.CallSignatureSource` | src/services/claudeToGemini.js:228-307 | a function call's signature is its own message's signature when there is one, otherwise the base64 placeholder for the id of the `tool_use` it came from, so signatures never cross messages |
| `Request.ToolResultSource` | src/services/claudeToGemini.js:310-319 | every function response comes from a `tool_result` block, with the looked-up name and the block's content as `result` |
| `Request.ConvertToolDefinition` | src/services/claudeToGemini.js:363-379 | a tool keeps its name and description; it gets `parametersJsonSchema` exactly when its input schema is truthy, and that schema is then `Process` of the input schema; it fails exactly when the sanitiser fails |
| `Request.NonSearchTools` | src/services/claudeToGemini.js:75 | the filtered tools are exactly those not named `web_search`; a single tool is kept or dropped as a whole |
| `Request.NonSearchToolsAppend` | src/services/claudeToGemini.js:75 | the filter distributes over concatenation, so it keeps the order and the multiplicity of the tools it keeps |
| `Request.ToolNames` | src/services/claudeToGemini.js:99 | the tool names, one per tool and in order |
| `Request.ConvertToolDefinitions` | src/services/claudeToGemini.js:78 | every converted declaration is the conversion of the tool at the same position, and a failure comes from some tool |
| `Request.ConvertTools` | src/services/claudeToGemini.js:72-118 | no tools, or an empty list, give neither `tools` nor `toolConfig` |
| `Request.ToolsMapping` | src/services/claudeToGemini.js:75-118 | for a non-empty tool list: `tools` is non-empty; `googleSearch` is present exactly when a `web_search` tool is; the declarations name the other tools, one each and in order; choice `auto` gives mode `auto`, `any` gives mode `any` allowing exactly those names, `tool` gives mode `any` allowing only the chosen name, `none` gives mode `none`; no choice or another kind gives no `toolConfig` |
| `Request.ToolsLayout` | src/services/claudeToGemini.js:77-90 | for a non-empty tool list: the declarations group comes first when some tool is not `web_search` and holds exactly the converted non-search tools; with no such tool the list is just `googleSearch`; the length is one per group present |
| `Request.SearchOrDeclared` | src/services/claudeToGemini.js:80-90 | a non-empty tool list with no declarations must contain `web_search`, so `tools` is never an empty list |
| `Request.ThinkingRules` | src/services/claudeToGemini.js:152-186 | `thinkingConfig` exists exactly when thinking or an effort is given, and always includes thoughts; gemini-3 models get the upper-cased effort, or without an effort a level from the budget (LOW up to 1024, MEDIUM up to 8192, HIGH above, none for a zero budget), and no budget; other models get no level, and a budget exactly when the requested budget is non-zero: the request when that is at most 32768, and exactly 32768 above it |
| `Request.BudgetLevelMonotone` | src/services/claudeToGemini.js:166-173 | the budget buckets are monotone: a larger budget never gets a lower level |
| `Request.ConvertRequest` | src/services/claudeToGemini.js:16-207 | the Gemini body: its contents are the merged turns, the fixed safety settings are present, the system instruction is the spliced text when that is non-empty, the thinking config follows the rules, stop sequences appear only when non-empty and then as given, temperature, `topP`, `topK` and max tokens are copied, `tools` and `toolConfig` are those of the tool mapping, and it fails exactly when tool conversion fails |
| `Schema.TypeTag` | src/services/claudeToGemini.js:406-409 | a type name maps to one of the eight tags: its upper-case form exactly when that is a tag, otherwise `TYPE_UNSPECIFIED` |
| `Schema.NonNullNames` | src/services/claudeToGemini.js:403 | the kept names are exactly the entries of the list other than `'null'`; a single name is kept or dropped as a whole |
| `Schema.NonNullNamesAppend` | src/services/claudeToGemini.js:403 | the filter distributes over concatenation, so it keeps order and multiplicity |
| `Schema.SingleTypeSchemas` | src/services/claudeToGemini.js:411-419 | each surviving type name becomes `{type: tag}`, in order, and the step fails exactly when some name is not a string |
| `Schema.NullableIfListed` | src/services/claudeToGemini.js:400-402 | a listed `'null'` sets `nullable: true`; without one the output is unchanged; no other key changes; the output stays clean |
| `Schema.ScalarType` | src/services/claudeToGemini.js:405-409 | a single surviving name sets `type` to its tag and changes no other key; it fails exactly when the name is not a string |
| `Schema.TypeAlternatives` | src/services/claudeToGemini.js:410-420 | zero or several surviving names set `anyOf` to their one-type schemas, in order, and change no other key; it fails exactly when some name is not a string |
| `Schema.FlattenTypeArray` | src/services/claudeToGemini.js:399-421 | `nullable: true` exactly when `'null'` is listed (else as before); one remaining name gives the scalar `type` tag and leaves `anyOf`; zero or several give an `anyOf` of `{type: tag}` per name in order and leave `type`; no other key changes; it fails exactly when a remaining name is not a string |
| `Schema.StartFields` | src/services/claudeToGemini.js:452-454 | the fields the walk starts from are clean |
| `Schema.Prepare` | src/services/claudeToGemini.js:429-450 | dropping `type` beside `anyOf` and collapsing a two-branch nullable `anyOf` never makes the schema larger |
| `Schema.Process` | src/services/claudeToGemini.js:423-518 | a successful conversion is a clean object: every `type` is one of the eight tags and no dropped keyword is left, in the schema and along `items`, `anyOf` and `properties` |
| `Schema.ProcessFields` | src/services/claudeToGemini.js:456-516 | the field loop keeps the output clean |
| `Schema.FieldStep` | src/services/claudeToGemini.js:458-515 | one field step keeps the output clean; an `items` value fails exactly when its conversion does, and then `items` is `Process` of it and no other key changes |
| `Schema.TypeField` | src/services/claudeToGemini.js:462-472 | a `type` field succeeds exactly on a string or an array value; a name other than `'null'` writes `TypeTag` of it; `'null'` and an array leave the output as it was; no other key changes |
| `Schema.AnyOfFieldBranches` | src/services/claudeToGemini.js:475-484 | an `anyOf` field fails on a non-iterable value or when some non-null branch fails; otherwise `anyOf` is `ProcessEach` of the non-null branches, `nullable` is set exactly when a `'null'` branch occurs, and no other key changes |
| `Schema.PropertiesFieldEntries` | src/services/claudeToGemini.js:485-490 | a `properties` field fails exactly when some value fails; otherwise `properties` has exactly the input's keys, each holding `Process` of the last entry with that key, and no other key changes |
| `Schema.ProcessList` | src/services/claudeToGemini.js:477-483 | the `anyOf` loop keeps one converted schema per non-null branch, sets `nullable` exactly when a `'null'` branch occurs, and touches no other key |
| `Schema.NonNullBranches` | src/services/claudeToGemini.js:478-481 | the kept branches are exactly those not of type `'null'`; a single branch is kept or dropped as a whole |
| `Schema.NonNullBranchesAppend` | src/services/claudeToGemini.js:478-481 | the filter distributes over concatenation, so it keeps order and multiplicity |
| `Schema.ProcessEach` | src/services/claudeToGemini.js:482 | converting a list succeeds exactly when every element converts, and then element i is `Process` of element i |
| `Schema.ProcessListBranches` | src/services/claudeToGemini.js:476-483 | the `anyOf` loop yields `ProcessEach` of the non-null branches in order, and fails with the same error when that does |
| `Schema.ProcessDictEntries` | src/services/claudeToGemini.js:486-489 | the converted dictionary holds, for each key, `Process` of the value of the last entry with that key; keys not in the input keep their earlier value |
| `Schema.ProcessDictOk` | src/services/claudeToGemini.js:486-489 | the dictionary loop fails exactly when the conversion of some value fails |
| `Schema.ProcessJsonSchema` | src/services/claudeToGemini.js:381-384 | a falsy schema gives no parameters; otherwise the result succeeds exactly when the conversion does and is then `Some` of `Process` of the schema |
| `Schema.PassThrough` | src/services/claudeToGemini.js:491-514 | a key that is not `type`, not walked, not dropped and not null is copied unchanged |
| `Schema.TypeArrayWithNull` | src/services/claudeToGemini.js:399-409 | `type: [t, 'null']` becomes `nullable: true` with the scalar tag of `t` |
| `Schema.TypeArrayAlternatives` | src/services/claudeToGemini.js:399-421 | a `type` array with zero or several non-null names becomes an `anyOf` of `{type: tag}` per name, in order, with `nullable: true` exactly when `'null'` is listed |
| `Schema.AnyOfStep` | src/services/claudeToGemini.js:475-484 | an `anyOf` step writes `ProcessEach` of the non-null branches and sets `nullable` exactly when some branch has type `'null'` |
| `Schema.AnyOfNullBranches` | src/services/claudeToGemini.js:436-484 | for a schema with `anyOf` and no type, the result has `nullable: true` exactly when a `'null'` branch occurs, and its `anyOf` is `ProcessEach` of the non-null branches, in order |
| `Schema.ScalarTypeTag` | src/services/claudeToGemini.js:462-472 | a scalar `type` other than `'null'`, with no `anyOf` beside it, comes out as `TypeTag` of the name |
| `Schema.TypeBesideAnyOfDropped` | src/services/claudeToGemini.js:429-431 | a truthy `type` beside a truthy `anyOf` that does not collapse never reaches the output |
| `Schema.NullableCollapse` | src/services/claudeToGemini.js:433-450 | a two-branch `anyOf` with a `{type: 'null'}` branch gives `nullable: true` and, on every other key, the conversion of the other branch; it fails exactly when that conversion does |
| `Schema.WalkAhead` | src/services/claudeToGemini.js:446-515 | the walk that starts from `nullable: true` ends with `nullable: true` and agrees on every other key with the walk from an empty output |
| `Response.Unwrap` | src/services/claudeToGemini.js:530-544 | no wrapper reads the response itself; an object wrapper is used when it has candidates; a string wrapper is parsed, and used when it has candidates, else its own inner `response` when that has them; an empty or unparsable string, or no candidates anywhere, falls back to the response itself |
| `Response.PickCandidate` | src/services/claudeToGemini.js:547-568 | the first candidate when there is one; with none and a block reason, a stand-in with finish reason `SAFETY` and a bracketed notice naming the reason; with none and no reason, a `STOP` stand-in with one unproductive part |
| `Response.ToolUseId` | src/services/claudeToGemini.js:589 | a tool-use id starts with `toolu_` |
| `Response.PartsClassified` | src/services/claudeToGemini.js:574-595 | the blocks correspond one to one, in order, to the parts with text or a function call; a thought part (flagged, or signed with text) becomes a `thinking` block with its signature, other text a `text` block, a call a `tool_use` block with its name and arguments; there is a `tool_use` block exactly when some part is a function call |
| `Response.ConvertResponse` | src/services/claudeToGemini.js:528-636 | the content is the converted parts of the picked candidate plus the notice its finish reason calls for; the id starts with `msg_`; the model is echoed; a `tool_use` block forces stop reason `tool_use`, otherwise the finish reason is mapped; the stop sequence follows the finish reason; usage comes from the wrapped response's `usageMetadata`, else the outer one |
| `Response.StopReasonRules` | src/services/claudeToGemini.js:597-620 | `MAX_TOKENS` gives `max_tokens`; `SAFETY` and `RECITATION` give `stop_sequence`, with the reason as stop sequence and a notice when nothing else was produced; any other reason gives `end_turn`; any function call gives `tool_use` |
| `Response.ToolUseIffCalls` | src/services/claudeToGemini.js:574-595 | the converted blocks contain a `tool_use` exactly when some part is a function call, and are empty exactly when no part has text or a function call |
| `Response.UsageDefaults` | src/services/claudeToGemini.js:630-634 | without usage metadata every count is 0 |
| `Stream.AutoSignature` | src/services/claudeToGemini.js:852 | the automatic signature is never empty |
| `Stream.SearchToolId` | src/services/claudeToGemini.js:932 | a search result's id starts with `srvtoolu_` |
| `Stream.CloseDisciplined` | src/services/claudeToGemini.js:697-700 | closing the open block is disciplined, stays inside the message and starts no search block |
| `Stream.EnterDisciplined` | src/services/claudeToGemini.js:696-707 | switching to a block type is disciplined, stays inside the message, and leaves exactly the wanted type open |
| `Stream.ThinkingDisciplined` | src/services/claudeToGemini.js:689-740 | an explicit thinking part is disciplined, stays inside the message, starts no search block, keeps `hasToolUse` and keeps the invariant |
| `Stream.FlushDisciplined` | src/services/claudeToGemini.js:792-809 | with no block open, flushing `pendingText` is disciplined and stays inside the message |
| `Stream.PlaceholderDisciplined` | src/services/claudeToGemini.js:769-775 | adding the `(no content)` delta to an open thinking block keeps a step disciplined and changes no state |
| `Stream.SealDisciplined` | src/services/claudeToGemini.js:777-789 | the signature delta and stop, on an open thinking block with no signature sent yet, keep a step disciplined |
| `Stream.SignAndCloseDisciplined` | src/services/claudeToGemini.js:751-789 | handling an unsent signature is disciplined, sends it, closes every block and marks thinking content, keeping `hasToolUse` |
| `Stream.SignatureDisciplined` | src/services/claudeToGemini.js:743-813 | a signature part is disciplined, stays inside the message, keeps `hasToolUse` and keeps the invariant |
| `Stream.AutoSignDisciplined` | src/services/claudeToGemini.js:822-864 | the automatic signing before text is disciplined and stays inside the message |
| `Stream.TextDisciplined` | src/services/claudeToGemini.js:816-888 | a text part is disciplined, stays inside the message, keeps `hasToolUse` and keeps the invariant, so thinking followed by text is always signed |
| `Stream.GroundingDisciplined` | src/services/claudeToGemini.js:914-938 | grounding is disciplined, keeps the invariant, and starts one search block exactly for the last part of a chunk with grounding chunks |
| `Stream.ToolDisciplined` | src/services/claudeToGemini.js:941-970 | a function call is disciplined, keeps the invariant, and sets `hasToolUse` exactly when there is a call |
| `Stream.PartDisciplined` | src/services/claudeToGemini.js:684-970 | one part is disciplined and keeps the invariant; it starts a search block only as the last part of a chunk with grounding, and sets `hasToolUse` exactly for a function call |
| `Stream.PartsDisciplined` | src/services/claudeToGemini.js:682-971 | the loop over a chunk's parts is disciplined, stays inside the message and keeps the invariant |
| `Stream.FinishDisciplined` | src/services/claudeToGemini.js:974-1029 | the finish handling is disciplined, starts no search block and keeps `hasToolUse` |
| `Stream.BodyDisciplined` | src/services/claudeToGemini.js:976-1002 | closing the open block and then adding the thinking-only placeholder block is disciplined |
| `Stream.PartsSearchCount` | src/services/claudeToGemini.js:914-938 | a chunk's parts start exactly one search block when the chunk has parts and grounding chunks, and none otherwise |
| `Stream.PartsToolFlag` | src/services/claudeToGemini.js:941-942 | after the parts, `hasToolUse` holds exactly when it held before or some part is a function call |
| `Stream.GroundingOnce` | src/services/claudeToGemini.js:914 | a whole chunk starts one search block exactly when it has parts and grounding chunks, and none otherwise |
| `Stream.ToolUseFlag` | src/services/claudeToGemini.js:941-942 | after a chunk, `hasToolUse` holds exactly when it held before or one of the chunk's parts is a function call |
| `Stream.FinishAfter` | src/services/claudeToGemini.js:974-1029 | after any disciplined run inside the message, the finish step leaves no block open, adds the `[思考完成]` block exactly for thinking without text or tool use, then one `message_delta` whose stop reason is `tool_use` after a tool call and the mapped reason otherwise, then `message_stop` |
| `Stream.FinishRules` | src/services/claudeToGemini.js:974-1029 | a chunk with a finish reason ends the message exactly as the finish step prescribes |
| `Stream.ChunkDiscipline` | src/services/claudeToGemini.js:643-1030 | one chunk's events replay from the old state to the new one; the index rises by the number of stops; a signature is sent exactly when `signatureSent` becomes set and it is never cleared; the invariant is kept; a chunk without a finish reason stays inside the message |
| `Stream.RunDisciplined` | src/services/claudeToGemini.js:643-1030 | any run of chunks is disciplined and keeps the invariant |
| `Stream.StreamDiscipline` | src/services/claudeToGemini.js:645-655 | over a whole stream from the initial state, the events replay, at most one `signature_delta` is ever emitted, and the invariant holds at the end |
| `Stream.StreamState.constructor` | src/services/claudeToGemini.js:645-655 | a new stream state is the initial record |
| `Stream.StreamState.Close` | src/services/claudeToGemini.js:697-700 | closing moves the state and emits the events the close step prescribes |
| `Stream.StreamState.Enter` | src/services/claudeToGemini.js:696-707 | entering a block moves the state as the enter step prescribes |
| `Stream.StreamState.ExplicitThinking` | src/services/claudeToGemini.js:689-740 | an explicit thinking part moves the state as the thinking step prescribes |
| `Stream.StreamState.Flush` | src/services/claudeToGemini.js:792-809 | the `pendingText` flush moves the state as the flush step prescribes |
| `Stream.StreamState.Signature` | src/services/claudeToGemini.js:743-813 | a signature part moves the state as the signature step prescribes |
| `Stream.StreamState.SignAndCloseThinking` | src/services/claudeToGemini.js:777-789 | signing and closing moves the state as the seal step prescribes |
| `Stream.StreamState.AutoSign` | src/services/claudeToGemini.js:822-864 | the automatic signing moves the state as the auto-sign step prescribes |
| `Stream.StreamState.Text` | src/services/claudeToGemini.js:816-888 | a text part moves the state as the text step prescribes |
| `Stream.StreamState.Grounding` | src/services/claudeToGemini.js:914-938 | grounding moves the state as the grounding step prescribes |
| `Stream.StreamState.Tool` | src/services/claudeToGemini.js:941-970 | a function call moves the state as the tool step prescribes |
| `Stream.StreamState.Part` | src/services/claudeToGemini.js:684-970 | one part moves the state as the part step prescribes |
| `Stream.StreamState.Finish` | src/services/claudeToGemini.js:974-1029 | the finish handling moves the state as the finish step prescribes |
| `Stream.StreamState.Parts` | src/services/claudeToGemini.js:682-971 | the part loop moves the state as the run over all parts prescribes |
| `Stream.StreamState.ConvertStreamChunk` | src/services/claudeToGemini.js:643-1030 | one call moves the state and emits the events of the chunk step, which is the step all discipline lemmas are about |
| `Scheduler.Find` | src/services/unifiedMixedScheduler.js:482 | `getAccount` returns the record with that id, or nothing when no record has it |
| `Scheduler.IsSchedulable` | src/services/unifiedMixedScheduler.js:30-35 | absent and null mean schedulable; only `false` and `'false'` switch it off |
| `Scheduler.IsActive` | src/services/unifiedMixedScheduler.js:38-40 | only a boolean or string value can count as active |
| `Scheduler.PriorityOf` | src/services/unifiedMixedScheduler.js:214 | `parseInt(priority) \|\| 50` is never 0: a non-zero priority is kept, and a missing or zero one becomes 50 |
| `Scheduler.AnySupportedExists` | src/services/unifiedMixedScheduler.js:199-201 | the allow-list matches exactly when some entry equals the model after both lose their first `models/` |
| `Scheduler.ModelSupportedRule` | src/services/unifiedMixedScheduler.js:197-205 | with no requested model or an empty list every account passes; otherwise some entry must match after stripping `models/` |
| `Scheduler.CandidatesMembers` | src/services/unifiedMixedScheduler.js:177-456 | a pool scan yields exactly the eligible accounts, normalised to candidates |
| `Scheduler.ConsoleConcurrencyGate` | src/services/unifiedMixedScheduler.js:340-393 | a Console candidate has no concurrency cap, or its current concurrency is below the cap |
| `Scheduler.SortByPriorityCorrect` | src/services/unifiedMixedScheduler.js:461-473 | the sort is a permutation ordered by ascending priority, then ascending `lastUsedAt` |
| `Scheduler.SortHead` | src/services/unifiedMixedScheduler.js:461-473 | the head of the sorted list is a minimal candidate, and the first of equally minimal ones in input order (the sort is stable) |
| `Scheduler.FullTtl` | src/services/unifiedMixedScheduler.js:603-610 | the mapping TTL is at least one second, and one hour when no TTL is configured |
| `Scheduler.TtlRenewal` | src/services/unifiedMixedScheduler.js:630-664 | a missing key (-2) gives false and no change; -1 and threshold 0 give true and no change; a remaining TTL below the threshold is reset to the full TTL; nothing else changes |
| `Scheduler.LimitWindow` | src/services/unifiedMixedScheduler.js:707-713 | a Gemini limit set at `t` holds while `now < t + duration * 60000`, with duration 60 minutes by default; a cleared limit never holds |
| `Scheduler.MarkThenUnavailable` | src/services/unifiedMixedScheduler.js:724-754 | after marking, a known account of any kind but Bedrock is unavailable; Bedrock is left as it was |
| `Scheduler.RemoveClearsLimit` | src/services/unifiedMixedScheduler.js:759-784 | removing the limit clears the kind's flag and leaves every session mapping alone |
| `Scheduler.MarkForgetsSession` | src/services/unifiedMixedScheduler.js:739-741 | marking deletes the given session's mapping and no other; for Bedrock that is the only change |
| `Scheduler.ExtractGroupId` | src/services/unifiedMixedScheduler.js:789-797 | the group id is what follows `group:`, and nothing when the binding does not start with it |
| `Scheduler.GroupMember` | src/services/unifiedMixedScheduler.js:949-1032 | a member resolves in the fixed order official, console, bedrock, ccr for Claude, and gemini then gemini-api (only if API accounts are allowed) for Gemini, to a record with that id |
| `Scheduler.GroupCandidatesAvailable` | src/services/unifiedMixedScheduler.js:853-909 | the group candidates are exactly the listed members that resolve to an available account: every candidate is one, and every one is a candidate |
| `Scheduler.GroupCandidatesSingle` | src/services/unifiedMixedScheduler.js:853-909 | one member contributes its resolved account when that is available, and nothing otherwise |
| `Scheduler.GroupCandidatesAppend` | src/services/unifiedMixedScheduler.js:853-909 | the member scan distributes over concatenation, so candidates keep member order and multiplicity |
| `Scheduler.MarkUsedKeeps` | src/services/unifiedMixedScheduler.js:669-689 | marking used sets `lastUsedAt` to now on that account alone and changes nothing else |
| `Scheduler.StickyWins` | src/services/unifiedMixedScheduler.js:90-97 | a sticky hit returns the mapping unchanged, keeps it stored, and only renews the TTL and marks the account used |
| `Scheduler.PickRules` | src/services/unifiedMixedScheduler.js:114-144 | an empty candidate list fails with the given message and changes nothing; otherwise the first minimal candidate is chosen, and with a session hash exactly that mapping is written with the full TTL |
| `Scheduler.SharedSelection` | src/services/unifiedMixedScheduler.js:50-149 | without group bindings an available mapped account is returned through the sticky path; an unavailable one is deleted before a fresh pick from the shared pool |
| `Scheduler.GroupSelection` | src/services/unifiedMixedScheduler.js:802-944 | a mapping is honoured only for an available member of the bound groups; otherwise it is deleted and the pick is made from the available group members, failing exactly when there are none |
| `Scheduler.MixedScheduler.constructor` | src/services/unifiedMixedScheduler.js:25-27 | a scheduler starts over the given store |
| `Scheduler.MixedScheduler.Collect` | src/services/unifiedMixedScheduler.js:183-219 | the scan loop collects exactly the eligible candidates of one pool |
| `Scheduler.MixedScheduler.AvailableGeminiAccounts` | src/services/unifiedMixedScheduler.js:177-261 | the Gemini candidates are the OAuth pool's, then the API-key pool's when allowed |
| `Scheduler.MixedScheduler.AvailableClaudeAccounts` | src/services/unifiedMixedScheduler.js:266-456 | the Claude candidates are official, console (capped ones after the uncapped), bedrock, then ccr |
| `Scheduler.MixedScheduler.AvailableMembers` | src/services/unifiedMixedScheduler.js:862-877 | the member loop collects exactly the resolvable, available members |
| `Scheduler.MixedScheduler.SetSessionMapping` | src/services/unifiedMixedScheduler.js:603-610 | the mapping is stored with the full TTL |
| `Scheduler.MixedScheduler.DeleteSessionMapping` | src/services/unifiedMixedScheduler.js:615-618 | the mapping is removed |
| `Scheduler.MixedScheduler.ExtendSessionMappingTtl` | src/services/unifiedMixedScheduler.js:630-664 | the renewal answers and moves the store as the renewal function says |
| `Scheduler.MixedScheduler.MarkAccountUsed` | src/services/unifiedMixedScheduler.js:669-689 | the account's `lastUsedAt` becomes now |
| `Scheduler.MixedScheduler.SetAccountRateLimited` | src/services/unifiedMixedScheduler.js:726-736 | the kind's service sets or clears its flag; Bedrock has none |
| `Scheduler.MixedScheduler.MarkAccountRateLimited` | src/services/unifiedMixedScheduler.js:724-754 | the flag is set and the session's mapping deleted |
| `Scheduler.MixedScheduler.RemoveAccountRateLimit` | src/services/unifiedMixedScheduler.js:759-784 | the flag is cleared |
| `Scheduler.MixedScheduler.PickFrom` | src/services/unifiedMixedScheduler.js:114-144 | the fresh pick answers and moves the store as the pick function says |
| `Scheduler.MixedScheduler.StickTo` | src/services/unifiedMixedScheduler.js:90-97 | the sticky path answers and moves the store as the sticky function says |
| `Scheduler.MixedScheduler.SelectFromGroups` | src/services/unifiedMixedScheduler.js:802-944 | group selection answers and moves the store as the group function says |
| `Scheduler.MixedScheduler.SelectAccountForApiKey` | src/services/unifiedMixedScheduler.js:50-149 | selection answers and moves the store as the selection function says |
| `Relay.ResolveTargetModel` | src/services/geminiDirectRelayService.js:223-237 | a `gemini-` model passes through; otherwise a non-empty user mapping wins, then a non-empty global mapping, then a non-empty static mapping, and the default when all three are empty |
| `Relay.UserMappingWins` | src/services/geminiDirectRelayService.js:228 | a user mapping decides the target whatever the global and static configuration say |
| `Relay.GlobalMappingWins` | src/services/geminiDirectRelayService.js:230-232 | without a user mapping, a global mapping decides whatever the static configuration says |
| `Relay.StoredPrompt` | src/services/userConfigService.js:50-59 | `getSystemPrompt` returns the stored configuration or a truthy default object |
| `Relay.GlobalPrompt` | src/services/geminiDirectRelayService.js:240 | the global prompt is offered only when its `prompt` is truthy |
| `Relay.EffectivePrompt` | src/services/geminiDirectRelayService.js:240-242 | as written: without a user id the global prompt applies when it has text; a signed-in user's truthy configuration is kept; a signed-in user who stored nothing gets the default object; a falsy stored value gives way to the global prompt |
| `Relay.IntendedPrompt` | src/services/geminiDirectRelayService.js:240-242 | a user's own truthy configuration wins; without one the global prompt applies when it has text |
| `Relay.PromptConfigOf` | src/services/claudeToGemini.js:46-53 | a falsy configuration gives no custom prompt; a string is the prompt; an object gives its `prompt` and `position` |
| `Relay.GlobalPromptShadowed` | src/services/geminiDirectRelayService.js:240-242 | as written, a signed-in user who stored nothing gets the default object, so the global prompt never applies and no prompt is spliced |
| `Relay.IntendedPromptFallback` | src/services/geminiDirectRelayService.js:240-242 | with the intended fallback that user gets the global prompt's text |
| `Relay.IntendedPromptFor` | src/services/geminiDirectRelayService.js:240-245 | with the corrected fallback, a signed-in user's stored object gives its `prompt` and `position`; an unconfigured request with a global prompt object gets that prompt's `prompt` and `position`; no user and no global prompt give no custom prompt |
| `Relay.ApiKeyModelPath` | src/services/geminiDirectRelayService.js:331-338 | the API-key path starts with `models/`, `publishers/` or `projects/`, ends with the model, and an already-prefixed name is kept |
| `Relay.ApiKeyModelPathIdempotent` | src/services/geminiDirectRelayService.js:331-338 | prefixing twice is prefixing once |
| `Relay.OAuthModel` | src/services/geminiDirectRelayService.js:389-392 | a leading `models/` is removed, and any other name is kept |
| `Relay.ModelPathsAgree` | src/services/geminiDirectRelayService.js:389-392 | both account kinds name the same model: prefixing the OAuth name gives the API-key path |
| `Relay.RelayWithRetries` | src/services/geminiDirectRelayService.js:252-492 | the `while` loop computes exactly the retry run: its outcome and the accounts it marks |
| `Relay.ServedRule` | src/services/geminiDirectRelayService.js:256-381 | a request is served by the first attempt that succeeds, and only within three attempts |
| `Relay.UnavailableRule` | src/services/geminiDirectRelayService.js:265-285 | 503 happens exactly when the first selection fails, with a non-empty message that is the error's own when it has one |
| `Relay.ExhaustedRule` | src/services/geminiDirectRelayService.js:256-492 | running out of attempts means none succeeded; the reported error is that of the last attempt whose selection found an account, also when later selections failed and rethrew it, and the error carried in when no later selection found one |
| `Relay.MarkRule` | src/services/geminiDirectRelayService.js:474-485 | at most one mark per attempt; each mark is a selected account whose attempt failed with 429 or 503; and every attempt the loop reached whose selected account has an id and failed with 429 or 503 is marked |
| `Relay.FinalError` | src/services/geminiDirectRelayService.js:495-524 | before headers: JSON `api_error` with the upstream status or 500, and the upstream message, else the error message, else `Internal Server Error`; after headers on an open stream: one SSE error; otherwise nothing |
| `Relay.UnavailableReply` | src/services/geminiDirectRelayService.js:274-285 | a failed first selection is answered with 503 `service_unavailable` and the selection's message or `No available Gemini accounts`; no other run gets a `service_unavailable` reply |
| `Relay.ErrorReplied` | src/services/geminiDirectRelayService.js:488-492 | a request whose headers are not yet sent always gets a reply: the answer, or an error with a status and a message |
| `Sse.Split` | src/services/geminiDirectRelayService.js:743 | `split` always yields at least one piece |
| `Sse.SplitJoin` | src/services/geminiDirectRelayService.js:743 | joining the pieces with the separator gives back the text |
| `Sse.SplitPieces` | src/services/geminiDirectRelayService.js:743 | no piece contains the separator |
| `Sse.SplitAppend` | src/services/geminiDirectRelayService.js:740-746 | splitting the buffer plus new text equals keeping the complete pieces and re-splitting the carried fragment with the new text |
| `Sse.FrameStep` | src/services/geminiDirectRelayService.js:740-769 | one raw chunk yields the values of the newly completed parts, and the carried fragment is the last piece of all text so far |
| `Sse.LineValue` | src/services/geminiDirectRelayService.js:752-766 | a line yields a value exactly when it starts with `data: `, its trimmed payload is neither empty nor `[DONE]`, and the payload parses |
| `Sse.LinesValuesParsed` | src/services/geminiDirectRelayService.js:750-768 | every yielded value is the parse of some non-empty payload other than `[DONE]` |
| `Sse.EmitLines` | src/services/geminiDirectRelayService.js:751-768 | the line loop yields exactly the values of the lines |
| `Sse.EmitParts` | src/services/geminiDirectRelayService.js:749-769 | the part loop yields exactly the values of the complete parts |
| `Sse.ChunkGenerator` | src/services/geminiDirectRelayService.js:722-788 | the generator yields exactly the framing of the concatenated text, so the values do not depend on how the text was split into chunks |
| `Sanitize.DropTruthyId` | src/services/geminiDirectRelayService.js:835-841 | a truthy `id` is removed, so the result has no `id`; every other key is kept, and an object without one is unchanged |
| `Sanitize.CleanFunctionResponse` | src/services/geminiDirectRelayService.js:832-842 | a truthy `id` of the `functionResponse` and a truthy `response.id` are absent from the result; every other key of it and of its `response` is kept, a falsy `id` is kept, and a non-object or already clean value is unchanged |
| `Sanitize.CleanPart` | src/services/geminiDirectRelayService.js:831-843 | a null part throws a TypeError; an object part keeps every key but `functionResponse`, which becomes its cleaned form when truthy; any other part is unchanged |
| `Sanitize.CleanParts` | src/services/geminiDirectRelayService.js:831-843 | the parts succeed exactly when each part does, and then each cleaned part is the clean-up of the part at the same position |
| `Sanitize.CleanContent` | src/services/geminiDirectRelayService.js:830-844 | a null content throws; an array of parts is cleaned, the content failing exactly when its parts do and otherwise keeping every other key; absent, falsy or string parts leave the content alone; any other truthy parts throw |
| `Sanitize.CleanContents` | src/services/geminiDirectRelayService.js:829-845 | the contents succeed exactly when each content does, and then each cleaned content is the clean-up of the content at the same position |
| `Sanitize.Sanitized` | src/services/geminiDirectRelayService.js:822-847 | a body without truthy `contents`, or with string `contents`, comes back as is; an array of contents is cleaned, failing exactly when some content does, and the result holds the cleaned list; any other truthy `contents` is a TypeError |
| `Sanitize.SanitizeParts` | src/services/geminiDirectRelayService.js:831-843 | the part loop computes the cleaned parts, stopping at the first error |
| `Sanitize.SanitizeContent` | src/services/geminiDirectRelayService.js:830-844 | one content's loop computes its cleaned form |
| `Sanitize.SanitizeForApiKey` | src/services/geminiDirectRelayService.js:822-847 | the method computes the sanitised copy of the body |
| `Sanitize.CleanPartIdempotent` | src/services/geminiDirectRelayService.js:831-843 | cleaning a cleaned part changes nothing |
| `Sanitize.CleanContentIdempotent` | src/services/geminiDirectRelayService.js:830-844 | cleaning a cleaned content changes nothing |
| `Sanitize.SanitizeIdempotent` | src/services/geminiDirectRelayService.js:822-847 | sanitising a sanitised body changes nothing |
| `Sanitize.SanitizeKeepsOtherKeys` | src/services/geminiDirectRelayService.js:823-827 | only `contents` can change, and a body without truthy `contents` is returned as it is |
| `Sanitize.SanitizedIsClean` | src/services/geminiDirectRelayService.js:822-847 | in a sanitised body no part's `functionResponse` object carries a truthy `id` or a truthy `response.id` |
| `Sanitize.CleanContentIsClean` | src/services/geminiDirectRelayService.js:830-844 | every part of a cleaned content is clean |
| `StreamRelay.AddUsage` | src/services/geminiDirectRelayService.js:597-603 | a chunk without usage leaves the totals alone; with usage, each of the prompt, output and cached counts takes the chunk's value when that is non-zero and keeps the old total otherwise |
| `StreamRelay.ForwardEvents` | src/services/geminiDirectRelayService.js:606-637 | the event loop writes exactly the forwarded events: all but `message_stop` |
| `StreamRelay.HandleStreamResponse` | src/services/geminiDirectRelayService.js:579-664 | the driver writes the converter's events without `message_stop`, then one `message_delta` with `end_turn` and the output count, then `message_stop`, and its totals are the usage seen on the chunks |
| `StreamRelay.ForwardedCounts` | src/services/geminiDirectRelayService.js:609-611 | forwarding drops every `message_stop` and keeps every `message_delta` |
| `StreamRelay.StreamEndsOnce` | src/services/geminiDirectRelayService.js:644-653 | the client sees exactly one `message_stop`, at the very end, and one more `message_delta` than the converter emitted |
| `StreamRelay.UsageSticks` | src/services/geminiDirectRelayService.js:597-603 | once an output count is seen, later chunks never reset it to 0 |
| `StreamRelay.UsageLastReported` | src/services/geminiDirectRelayService.js:597-603 | the final output count is the one reported by the last chunk that reports a non-zero output count |
| `StreamRelay.RecordedUsage` | src/services/geminiDirectRelayService.js:798-812 | usage is recorded exactly when the input or output count is non-zero, with those two counts |
| `StreamRelay.NoUsageNoRecord` | src/services/geminiDirectRelayService.js:557-603 | a stream whose chunks carry no usage records nothing |
| `StreamRelay.ReportedUsage` | src/services/claudeToGemini.js:659-661 | the usage the chunk converter reads, the wrapped `response.usageMetadata` before the chunk's own; its output count is exactly the one the converter reports |
| `StreamRelay.WrappedUsageDropped` | src/services/geminiDirectRelayService.js:597-603 | a chunk whose usage sits only inside `response` shows the converter a non-zero output count, yet as written the totals stay zero and nothing is recorded, while the intended reading records that usage |
| `StreamRelay.IntendedUsageRecorded` | src/services/claudeToGemini.js:659-661 | reading usage as the converter does, a stream in which some chunk reports a non-zero output count ends with a non-zero output total and is recorded |

## Left out

- Network and HTTP are parameters or left out: axios calls, `res.writeHead`, `write`, `flush` and `end`, the keep-alive agent, proxies, OAuth client creation and token refresh. `countTokens` is left out too; its model resolution is the same `ResolveTargetModel`. The relay's attempt is the function `call`, and `select` stands for `unifiedGeminiScheduler`, which is not part of this model.
- Logging and `console.log` are not modelled; they are output only.
- The heartbeat timer and the `message_start` event are not modelled. They are timer-driven or constant framing with no contract.
- `Promise.all` fan-out is modelled as sequential concatenation in the same order. Cross-request races on the store are not modelled.
- `uuidv4`, `Date.now()` and `Math.random()` are parameters. The model reads one clock value `nowMs` per request conversion, whereas the code reads the clock once per placeholder.
- `StringDecoder`: the framer works on already decoded text, so multi-byte characters split across raw chunks are not modelled.
- `JSON.parse` and `JSON.stringify` are the parameters `parse` and `stringify`. Turning a parsed SSE value into a stream chunk is not modelled: the stream driver takes decoded chunks.
- `temperature`, `top_p`, `top_k` and `max_tokens` are opaque JSON values that are copied without change. Floating point is not modelled.
- `stickyTtlHours` and `renewalThresholdMinutes` are whole numbers, so a fractional hour setting is not modelled.
- `lastUsedAt` and `rateLimitedAt` are integers, so the `new Date(...)` parsing of timestamps is not modelled.
- `parseInt` appears only as its result, with 0 standing for a missing, unparsable or zero value.
- `toUpperCase` is modelled for ASCII letters only.
- A non-string `prompt` or `position` in a prompt object counts as absent. JavaScript would call `String(...)` on it.
- The Gemini account services are not part of this model. Their `setAccountRateLimited(id, on)` is assumed to write `rateLimitStatus` and `rateLimitedAt = now` on the record, or to clear both.
- The Claude-side rate-limit, overload, quota and subscription checks are flags in the store.
- An account type outside the six kinds is not representable. The code answers `false` or does nothing for one.
- A failed Bedrock listing is modelled as an empty pool.
- Exceptions that the scheduler's `try/catch` blocks swallow (store failures returning `[]`, `false` or `null`) are not modelled, because the store never fails.
- The stream driver's catch path that writes a `Stream interrupted` error is not modelled, because the modelled chunks never throw.
- The relay's non-streaming branch, which calls `convertResponse` and records `usage`, is not modelled as its own operation. `Response.ConvertResponse` models that conversion.
- `Scheduler.SortByPriorityCorrect`: `accounts.sort` sorts in place, but the model sorts a sequence value with a stable insertion sort, so aliasing of the sorted array is not modelled.
- `Scheduler.MixedScheduler.AvailableClaudeAccounts`: the Console accounts with a concurrency cap are collected in a second pass after the uncapped ones, as the code does. The concurrency counters are read from the store and not fetched.
- `Stream.FlushDisciplined`: `pendingText` is never appended to by the code; the model keeps the field and its flush but claims no buffering. `thinkingText` is accumulated but never read, and the model does the same.
- `Schema.Prepare`: `delete _jsonSchema['type']` (src/services/claudeToGemini.js:429-431) deletes the key from the caller's schema object in place, so the request body's tool schema loses its `type` too. The model returns a new value and leaves the input unchanged, so that mutation and its aliasing are not modelled.
- `Schema.NullableCollapse`: stated only for an other branch that has no `nullable` key of its own and that `Prepare` leaves as it is (no `type` beside a truthy `anyOf`, no nested two-branch collapse). For any other branch the lemma says nothing, because the branch's own `nullable` or its own collapse then decides that key.
- `Sanitize.SanitizeForApiKey`: values are immutable here, so "the input is not modified" holds by construction and the deep copy is implicit.
- `Scheduler.IsActive`: states only that an active flag is a boolean or a string. It does not state which values count, because the accepted spellings differ between the account pools.

## Findings

| source | as written | input that shows it | evidently intended | confidence | as-written member | corrected member |
|---|---|---|---|---|---|---|
| src/services/geminiDirectRelayService.js:240-242 | the global system prompt applies only when `systemPromptConfig` is falsy, but for a signed-in user `getSystemPrompt` (src/services/userConfigService.js:54) returns the truthy default `{prompt:'', position:'append'}`, so the global prompt never applies to them | a request with a `userId` whose user stored no prompt, while the global config has `geminiDirectGlobalSystemPrompt.prompt = "Be brief"`: no custom prompt is spliced | a user who configured nothing falls back to the global prompt | medium, not executed | `Relay.GlobalPromptShadowed` | `Relay.IntendedPromptFallback` |
| src/services/geminiDirectRelayService.js:597-603 | the stream driver sums only the top-level `chunk.usageMetadata`, while chunks from the Code Assist endpoint that OAuth accounts use (src/services/geminiDirectRelayService.js:317-318) carry their usage inside `response`, where the converter looks first (src/services/claudeToGemini.js:659-661) | an OAuth-account stream whose chunks are `{response: {candidates: [...], usageMetadata: {promptTokenCount: 12, candidatesTokenCount: 40}}}`: `finalUsage` stays at zero and `_recordUsage` is skipped | the driver reads `(chunk.response || chunk).usageMetadata || chunk.usageMetadata`, as the converter does, and records the usage | low, not executed | `StreamRelay.WrappedUsageDropped` | `StreamRelay.IntendedUsageRecorded` |

`Relay.EffectivePrompt` is the choice as written. `Relay.IntendedPrompt` is the corrected choice, and `Relay.IntendedPromptFor` is the prompt the converter would get with it.

`StreamRelay.UsageOf` and `StreamRelay.HandleStreamResponse` sum the usage as written. `StreamRelay.IntendedUsageOf` sums it with the corrected reading, `StreamRelay.ReportedUsage`.
