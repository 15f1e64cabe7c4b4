# gemini-router translation core, in Dafny

gemini-router is a Cloudflare Worker. It accepts Anthropic Messages API requests and
answers them with Google Gemini. This project models the part of it that translates
between the two formats:

- **Requests** (`formatRequestGemini.ts`). Claude messages become Gemini `contents`:
  - roles are mapped, text blocks become text parts;
  - `tool_use` blocks become `functionCall` parts;
  - `tool_result` blocks become `functionResponse` parts, named after the `tool_use`
    that produced them;
  - tool input schemas are cleaned of what Gemini rejects (`cleanSchema`);
  - the `web_search` tool becomes Gemini's `googleSearch`;
  - the system prompt is flattened to one text;
  - sampling parameters become a `generationConfig`.
- **Whole responses** (`formatResponseGemini.ts`). The first Gemini candidate becomes a
  Claude message: text, `tool_use` and `tool_result` blocks, the stop reason and the usage.
- **Streamed responses** (`streamResponseGemini.ts`, `utils/sse.ts`):
  - upstream text arrives in fragments; complete lines are cut out, and each line is
    decoded as SSE `data:` JSON or as raw NDJSON;
  - every Gemini chunk drives a state machine that opens, feeds and closes Claude
    content blocks;
  - tool-call arguments are streamed as `input_json_delta` increments;
  - grounding sources are collected without duplicates and appended as a text footer;
  - the stream ends with `message_delta` and `message_stop`;
  - every event is framed as `event: …\ndata: …\n\n`.

Layout:

| file | module | contents |
|---|---|---|
| `wrappers.dfy` | `Wrappers` | `Option`, `Result` |
| `strings.dfy` | `Strings` | `trim`, `split`, `join`, `startsWith`, decimal rendering |
| `json.dfy` | `Json` | JSON values, object get/set/delete, `JSON.stringify` and its inverse |
| `types.dfy` | `Types` | Claude and Gemini request, response and stream-chunk shapes |
| `sse.dfy` | `Sse` | the stream controller (a class) and `enqueueSSE` |
| `stream_spec.dfy` | `StreamSpec` | the streaming translator as pure state/event step functions |
| `stream_translator.dfy` | `StreamTranslator` | the translator as a class whose fields are the source's closure variables; each method is proved against its step function |
| `stream_lifecycle.dfy` | `StreamLifecycle` | the block lifecycle every translated stream obeys |
| `stream_properties.dfy` | `StreamProperties` | argument streaming, usage, finish reason, sources, line decoding, the footer |
| `format_response.dfy` | `FormatResponse` | `formatGeminiToClaude` |
| `format_request.dfy` | `FormatRequest` | `convertMessages`, `cleanSchema`, `convertTools`, `formatSystemInstruction`, `formatClaudeToGemini` |

Parameters stand in for the environment:

- `now: nat` stands for `Date.now()`.
- `newId: nat -> string` stands for the generated stream tool id
  `` `toolu_${Date.now()}_${random}` ``. Its argument counts the ids generated so far.
- `parse: string -> Option<StreamChunk>` stands for `JSON.parse` followed by reading
  the result as a Gemini stream chunk. `None` means the parse threw.

A streamed response is modelled as the list of text fragments the reader delivers.
`StreamTranslator.StreamGeminiToAnthropic` buffers them line by line, exactly as the
source loop does. It is proved to enqueue the SSE frames of one pure function,
`StreamSpec.Translate`, applied to the concatenated upstream text. That makes the
result independent of where the fragments were cut.

## Model

| member | source | states |
|---|---|---|
| Strings.Trim | streamResponseGemini.ts:95 | `trim()` is a middle slice of the line with only white space before and after it, has no white space at either end, and changes nothing when there is none at either end |
| Strings.TrimAllSpace | streamResponseGemini.ts:95-96 | a line of only white space trims to the empty string and is skipped |
| Strings.SplitJoin | streamResponseGemini.ts:89 | joining the pieces of `split('\n')` with `'\n'` gives the buffer back, so line splitting loses no text |
| Strings.SplitAppend | streamResponseGemini.ts:84-91 | splitting `a + b` is splitting `a` with its unfinished last piece continued by `b`; this is why holding back the last line is sound |
| Strings.JoinSplit | formatRequestGemini.ts:212 | line-free pieces joined with `'\n'` split back into exactly those pieces |
| Strings.NatToStringRoundTrip | streamResponseGemini.ts:14 | the decimal text of a timestamp reads back as that timestamp |
| Json.Get | formatRequestGemini.ts:117 | `obj[k]` is present exactly when `k` is a key, and then it is the value of a member named `k` |
| Json.Set | formatRequestGemini.ts:128 | after `obj[k] = v`, `k` reads `v`, every other key reads as before, and a new key is appended after the existing keys |
| Json.Delete | formatRequestGemini.ts:114 | after `delete obj[k]`, `k` is gone, every other key reads as before, and nothing changes when `k` was absent |
| Json.EscapeRoundTrip | utils/sse.ts:18 | the escaped text `JSON.stringify` writes for a string reads back as that string |
| Json.StringifyPrintable | utils/sse.ts:18 | `JSON.stringify` output contains no control character, so no line break |
| Sse.Controller.constructor | utils/sse.ts:13 | a new controller has enqueued nothing |
| Sse.Controller.Enqueue | utils/sse.ts:19 | enqueueing appends exactly one chunk |
| Sse.EnqueueSse | utils/sse.ts:13-20 | `enqueueSSE` appends exactly one chunk: the `event:` line, the `data:` line with the JSON, and a blank line |
| Sse.DataTextOneLine | utils/sse.ts:18 | the `data:` text never contains a line break, whatever strings the payload holds |
| Sse.MessageLines | utils/sse.ts:18 | a framed event splits into exactly its `event:` line, its `data:` line and the blank terminator |
| Sse.NullAndUndefinedData | tests/sse.test.ts:77-94 | `null` is framed as `data: null` and `undefined` as `data: undefined` |
| Sse.SingleMemberFrame | tests/sse.test.ts:11-32 | a one-member object of plain strings is framed as `data: {"k":"v"}` |
| Sse.ArrayFrame | tests/sse.test.ts:60-75 | arrays are framed compactly, as in `data: [1,2,3]` |
| StreamSpec.ArgsDelta | streamResponseGemini.ts:233-249 | the argument delta is the unsent suffix when the new JSON extends the last sent JSON, and the whole JSON when it does not; nothing is sent when the JSON repeats the last sent one or is empty after earlier arguments |
| StreamSpec.StreamStopReason | streamResponseGemini.ts:297-302 | `tool_use` iff the last finish reason is `FUNCTION_CALL`, `max_tokens` iff it is `MAX_TOKENS`, otherwise `end_turn` |
| StreamSpec.SourcesTextNonEmpty | streamResponseGemini.ts:275-282 | the sources footer is never empty, so it is always sent as a delta |
| StreamSpec.LinesStepPrefix | streamResponseGemini.ts:94-111 | handling the lines one by one is one more line step on the prefix handled so far |
| StreamSpec.PartsStepPrefix | streamResponseGemini.ts:147-252 | handling the parts one by one is one more part step on the prefix handled so far |
| StreamTranslator.Translator.constructor | streamResponseGemini.ts:34-50 | the translator starts at block 0 with nothing open, no tokens, no finish reason, no sources and no events |
| StreamTranslator.Translator.Emit | streamResponseGemini.ts:32 | an emitted event is enqueued and the translator state is unchanged |
| StreamTranslator.Translator.ProcessText | streamResponseGemini.ts:148-184 | a text part closes an open tool block, opens a text block when none is open, and sends its text when non-empty; the new state and events are those of `StreamSpec.TextStep` |
| StreamTranslator.Translator.CloseToolBlock | streamResponseGemini.ts:150-159 | an open tool block is stopped at the current index, the current tool is forgotten and the index moves on; otherwise nothing happens (`StreamSpec.CloseTool`) |
| StreamTranslator.Translator.OpenTextBlock | streamResponseGemini.ts:161-172 | a text block is started at the current index exactly when none is open (`StreamSpec.OpenText`) |
| StreamTranslator.Translator.StartTool | streamResponseGemini.ts:202-229 | a new tool id closes an open tool block and opens a `tool_use` block with that id and name |
| StreamTranslator.Translator.StopToolBlock | streamResponseGemini.ts:203-210 | before a new tool block, an open one is stopped and the index moves on, leaving the tool fields to be overwritten (`StreamSpec.StopTool`) |
| StreamTranslator.Translator.SendArgs | streamResponseGemini.ts:231-250 | arguments are sent as the delta against the last JSON sent for the current tool, which is then remembered |
| StreamTranslator.Translator.ProcessCall | streamResponseGemini.ts:185-251 | a call part closes an open text block, takes the call's id or a generated one, switches tool block when the id changes and streams its arguments; the result is `StreamSpec.CallStep` |
| StreamTranslator.Translator.CloseTextBlock | streamResponseGemini.ts:187-195 | an open text block is stopped and the index moves on before a call (`StreamSpec.CloseText`) |
| StreamTranslator.Translator.TakeId | streamResponseGemini.ts:198-200 | the call id is the call's own non-empty id, or the next generated id, which is then counted as used |
| StreamTranslator.Translator.SwitchToolBlock | streamResponseGemini.ts:202-229 | a tool block is opened exactly when the id differs from the current tool id (`StreamSpec.SwitchTool`) |
| StreamTranslator.Translator.ProcessPart | streamResponseGemini.ts:147-252 | a part is handled as text, as a call or not at all, as `StreamSpec.PartStep` says |
| StreamTranslator.Translator.ProcessParts | streamResponseGemini.ts:147-252 | the parts loop equals `StreamSpec.PartsStep` |
| StreamTranslator.Translator.CollectSources | streamResponseGemini.ts:134-145 | grounding web sources are appended unless their URL is already known; nothing is enqueued |
| StreamTranslator.Translator.ProcessChunk | streamResponseGemini.ts:117-133 | a chunk updates usage, and with a candidate the finish reason, sources and parts, as `StreamSpec.ChunkStep` says |
| StreamTranslator.Translator.RecordUsage | streamResponseGemini.ts:119-122 | each token total is replaced by the reported count when that count is non-zero, and kept otherwise |
| StreamTranslator.Translator.ProcessLine | streamResponseGemini.ts:94-111 | a line is trimmed, unwrapped from `data: `, skipped when blank, `[DONE]` or not JSON, and otherwise parsed and handled |
| StreamTranslator.Translator.ProcessLines | streamResponseGemini.ts:94-111 | the lines loop equals `StreamSpec.LinesStep` |
| StreamTranslator.Translator.ReadUpstream | streamResponseGemini.ts:57-111 | after the read loop, the lines handled and the held-back buffer are exactly the lines of the concatenated fragments, and the state and events are those of `StreamSpec.LinesStep` on the handled lines |
| StreamTranslator.Translator.FeedFragment | streamResponseGemini.ts:83-111 | one read splits the buffer plus the fragment into complete lines, which are handled, and the new buffer, which is the last piece |
| StreamTranslator.Translator.FlushBuffer | streamResponseGemini.ts:59-80 | at the end of input the held-back line, which holds no line break, is handled as one more line (`StreamSpec.LineStep`) |
| StreamTranslator.Translator.FinishStream | streamResponseGemini.ts:256-313 | the end of the stream sends the sources footer, closes the last block, and sends `message_delta` and `message_stop` |
| StreamTranslator.Translator.AppendSources | streamResponseGemini.ts:256-283 | with sources, the footer is sent as text after closing an open tool block and opening a text block if needed; without sources nothing happens (`StreamSpec.SourcesStep`) |
| StreamTranslator.Translator.CloseLastBlock | streamResponseGemini.ts:285-291 | the block still open, if any, is stopped at the current index, and the state is unchanged |
| StreamTranslator.StreamGeminiToAnthropic | streamResponseGemini.ts:10-318 | whatever the fragment boundaries, the enqueued chunks are the frames of `message_start` followed by the translation of the whole upstream text |
| StreamLifecycle.CloseToolSound | streamResponseGemini.ts:150-159 | closing a tool block keeps the block lifecycle valid |
| StreamLifecycle.CloseTextSound | streamResponseGemini.ts:187-195 | closing a text block keeps the block lifecycle valid |
| StreamLifecycle.OpenTextSound | streamResponseGemini.ts:161-172 | opening a text block keeps the block lifecycle valid |
| StreamLifecycle.OpenToolSound | streamResponseGemini.ts:202-229 | opening a tool block, after closing the previous one, keeps the block lifecycle valid |
| StreamLifecycle.ArgsStepSound | streamResponseGemini.ts:231-250 | argument deltas go to the open tool block and change only the remembered arguments |
| StreamLifecycle.TextStepSound | streamResponseGemini.ts:148-184 | a text part keeps the block lifecycle valid |
| StreamLifecycle.CallStepSound | streamResponseGemini.ts:185-251 | a call part keeps the block lifecycle valid |
| StreamLifecycle.LinesStepSound | streamResponseGemini.ts:94-111 | any sequence of lines keeps the block lifecycle valid |
| StreamLifecycle.FinishCloses | streamResponseGemini.ts:256-291 | the end of the stream leaves no block open |
| StreamLifecycle.SourcesStepSound | streamResponseGemini.ts:256-283 | sending the sources footer keeps the block lifecycle valid |
| StreamLifecycle.CloseLastCloses | streamResponseGemini.ts:285-291 | the last stop leaves no block open |
| StreamLifecycle.TranslateWellFormed | streamResponseGemini.ts:10-318 | every translated stream starts with `message_start`, ends with `message_delta` and `message_stop`, feeds only the open block and leaves none open |
| StreamLifecycle.TranslateBlocksCanonical | streamResponseGemini.ts:10-318 | block starts and stops alternate as open 0, close 0, open 1, close 1, … |
| StreamProperties.TextStepForwards | streamResponseGemini.ts:148-184 | a text part sends exactly its text (nothing when empty), opens a text block only when none is open, and moves to the next index only after a tool block |
| StreamProperties.CallStepSwitches | streamResponseGemini.ts:197-229 | a call opens a `tool_use` block exactly when its id differs from the current tool, and uses a generated id exactly when it has none |
| StreamProperties.ArgsDeltaExtends | streamResponseGemini.ts:236-238 | when the new JSON extends the last sent one, the last sent JSON plus the delta is the new JSON |
| StreamProperties.FirstCallPart | streamResponseGemini.ts:202-250 | the first part of a new call opens one tool block and streams its whole argument JSON |
| StreamProperties.NextCallPart | streamResponseGemini.ts:231-250 | a later part of the same call opens nothing and streams only the new suffix |
| StreamProperties.StreamedArgsRebuild | tests/streamResponseComplex.test.ts:31-113 | for a call whose arguments grow part by part, the concatenated `input_json_delta`s are its final argument JSON, in one tool block |
| StreamProperties.PartsStepKeeps | streamResponseGemini.ts:147-252 | handling parts changes neither usage, finish reason nor sources |
| StreamProperties.ChunkStepTotals | streamResponseGemini.ts:119-145 | a chunk replaces the token counts only with non-zero counts, the finish reason only with a present one, and adds sources only from its first candidate |
| StreamProperties.LastFinishWins | streamResponseGemini.ts:130-132 | the finish reason after many chunks is that of the last chunk carrying one, or the initial one if none does |
| StreamProperties.LatestUsageWins | streamResponseGemini.ts:119-122 | each token count is the last non-zero count reported, or the initial one if none is |
| StreamProperties.AddSourceKeeps | streamResponseGemini.ts:137-143 | adding a grounding chunk keeps URLs distinct, keeps earlier sources in order and adds exactly its web URL |
| StreamProperties.AddSourcesDedup | streamResponseGemini.ts:135-145 | after a list of grounding chunks the URLs are distinct, earlier sources come first, and the known URLs are the old ones plus every web URL seen |
| StreamProperties.AddSourcesFirstSeen | streamResponseGemini.ts:135-145 | each source added is a URL not held before, placed in the order in which the URLs are first seen, with the title of the chunk where its URL first appears |
| StreamProperties.ChunksKeepDistinctUrls | streamResponseGemini.ts:134-145 | no URL is ever listed twice, however many chunks arrive |
| StreamProperties.LinesAreChunks | streamResponseGemini.ts:94-111 | handling lines is handling, in order, the chunks decoded from them |
| StreamProperties.BlankLineSkipped | streamResponseGemini.ts:95-96 | a blank line is skipped |
| StreamProperties.DoneLineSkipped | streamResponseGemini.ts:101 | a `[DONE]` line is skipped |
| StreamProperties.DataDoneLineSkipped | streamResponseGemini.ts:98-101 | a `data: [DONE]` line is skipped |
| StreamProperties.NonJsonLineSkipped | streamResponseGemini.ts:102 | a line that is not `data:` and does not start with `{` or `[` is skipped |
| StreamProperties.JsonLinesParsed | streamResponseGemini.ts:102-105 | a raw NDJSON line is parsed as its trimmed text |
| StreamProperties.DataPrefixOptional | tests/streamResponseGemini.test.ts:31-61 | `data: <json>` and raw `<json>` lines decode to the same chunk |
| StreamProperties.SourcesFooterLines | streamResponseGemini.ts:275-277 | the footer reads as two blank lines, `Sources:`, then one `- title (url)` line per source in order |
| StreamProperties.FinishSends | streamResponseGemini.ts:256-313 | the end of the stream sends the footer as the only text, opens a text block only when none is open, and ends with the mapped stop reason and token totals |
| StreamProperties.NoChunksThreeEvents | streamResponseGemini.ts:293-313 | an upstream with no decodable chunk gives `message_start`, `message_delta` with `end_turn` and zero tokens, and `message_stop` |
| StreamProperties.FinishInitial | streamResponseGemini.ts:256-313 | with nothing received, the end of the stream is `message_delta` with `end_turn` and zero tokens, then `message_stop` |
| StreamProperties.EmptyUpstream | streamResponseGemini.ts:59-81 | an empty upstream gives exactly those three events |
| FormatResponse.ResponseId | formatResponseGemini.ts:24 | the response id is Gemini's id when non-empty, otherwise `msg_` and the time |
| FormatResponse.Format | formatResponseGemini.ts:15-35 | the result is an error iff there is no candidate, with the source's message; otherwise it carries the model, the id and the token counts (0 when absent) |
| FormatResponse.FormatGeminiToClaude | formatResponseGemini.ts:15-98 | the imperative parts loop and finish-reason switch compute `Format` |
| FormatResponse.WalkStop | formatResponseGemini.ts:63-64 | after the loop the stop reason is `tool_use` iff some part is a function call, else unchanged |
| FormatResponse.WalkTexts | formatResponseGemini.ts:49-54 | the text blocks are the non-empty text parts, in order |
| FormatResponse.WalkToolUses | formatResponseGemini.ts:55-62 | the `tool_use` blocks are the function calls, in order, each with the call's own id (absent when the call has none), its name and `args \|\| {}` |
| FormatResponse.WalkToolResults | formatResponseGemini.ts:65-72 | the `tool_result` blocks are the function responses, in order, each with its own id or a `toolu_` one, and its response |
| FormatResponse.FormatStopReason | formatResponseGemini.ts:75-95 | a finish reason decides the stop reason (STOP → end_turn, MAX_TOKENS → max_tokens, FUNCTION_CALL → tool_use, SAFETY/RECITATION/OTHER → stop_sequence, others → end_turn); without one, `tool_use` iff there is a call |
| FormatResponse.ToolUseStop | tests/formatResponseGemini.test.ts:152-177 | the stop reason is `tool_use` iff the finish reason is FUNCTION_CALL, or there is no finish reason and some part is a call |
| FormatResponse.NoPartsPlaceholder | formatResponseGemini.ts:37-43 | a candidate without parts gives one empty text block |
| FormatResponse.FormatContent | tests/formatResponseGemini.test.ts:179-212 | the content's texts, `tool_use` blocks and `tool_result` blocks are exactly those of the parts, in order, with the empty placeholder when there are no parts |
| FormatResponse.PartBlocks | formatResponseGemini.ts:48-73 | a part gives at most one block, and none exactly when it is an empty text |
| FormatResponse.WalkBlocks | formatResponseGemini.ts:48-73 | the loop appends the blocks of each part in turn, in the order of the parts |
| FormatResponse.FormatBlocks | formatResponseGemini.ts:37-73 | the whole content, interleaving included: the placeholder of a candidate without parts, then each part's blocks in the order of the parts |
| FormatResponse.EmptyTextsNoContent | formatResponseGemini.ts:49 | parts that are all empty texts add nothing, so such a candidate gives empty content |
| FormatResponse.GeneratedIds | formatResponseGemini.ts:69 | a call's or response's own id is used when non-empty, otherwise a `toolu_` id |
| FormatResponse.MissingToolUseId | tests/formatResponseGemini.test.ts:73-96 | as written, the `do_something` call without an id gives a single `tool_use` block with no id |
| FormatResponse.FormatCorrected | formatResponseGemini.ts:55-72 | the corrected converter fails iff there is no candidate, and every `tool_use` block it gives has a non-empty id |
| FormatResponse.FillIdsViews | formatResponseGemini.ts:55-72 | giving ids changes only the `tool_use` blocks, one for one, and leaves texts and `tool_result` blocks as they are |
| FormatResponse.CorrectedContent | formatResponseGemini.ts:55-72 | the corrected response is the one as written except for its `tool_use` blocks: one per call, in order, each with the call's own id or a generated one |
| FormatResponse.GeneratedToolUseId | tests/formatResponseGemini.test.ts:73-96 | corrected, the same call gives one `tool_use` block whose id starts with `toolu_` |
| FormatRequest.Spread | formatRequestGemini.ts:98 | `{ ...schema }` keeps an object's members, and an array's items become members holding smaller values |
| FormatRequest.SpreadArray | formatRequestGemini.ts:98 | `{ ...schema }` of an array holds each element under its decimal index, with no key twice |
| FormatRequest.Kept | formatRequestGemini.ts:113-122 | removing `additionalProperties` and an unsupported format only drops members |
| FormatRequest.Clean | formatRequestGemini.ts:92-96 | a value that is not an object comes back unchanged, and the result is never an array |
| FormatRequest.CleanProperties | formatRequestGemini.ts:125-133 | cleaned `properties` are always an object |
| FormatRequest.CleanPropertiesEntries | formatRequestGemini.ts:125-133 | `properties` given as an object keep their keys in order, each holding its old value cleaned; given as an array, each element is cleaned under its index |
| FormatRequest.CleanObject | formatRequestGemini.ts:113-122 | a cleaned object has no `additionalProperties`, drops `format` exactly when it is an unsupported string format, and keeps every other key that is not recursed into |
| FormatRequest.CleanGet | formatRequestGemini.ts:113-145 | in a cleaned object every key other than `additionalProperties` and `format` holds its old value, cleaned as that key calls for |
| FormatRequest.CleanRecurses | formatRequestGemini.ts:125-145 | a truthy `items` is cleaned in place, truthy `properties` are rebuilt from their cleaned entries, and every element of an array `anyOf`, `oneOf` or `allOf` is cleaned |
| FormatRequest.CleanCleans | formatRequestGemini.ts:92-148 | a cleaned schema has nothing left to clean, at any depth |
| FormatRequest.CleanFixed | formatRequestGemini.ts:92-148 | cleaning a schema with nothing to clean changes nothing |
| FormatRequest.CleanIdempotent | formatRequestGemini.ts:92-148 | cleaning twice is cleaning once |
| FormatRequest.GeminiRole | formatRequestGemini.ts:28 | the role is `model` iff the Claude role is `assistant`, otherwise `user` |
| FormatRequest.BlockPart | formatRequestGemini.ts:43-73 | a block gives no part iff it is of another type or is a `tool_result` without an id; a text block gives its string, or its JSON when it is not a string; a `tool_use` gives a call with its name and its input as `args`; a `tool_result` gives a response named after its tool, holding `{result}` for string content, `{}` for absent or null content, and the content itself otherwise |
| FormatRequest.ConvertMessages | formatRequestGemini.ts:23-85 | the nested loops compute `Convert` |
| FormatRequest.ConvertBlocks | formatRequestGemini.ts:40-74 | the inner loop over one message's blocks computes `Gather`: the parts of the blocks in order, and the tool names they record |
| FormatRequest.ConvertShape | formatRequestGemini.ts:76-81 | at most one content per message, each with role `model` or `user` and at least one part |
| FormatRequest.TextConversation | tests/formatRequestGemini.test.ts:12-53 | string messages convert one for one, in order, each into a single text part |
| FormatRequest.GatherLastRecord | formatRequestGemini.ts:51-53 | the name known for an id is that of the last `tool_use` with that id and a name |
| FormatRequest.GatherNoRecord | formatRequestGemini.ts:51-53 | blocks that never record an id leave what is known about it unchanged |
| FormatRequest.ResultName | formatRequestGemini.ts:60-72 | a `tool_result` is named after the last earlier `tool_use` with its id, or after the id itself when none is known |
| FormatRequest.ConvertNames | formatRequestGemini.ts:25 | the tool-name map is shared across messages: it is what all blocks of the conversation record |
| FormatRequest.ConvertTools | formatRequestGemini.ts:155-193 | no tool object iff there are no tools; `googleSearch` iff some tool is `web_search` |
| FormatRequest.WithoutWebSearchKeeps | formatRequestGemini.ts:165 | filtering keeps exactly the tools not named `web_search`, and all of them when there is none |
| FormatRequest.ToolDeclarations | formatRequestGemini.ts:163-192 | the declarations are those of the tools other than `web_search`, and absent when no other tool remains |
| FormatRequest.DeclarationsClean | formatRequestGemini.ts:169-173 | every declared schema is clean, and no declaration is `web_search` |
| FormatRequest.FormatSystemInstruction | formatRequestGemini.ts:200-221 | there is no instruction iff the system prompt is the empty string; a non-empty string is used as it is; an array is its item texts joined by line breaks; an object is its truthy `text`, or else its JSON |
| FormatRequest.SystemArraySplits | tests/formatRequestGemini.test.ts:178-190 | an array system prompt becomes its item texts joined by line breaks, one line per item |
| FormatRequest.GenerationConfigOf | formatRequestGemini.ts:265-284 | there is no config iff no parameter is given and no stop sequence is present; otherwise each given parameter is copied, and stop sequences only when non-empty |
| FormatRequest.FormatClaudeToGemini | formatRequestGemini.ts:228-298 | the body is the converted request, and `isStream` iff `stream` is true |
| FormatRequest.BodyTools | formatRequestGemini.ts:286-290 | the body has tools iff the request has at least one, and then exactly the one converted tool object |

## Left out

- The `ReadableStream` machinery is not modelled: `getReader`, `releaseLock`, `controller.close` and the async start callback. The upstream is the list of string fragments the reader yields, and the output is the list of enqueued chunks.
- UTF-8 decoding (`TextDecoder`) and encoding (`TextEncoder`) are not modelled. Fragments and chunks are strings of characters.
- `JSON.parse` and its failures are the `parse` parameter. So is any chunk whose shape does not match the Gemini stream-chunk type. A chunk that makes `processGeminiChunk` throw half-way, leaving partial effects, is not modelled.
- `Date.now()` and `Math.random()` are the parameters `now` and `newId`. Which ids they actually produce is not modelled, so neither is a collision between a generated id and a real one.
- Numbers are not floats. JSON numbers are integers. `temperature`, `top_p`, `top_k` and `max_tokens` are reals, copied as given. Token counts are naturals.
- A `null` sampling parameter or `null` system prompt is not modelled: `undefined` is the only absent value.
- JavaScript objects are member lists with the source's insertion order. The engine's reordering of integer-like keys and the special `__proto__` key are not modelled.
- `Object.entries` of a string enumerates UTF-16 code units, which the model takes to be characters.
- A text block whose `text` is `undefined` is not modelled. `JSON.stringify(undefined)` is not a string.
- An object system prompt whose `text` is a truthy non-string is rendered as its JSON.
- FormatRequest.CleanPropertiesEntries: stated for `properties` objects whose keys are distinct, as the keys of a JavaScript object always are; the member lists of the model could repeat a key.
- The Worker entry point (`index.ts`), the HTTP proxy (`geminiProxy.ts`), the favicon server and the HTML pages are not part of this model.

## Findings

| source | as written | input that shows it | evidently intended | confidence | as-written member | corrected member |
|---|---|---|---|---|---|---|
| formatResponseGemini.ts:59 | `id: part.functionCall.id` copies the call's id, so a call without one gives a `tool_use` block with no id | a candidate whose only part is `functionCall: { name: 'do_something', args: { a: 1 } }`, as in tests/formatResponseGemini.test.ts:73-96, which expects an id matching `^toolu_` | fall back to a generated `toolu_` id, as line 69 does for `tool_result` | not executed | FormatResponse.MissingToolUseId | FormatResponse.GeneratedToolUseId |
