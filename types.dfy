/**
 * The request, response and stream shapes of both protocols. Optional fields that
 * the converters only test for truthiness are `Option`s; a decoded value never
 * holds `Some` of a falsy string where the converters treat both alike.
 */
module Types {
  import opened Wrappers
  import opened Json

  /** JavaScript truthiness of an optional string: present and non-empty. */
  predicate NonEmpty(o: Option<string>) {
    o.Some? && o.value != ""
  }

  // ================= Gemini =================

  /** `finishReason`; UNRECOGNIZED stands for any other non-empty value the provider sends. */
  datatype FinishReason = STOP | MAX_TOKENS | FUNCTION_CALL | SAFETY | RECITATION | OTHER | UNRECOGNIZED

  /** `functionCall: { name?, args?, id? }` */
  datatype Call = Call(name: Option<string>, args: Option<Json>, id: Option<string>)

  /** `functionResponse: { name, response, id? }` */
  datatype CallResult = CallResult(name: string, response: Json, id: Option<string>)

  /** A Gemini part: exactly one of text, function call, function response. */
  datatype Part =
    | TextPart(text: string)
    | FunctionCallPart(call: Call)
    | FunctionResponsePart(result: CallResult)

  datatype WebSource = WebSource(title: string, uri: string)

  /** One entry of `groundingMetadata.groundingChunks`; only `web` entries carry a source. */
  datatype GroundingChunk = GroundingChunk(web: Option<WebSource>)

  /** `usageMetadata`; an absent count is 0, which the converters treat the same way. */
  datatype Usage = Usage(promptTokenCount: nat, candidatesTokenCount: nat)

  /** A candidate; absent `content.parts` and absent grounding chunks are empty sequences. */
  datatype Candidate = Candidate(
    parts: seq<Part>,
    finishReason: Option<FinishReason>,
    grounding: seq<GroundingChunk>)

  /** One decoded line of the upstream stream. */
  datatype StreamChunk = StreamChunk(candidates: seq<Candidate>, usage: Option<Usage>)

  /** A whole non-streaming Gemini response. */
  datatype GeminiResponse = GeminiResponse(
    candidates: seq<Candidate>,
    id: Option<string>,
    usage: Option<Usage>)

  datatype GeminiContent = GeminiContent(role: string, parts: seq<Part>)

  datatype FunctionDeclaration = FunctionDeclaration(name: string, description: string, parameters: Json)

  /** `{ functionDeclarations?, googleSearch? }`; `googleSearch` is the empty object when present. */
  datatype GeminiTool = GeminiTool(
    functionDeclarations: Option<seq<FunctionDeclaration>>,
    googleSearch: bool)

  /** `systemInstruction: { parts: [{ text }] }` */
  datatype SystemInstruction = SystemInstruction(text: string)

  /** Sampling parameters are passed through untouched, so they stay opaque numbers. */
  datatype GenerationConfig = GenerationConfig(
    temperature: Option<real>,
    topP: Option<real>,
    topK: Option<real>,
    maxOutputTokens: Option<real>,
    stopSequences: Option<seq<string>>)

  datatype GeminiRequest = GeminiRequest(
    contents: seq<GeminiContent>,
    systemInstruction: Option<SystemInstruction>,
    generationConfig: Option<GenerationConfig>,
    tools: Option<seq<GeminiTool>>)

  // ================= Claude =================

  /** One element of an array `content`; OtherBlock is any other `type`. */
  datatype ClaudeBlock =
    | TextBlock(text: Json)
    | ToolUseBlock(id: Option<string>, name: Option<string>, input: Option<Json>)
    | ToolResultBlock(toolUseId: Option<string>, content: Option<Json>)
    | OtherBlock

  /** `content: string | ClaudeContent[]`; OtherContent is any other value. */
  datatype ClaudeContent = ContentText(s: string) | ContentBlocks(blocks: seq<ClaudeBlock>) | OtherContent

  datatype ClaudeMessage = ClaudeMessage(role: string, content: ClaudeContent)

  datatype ClaudeTool = ClaudeTool(name: string, description: string, inputSchema: Json)

  /** An element of an array `system`: a bare string or an object with an optional `text`. */
  datatype SystemBlock = SystemString(s: string) | SystemItem(text: Option<string>)

  /** `system: string | {text}[] | object` */
  datatype SystemPrompt =
    | SystemText(s: string)
    | SystemBlocks(items: seq<SystemBlock>)
    | SystemObject(members: seq<Member>)

  datatype ClaudeRequest = ClaudeRequest(
    model: string,
    messages: Option<seq<ClaudeMessage>>,
    system: Option<SystemPrompt>,
    temperature: Option<real>,
    topP: Option<real>,
    topK: Option<real>,
    maxTokens: Option<real>,
    stopSequences: Option<seq<string>>,
    tools: Option<seq<ClaudeTool>>,
    stream: Option<bool>)

  datatype StopReason = EndTurn | MaxTokens | ToolUse | StopSequence

  /** A block of a non-streaming Claude response. */
  datatype ResponseBlock =
    | ResponseText(text: string)
    | ResponseToolUse(id: Option<string>, name: Option<string>, input: Json)
    | ResponseToolResult(toolUseId: string, content: Json)

  datatype ClaudeResponse = ClaudeResponse(
    id: string,
    model: string,
    content: seq<ResponseBlock>,
    stopReason: StopReason,
    inputTokens: nat,
    outputTokens: nat)
}
