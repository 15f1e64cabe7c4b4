/**
 * The streaming translator of streamResponseGemini.ts as pure functions of its state.
 * `State` is a snapshot of the closure variables; each step function says which state
 * and which downstream events one part, chunk or line produces. The `Translator`
 * class in StreamTranslator runs the same steps imperatively and is proved against
 * these functions; the lemmas here state what the steps guarantee.
 */
module StreamSpec {
  import opened Wrappers
  import opened Strings
  import opened Json
  import opened Types
  import Sse

  // ===========================================================================
  // Downstream events
  // ===========================================================================

  datatype BlockKind = TextKind | ToolUseKind(id: string, name: string)

  datatype Delta = TextDelta(text: string) | InputJsonDelta(partialJson: string)

  datatype Event =
    | MessageStart(messageId: string, model: string)
    | ContentBlockStart(index: nat, block: BlockKind)
    | ContentBlockDelta(index: nat, delta: Delta)
    | ContentBlockStop(index: nat)
    | MessageDelta(stopReason: StopReason, inputTokens: nat, outputTokens: nat)
    | MessageStop

  function EventName(e: Event): string {
    match e
    case MessageStart(_, _) => "message_start"
    case ContentBlockStart(_, _) => "content_block_start"
    case ContentBlockDelta(_, _) => "content_block_delta"
    case ContentBlockStop(_) => "content_block_stop"
    case MessageDelta(_, _, _) => "message_delta"
    case MessageStop => "message_stop"
  }

  function StopReasonName(r: StopReason): string {
    match r
    case EndTurn => "end_turn"
    case MaxTokens => "max_tokens"
    case ToolUse => "tool_use"
    case StopSequence => "stop_sequence"
  }

  function Str(s: string): Json { JString(s) }

  function UsageJson(input: nat, output: nat): Json {
    JObject([Member("input_tokens", JNumber(input)), Member("output_tokens", JNumber(output))])
  }

  /** The object each event carries on its `data:` line. */
  function Payload(e: Event): Json {
    match e
    case MessageStart(id, model) =>
      JObject([
        Member("type", Str("message_start")),
        Member("message", JObject([
          Member("id", Str(id)), Member("type", Str("message")), Member("role", Str("assistant")),
          Member("content", JArray([])), Member("model", Str(model)),
          Member("stop_reason", JNull), Member("stop_sequence", JNull),
          Member("usage", UsageJson(0, 0))]))])
    case ContentBlockStart(i, block) =>
      var b := match block
        case TextKind => JObject([Member("type", Str("text")), Member("text", Str(""))])
        case ToolUseKind(id, name) =>
          JObject([Member("type", Str("tool_use")), Member("id", Str(id)),
                   Member("name", Str(name)), Member("input", JObject([]))]);
      JObject([Member("type", Str("content_block_start")), Member("index", JNumber(i)),
               Member("content_block", b)])
    case ContentBlockDelta(i, d) =>
      var dj := match d
        case TextDelta(t) => JObject([Member("type", Str("text_delta")), Member("text", Str(t))])
        case InputJsonDelta(p) =>
          JObject([Member("type", Str("input_json_delta")), Member("partial_json", Str(p))]);
      JObject([Member("type", Str("content_block_delta")), Member("index", JNumber(i)),
               Member("delta", dj)])
    case ContentBlockStop(i) =>
      JObject([Member("type", Str("content_block_stop")), Member("index", JNumber(i))])
    case MessageDelta(r, input, output) =>
      JObject([
        Member("type", Str("message_delta")),
        Member("delta", JObject([Member("stop_reason", Str(StopReasonName(r))),
                                 Member("stop_sequence", JNull)])),
        Member("usage", UsageJson(input, output))])
    case MessageStop =>
      JObject([Member("type", Str("message_stop"))])
  }

  /** The chunk `enqueueSSE` writes for one event. */
  function Frame(e: Event): string {
    Sse.Message(EventName(e), Some(Payload(e)))
  }

  function Frames(evs: seq<Event>): (r: seq<string>)
    ensures |r| == |evs| && forall i :: 0 <= i < |evs| ==> r[i] == Frame(evs[i])
  {
    seq(|evs|, i requires 0 <= i < |evs| => Frame(evs[i]))
  }

  // ===========================================================================
  // Translator state
  // ===========================================================================

  datatype Source = Source(title: string, url: string)

  /**
   * The closure variables of the translator: the current block index, which kind of
   * block is open, the open tool block's id, the last arguments text sent per tool id,
   * the token totals, the last finish reason, the collected sources, and how many tool
   * ids have been generated so far.
   */
  datatype State = State(
    index: nat,
    textOpen: bool,
    toolOpen: bool,
    toolId: Option<string>,
    lastArgs: map<string, string>,
    inputTokens: nat,
    outputTokens: nat,
    lastFinish: Option<FinishReason>,
    sources: seq<Source>,
    generated: nat)

  const Initial := State(0, false, false, None, map[], 0, 0, None, [], 0)

  /** A new state together with the events emitted on the way to it. */
  datatype Step = Step(state: State, events: seq<Event>)

  /** At most one block is open, and a tool id is current exactly while a tool block is. */
  predicate Inv(s: State) {
    && !(s.textOpen && s.toolOpen)
    && (s.toolId.Some? <==> s.toolOpen)
  }

  // ===========================================================================
  // Block transitions
  // ===========================================================================

  /** Closing an open tool block before text (and before the sources text). */
  function CloseTool(s: State): Step {
    if s.toolOpen then
      Step(s.(toolOpen := false, toolId := None, index := s.index + 1), [ContentBlockStop(s.index)])
    else Step(s, [])
  }

  /** Closing an open text block before a function call. */
  function CloseText(s: State): Step {
    if s.textOpen then
      Step(s.(textOpen := false, index := s.index + 1), [ContentBlockStop(s.index)])
    else Step(s, [])
  }

  function OpenText(s: State): Step {
    if !s.textOpen then
      Step(s.(textOpen := true), [ContentBlockStart(s.index, TextKind)])
    else Step(s, [])
  }

  /** Stops an open tool block and moves to the next index, leaving the tool fields as they are. */
  function StopTool(s: State): Step {
    if s.toolOpen then Step(s.(index := s.index + 1), [ContentBlockStop(s.index)]) else Step(s, [])
  }

  /** Closes the current tool block, if any, and opens one for `id` with an empty baseline. */
  function OpenTool(s: State, id: string, name: string): Step {
    var a := StopTool(s);
    Step(a.state.(toolOpen := true, toolId := Some(id), lastArgs := a.state.lastArgs[id := ""]),
         a.events + [ContentBlockStart(a.state.index, ToolUseKind(id, name))])
  }

  /**
   * The incremental arguments text to emit, given the text last sent for this call:
   * the new suffix when the old text is a prefix, the whole text otherwise, and
   * nothing when the text is unchanged and something was already sent.
   */
  function ArgsDelta(last: string, argsJson: string): (r: Option<string>)
    ensures r.None? <==> last != "" && (argsJson == last || argsJson == "")
    ensures StartsWith(argsJson, last) && argsJson != last ==> r == Some(argsJson[|last|..])
    ensures !StartsWith(argsJson, last) && argsJson != "" ==> r == Some(argsJson)
    ensures last == "" ==> r == Some(argsJson)
  {
    var partial := if StartsWith(argsJson, last) then argsJson[|last|..] else argsJson;
    if |partial| > 0 || |last| == 0 then Some(if |partial| > 0 then partial else argsJson)
    else None
  }

  /** Emits the arguments of a call part as an `input_json_delta` and records what was sent. */
  function ArgsStep(s: State, id: string, args: Option<Json>): Step {
    if args.Some? && Truthy(args.value) then
      var argsJson := Stringify(args.value);
      var last := if id in s.lastArgs then s.lastArgs[id] else "";
      match ArgsDelta(last, argsJson)
      case Some(d) =>
        Step(s.(lastArgs := s.lastArgs[id := argsJson]), [ContentBlockDelta(s.index, InputJsonDelta(d))])
      case None => Step(s, [])
    else Step(s, [])
  }

  // ===========================================================================
  // Parts
  // ===========================================================================

  /** A text part: leave tool mode, open a text block if needed, send non-empty text. */
  function TextStep(s: State, text: string): Step {
    var a := CloseTool(s);
    var b := OpenText(a.state);
    var d := if text != "" then [ContentBlockDelta(b.state.index, TextDelta(text))] else [];
    Step(b.state, a.events + b.events + d)
  }

  predicate HasId(call: Call) {
    call.id.Some? && call.id.value != ""
  }

  /** The id a call part is handled under: its own, or the next generated one. */
  function CallId(s: State, call: Call, newId: nat -> string): string {
    if HasId(call) then call.id.value else newId(s.generated)
  }

  /** Uses up one generated id when the call brings none of its own. */
  function CountId(s: State, call: Call): State {
    if HasId(call) then s else s.(generated := s.generated + 1)
  }

  /** Makes `id` the current tool: a new tool block unless it is current already. */
  function SwitchTool(s: State, id: string, name: string): Step {
    if Some(id) != s.toolId then OpenTool(s, id, name) else Step(s, [])
  }

  /** A function-call part: leave text mode, switch tool block when the id changes, send args. */
  function CallStep(s: State, call: Call, newId: nat -> string): Step {
    var a := CloseText(s);
    var id := CallId(a.state, call, newId);
    var b := SwitchTool(CountId(a.state, call), id, call.name.GetOr(""));
    var c := ArgsStep(b.state, id, call.args);
    Step(c.state, a.events + b.events + c.events)
  }

  /** `CallStep` is a text close, a tool switch and an argument step, in that order. */
  lemma CallStepPieces(s: State, call: Call, newId: nat -> string)
    ensures var a := CloseText(s);
      var id := CallId(a.state, call, newId);
      var b := SwitchTool(CountId(a.state, call), id, call.name.GetOr(""));
      var c := ArgsStep(b.state, id, call.args);
      CallStep(s, call, newId) == Step(c.state, a.events + b.events + c.events)
  {
  }

  function PartStep(s: State, p: Part, newId: nat -> string): Step {
    match p
    case TextPart(t) => TextStep(s, t)
    case FunctionCallPart(call) => CallStep(s, call, newId)
    case FunctionResponsePart(_) => Step(s, [])
  }

  /** The parts of one candidate, in order. */
  function PartsStep(s: State, parts: seq<Part>, newId: nat -> string): Step
    decreases |parts|
  {
    if parts == [] then Step(s, [])
    else
      var a := PartsStep(s, parts[..|parts| - 1], newId);
      var b := PartStep(a.state, parts[|parts| - 1], newId);
      Step(b.state, a.events + b.events)
  }

  // ===========================================================================
  // Chunks
  // ===========================================================================

  /** A non-zero count replaces the running total; zero or absent keeps it. */
  function UsageStep(s: State, usage: Option<Usage>): State {
    match usage
    case None => s
    case Some(u) =>
      s.(inputTokens := if u.promptTokenCount != 0 then u.promptTokenCount else s.inputTokens,
         outputTokens := if u.candidatesTokenCount != 0 then u.candidatesTokenCount else s.outputTokens)
  }

  predicate HasUrl(sources: seq<Source>, url: string) {
    exists i :: 0 <= i < |sources| && sources[i].url == url
  }

  function AddSource(sources: seq<Source>, gc: GroundingChunk): seq<Source> {
    match gc.web
    case Some(w) => if HasUrl(sources, w.uri) then sources else sources + [Source(w.title, w.uri)]
    case None => sources
  }

  function AddSources(sources: seq<Source>, gcs: seq<GroundingChunk>): seq<Source>
    decreases |gcs|
  {
    if gcs == [] then sources else AddSource(AddSources(sources, gcs[..|gcs| - 1]), gcs[|gcs| - 1])
  }

  /** `processGeminiChunk`: usage, then the first candidate's finish reason, sources and parts. */
  function ChunkStep(s: State, c: StreamChunk, newId: nat -> string): Step {
    var s1 := UsageStep(s, c.usage);
    if |c.candidates| == 0 then Step(s1, [])
    else
      var cand := c.candidates[0];
      var s2 := if cand.finishReason.Some? then s1.(lastFinish := cand.finishReason) else s1;
      var s3 := s2.(sources := AddSources(s2.sources, cand.grounding));
      PartsStep(s3, cand.parts, newId)
  }

  function ChunksStep(s: State, cs: seq<StreamChunk>, newId: nat -> string): Step
    decreases |cs|
  {
    if cs == [] then Step(s, [])
    else
      var a := ChunksStep(s, cs[..|cs| - 1], newId);
      var b := ChunkStep(a.state, cs[|cs| - 1], newId);
      Step(b.state, a.events + b.events)
  }

  // ===========================================================================
  // Lines
  // ===========================================================================

  /**
   * One complete line of upstream text as a chunk: trimmed, an optional `data: `
   * prefix removed, `[DONE]` and anything not starting with `{` or `[` skipped, and
   * the rest given to the JSON parser, whose failure also skips the line.
   */
  function DecodeLine(line: string, parse: string -> Option<StreamChunk>): Option<StreamChunk> {
    var trimmed := Trim(line);
    if trimmed == "" then None
    else
      var payload := if StartsWith(trimmed, "data: ") then Trim(trimmed[6..]) else trimmed;
      if payload == "[DONE]" then None
      else if StartsWith(payload, "{") || StartsWith(payload, "[") then parse(payload)
      else None
  }

  function LineStep(s: State, line: string, parse: string -> Option<StreamChunk>, newId: nat -> string): Step {
    match DecodeLine(line, parse)
    case Some(c) => ChunkStep(s, c, newId)
    case None => Step(s, [])
  }

  function LinesStep(s: State, lines: seq<string>, parse: string -> Option<StreamChunk>, newId: nat -> string): Step
    decreases |lines|
  {
    if lines == [] then Step(s, [])
    else
      var a := LinesStep(s, lines[..|lines| - 1], parse, newId);
      var b := LineStep(a.state, lines[|lines| - 1], parse, newId);
      Step(b.state, a.events + b.events)
  }

  // ===========================================================================
  // Runs of steps
  // ===========================================================================

  /** Steps `f` over `xs` in order, concatenating the events. */
  function Fold<T>(s: State, xs: seq<T>, f: (State, T) -> Step): Step
    decreases |xs|
  {
    if xs == [] then Step(s, [])
    else
      var a := Fold(s, xs[..|xs| - 1], f);
      var b := f(a.state, xs[|xs| - 1]);
      Step(b.state, a.events + b.events)
  }

  lemma {:induction false} FoldAppend<T>(s: State, x: seq<T>, y: seq<T>, f: (State, T) -> Step)
    ensures var a := Fold(s, x, f);
            var b := Fold(a.state, y, f);
            Fold(s, x + y, f) == Step(b.state, a.events + b.events)
    decreases |y|
  {
    var a := Fold(s, x, f);
    if y == [] {
      assert x + y == x;
      assert a.events + [] == a.events;
    } else {
      assert (x + y)[..|x + y| - 1] == x + y[..|y| - 1];
      FoldAppend(s, x, y[..|y| - 1], f);
    }
  }

  lemma {:induction false} LinesIsFold(s: State, lines: seq<string>,
                                      parse: string -> Option<StreamChunk>, newId: nat -> string)
    ensures LinesStep(s, lines, parse, newId)
         == Fold(s, lines, (st: State, l: string) => LineStep(st, l, parse, newId))
    decreases |lines|
  {
    if lines != [] {
      LinesIsFold(s, lines[..|lines| - 1], parse, newId);
    }
  }

  lemma {:induction false} PartsIsFold(s: State, parts: seq<Part>, newId: nat -> string)
    ensures PartsStep(s, parts, newId) == Fold(s, parts, (st: State, p: Part) => PartStep(st, p, newId))
    decreases |parts|
  {
    if parts != [] {
      PartsIsFold(s, parts[..|parts| - 1], newId);
    }
  }

  /** Processing lines is a fold: splitting the line list anywhere gives the same run. */
  lemma LinesStepAppend(s: State, x: seq<string>, y: seq<string>,
                        parse: string -> Option<StreamChunk>, newId: nat -> string)
    ensures var a := LinesStep(s, x, parse, newId);
            var b := LinesStep(a.state, y, parse, newId);
            LinesStep(s, x + y, parse, newId) == Step(b.state, a.events + b.events)
  {
    var f := (st: State, l: string) => LineStep(st, l, parse, newId);
    LinesIsFold(s, x, parse, newId);
    LinesIsFold(s, x + y, parse, newId);
    LinesIsFold(Fold(s, x, f).state, y, parse, newId);
    FoldAppend(s, x, y, f);
  }

  lemma LinesStepSnoc(s: State, lines: seq<string>, line: string,
                      parse: string -> Option<StreamChunk>, newId: nat -> string)
    ensures var a := LinesStep(s, lines, parse, newId);
            var b := LineStep(a.state, line, parse, newId);
            LinesStep(s, lines + [line], parse, newId) == Step(b.state, a.events + b.events)
  {
    var f := (st: State, l: string) => LineStep(st, l, parse, newId);
    LinesIsFold(s, lines, parse, newId);
    LinesIsFold(s, lines + [line], parse, newId);
    assert (lines + [line])[..|lines|] == lines;
  }

  lemma LinesStepPrefix(s: State, lines: seq<string>, j: nat,
                        parse: string -> Option<StreamChunk>, newId: nat -> string)
    requires j < |lines|
    ensures var a := LinesStep(s, lines[..j], parse, newId);
            var b := LineStep(a.state, lines[j], parse, newId);
            LinesStep(s, lines[..j + 1], parse, newId) == Step(b.state, a.events + b.events)
  {
    assert lines[..j + 1] == lines[..j] + [lines[j]];
    LinesStepSnoc(s, lines[..j], lines[j], parse, newId);
  }

  lemma PartsStepPrefix(s: State, parts: seq<Part>, j: nat, newId: nat -> string)
    requires j < |parts|
    ensures var a := PartsStep(s, parts[..j], newId);
            var b := PartStep(a.state, parts[j], newId);
            PartsStep(s, parts[..j + 1], newId) == Step(b.state, a.events + b.events)
  {
    assert parts[..j + 1] == parts[..j] + [parts[j]];
    PartsStepSnoc(s, parts[..j], parts[j], newId);
  }

  lemma PartsStepSnoc(s: State, parts: seq<Part>, p: Part, newId: nat -> string)
    ensures var a := PartsStep(s, parts, newId);
            var b := PartStep(a.state, p, newId);
            PartsStep(s, parts + [p], newId) == Step(b.state, a.events + b.events)
  {
    PartsIsFold(s, parts, newId);
    PartsIsFold(s, parts + [p], newId);
    assert (parts + [p])[..|parts|] == parts;
  }

  // ===========================================================================
  // End of stream
  // ===========================================================================

  /** The streaming stop reason has three outcomes only. */
  function StreamStopReason(f: Option<FinishReason>): (r: StopReason)
    ensures r == ToolUse <==> f == Some(FUNCTION_CALL)
    ensures r == MaxTokens <==> f == Some(MAX_TOKENS)
    ensures r == EndTurn <==> f != Some(FUNCTION_CALL) && f != Some(MAX_TOKENS)
  {
    if f == Some(FUNCTION_CALL) then ToolUse
    else if f == Some(MAX_TOKENS) then MaxTokens
    else EndTurn
  }

  function SourceLine(src: Source): string {
    "- " + src.title + " (" + src.url + ")"
  }

  function SourceLines(sources: seq<Source>): (r: seq<string>)
    ensures |r| == |sources| && forall i :: 0 <= i < |sources| ==> r[i] == SourceLine(sources[i])
  {
    seq(|sources|, i requires 0 <= i < |sources| => SourceLine(sources[i]))
  }

  /** The trailing citation text: a `Sources:` heading and one line per source. */
  function SourcesText(sources: seq<Source>): string {
    Join(["\n\nSources:"] + SourceLines(sources), "\n")
  }

  /** The footer is never empty, so it is always sent as a delta. */
  lemma SourcesTextNonEmpty(sources: seq<Source>)
    ensures SourcesText(sources) != ""
  {
    if |SourceLines(sources)| > 0 {
      JoinCons("\n\nSources:", SourceLines(sources), "\n");
    } else {
      assert ["\n\nSources:"] + SourceLines(sources) == ["\n\nSources:"];
    }
  }

  /** With sources, the footer goes out as text (closing any tool block, opening text if needed). */
  function SourcesStep(s: State): Step {
    if |s.sources| > 0 then TextStep(s, SourcesText(s.sources)) else Step(s, [])
  }

  /** The stop of whichever block is still open. */
  function CloseLast(s: State): seq<Event> {
    if s.toolOpen || s.textOpen then [ContentBlockStop(s.index)] else []
  }

  /** The block events of the end of the stream: the sources footer and the last stop. */
  function FinishBody(s: State): seq<Event> {
    var a := SourcesStep(s);
    a.events + CloseLast(a.state)
  }

  /** The end of the stream: sources footer, last stop, `message_delta`, `message_stop`. */
  function Finish(s: State): seq<Event> {
    FinishBody(s) + [MessageDelta(StreamStopReason(s.lastFinish), s.inputTokens, s.outputTokens), MessageStop]
  }

  /** The end of the stream splits into its block events and the two closing messages. */
  lemma FinishSplit(s: State)
    ensures var f := Finish(s);
      && |f| >= 2
      && f[..|f| - 2] == FinishBody(s)
      && f[|f| - 2..] == [MessageDelta(StreamStopReason(s.lastFinish), s.inputTokens, s.outputTokens), MessageStop]
  {
    var tail := [MessageDelta(StreamStopReason(s.lastFinish), s.inputTokens, s.outputTokens), MessageStop];
    TailSplit(FinishBody(s), tail);
  }

  lemma TailSplit<T>(x: seq<T>, y: seq<T>)
    requires |y| == 2
    ensures (x + y)[..|x + y| - 2] == x && (x + y)[|x + y| - 2..] == y
  {
  }

  /** The whole downstream event sequence for an upstream text. */
  function Translate(upstream: string, messageId: string, model: string,
                     parse: string -> Option<StreamChunk>, newId: nat -> string): seq<Event>
  {
    var body := LinesStep(Initial, Split(upstream, '\n'), parse, newId);
    [MessageStart(messageId, model)] + body.events + Finish(body.state)
  }

  /** The message id `'msg_' + Date.now()`. */
  function MessageId(now: nat): string {
    "msg_" + NatToString(now)
  }
}
