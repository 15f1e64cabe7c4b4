/**
 * `formatGeminiToClaude`: a whole (non-streaming) Gemini response becomes one Claude
 * message. The first candidate's parts become content blocks in order, the finish
 * reason decides the stop reason, and usage counts are copied.
 */
module FormatResponse {
  import opened Wrappers
  import opened Strings
  import opened Json
  import opened Types

  const NoCandidates := "No candidates found in Gemini response"

  /** `res.id || msg_<now>` */
  function ResponseId(id: Option<string>, now: nat): (r: string)
    ensures NonEmpty(id) ==> r == id.value
    ensures !NonEmpty(id) ==> r == "msg_" + NatToString(now)
  {
    if NonEmpty(id) then id.value else "msg_" + NatToString(now)
  }

  /** `id || toolu_<now>` */
  function ToolId(id: Option<string>, now: nat): string {
    if NonEmpty(id) then id.value else "toolu_" + NatToString(now)
  }

  /** The `tool_use` id the converter should give: the call's own id, or `toolu_<now>`. */
  function ToolUseId(call: Call, now: nat): string {
    ToolId(call.id, now)
  }

  /** `functionResponse.id || toolu_<now>` */
  function ToolResultId(result: CallResult, now: nat): string {
    ToolId(result.id, now)
  }

  /** `args || {}` */
  function ToolInput(args: Option<Json>): Json {
    if args.Some? && Truthy(args.value) then args.value else JObject([])
  }

  /** `finishReason` to `stop_reason`; an unrecognised reason is `end_turn`. */
  function FinishStop(f: FinishReason): StopReason {
    match f
    case STOP => EndTurn
    case MAX_TOKENS => MaxTokens
    case FUNCTION_CALL => ToolUse
    case SAFETY => StopSequence
    case RECITATION => StopSequence
    case OTHER => StopSequence
    case UNRECOGNIZED => EndTurn
  }

  /** What the parts loop has built so far. */
  datatype Acc = Acc(content: seq<ResponseBlock>, stop: StopReason)

  /** The block a call becomes, as written: its id is the call's own, absent when the call has none. */
  function CallBlock(call: Call): ResponseBlock {
    ResponseToolUse(call.id, call.name, ToolInput(call.args))
  }

  /** The block a function response becomes. */
  function ResultBlock(result: CallResult, now: nat): ResponseBlock {
    ResponseToolResult(ToolResultId(result, now), result.response)
  }

  /** One pass of the parts loop: empty text parts add nothing. */
  function PartStep(acc: Acc, p: Part, now: nat): Acc {
    match p
    case TextPart(t) =>
      if t != "" then acc.(content := acc.content + [ResponseText(t)]) else acc
    case FunctionCallPart(call) =>
      Acc(acc.content + [CallBlock(call)], ToolUse)
    case FunctionResponsePart(result) =>
      acc.(content := acc.content + [ResponseToolResult(ToolResultId(result, now), result.response)])
  }

  function Walk(acc: Acc, parts: seq<Part>, now: nat): Acc
    decreases |parts|
  {
    if parts == [] then acc else PartStep(Walk(acc, parts[..|parts| - 1], now), parts[|parts| - 1], now)
  }

  /** The content a candidate starts with: one empty text block when it has no parts. */
  function Placeholder(parts: seq<Part>): seq<ResponseBlock> {
    if |parts| == 0 then [ResponseText("")] else []
  }

  function Format(res: GeminiResponse, model: string, now: nat): (r: Result<ClaudeResponse>)
    ensures r.Failure? <==> |res.candidates| == 0
    ensures r.Failure? ==> r.error == NoCandidates
    ensures r.Success? ==> r.value.model == model && r.value.id == ResponseId(res.id, now)
    ensures r.Success? ==> r.value.inputTokens == (if res.usage.Some? then res.usage.value.promptTokenCount else 0)
    ensures r.Success? ==> r.value.outputTokens == (if res.usage.Some? then res.usage.value.candidatesTokenCount else 0)
  {
    if |res.candidates| == 0 then Failure(NoCandidates)
    else
      var cand := res.candidates[0];
      var w := Walk(Acc(Placeholder(cand.parts), EndTurn), cand.parts, now);
      var stop := if cand.finishReason.Some? then FinishStop(cand.finishReason.value) else w.stop;
      Success(ClaudeResponse(
        ResponseId(res.id, now), model, w.content, stop,
        if res.usage.Some? then res.usage.value.promptTokenCount else 0,
        if res.usage.Some? then res.usage.value.candidatesTokenCount else 0))
  }

  /**
   * `formatGeminiToClaude`: builds the response, pushes a block per part in a loop,
   * then maps the finish reason.
   */
  method FormatGeminiToClaude(res: GeminiResponse, model: string, now: nat) returns (r: Result<ClaudeResponse>)
    ensures r == Format(res, model, now)
  {
    if |res.candidates| == 0 {
      return Failure(NoCandidates);
    }
    var candidate := res.candidates[0];
    var inputTokens := if res.usage.Some? then res.usage.value.promptTokenCount else 0;
    var outputTokens := if res.usage.Some? then res.usage.value.candidatesTokenCount else 0;
    var content: seq<ResponseBlock> := [];
    var stopReason := EndTurn;
    if |candidate.parts| == 0 {
      content := content + [ResponseText("")];
    }
    var parts := candidate.parts;
    var i := 0;
    while i < |parts|
      invariant 0 <= i <= |parts|
      invariant Acc(content, stopReason) == Walk(Acc(Placeholder(parts), EndTurn), parts[..i], now)
    {
      assert parts[..i + 1][..i] == parts[..i];
      match parts[i] {
        case TextPart(text) =>
          if text != "" {
            content := content + [ResponseText(text)];
          }
        case FunctionCallPart(call) =>
          content := content + [ResponseToolUse(call.id, call.name, ToolInput(call.args))];
          stopReason := ToolUse;
        case FunctionResponsePart(result) =>
          content := content + [ResponseToolResult(ToolResultId(result, now), result.response)];
      }
      i := i + 1;
    }
    assert parts[..i] == parts;
    if candidate.finishReason.Some? {
      stopReason := FinishStop(candidate.finishReason.value);
    }
    return Success(ClaudeResponse(ResponseId(res.id, now), model, content, stopReason, inputTokens, outputTokens));
  }

  // ---------------------------------------------------------------------------
  // What the response says about the parts
  // ---------------------------------------------------------------------------

  predicate HasCall(parts: seq<Part>) {
    exists i :: 0 <= i < |parts| && parts[i].FunctionCallPart?
  }

  /** The non-empty texts of the parts, in order. */
  function PartTexts(parts: seq<Part>): seq<string>
    decreases |parts|
  {
    if parts == [] then []
    else
      var p := parts[|parts| - 1];
      PartTexts(parts[..|parts| - 1]) + (if p.TextPart? && p.text != "" then [p.text] else [])
  }

  /** The texts of the text blocks, in order. */
  function BlockTexts(blocks: seq<ResponseBlock>): seq<string>
    decreases |blocks|
  {
    if blocks == [] then []
    else
      var b := blocks[|blocks| - 1];
      BlockTexts(blocks[..|blocks| - 1]) + (if b.ResponseText? then [b.text] else [])
  }

  /** The calls of the parts, in order. */
  function Calls(parts: seq<Part>): seq<Call>
    decreases |parts|
  {
    if parts == [] then []
    else
      var p := parts[|parts| - 1];
      Calls(parts[..|parts| - 1]) + (if p.FunctionCallPart? then [p.call] else [])
  }

  /** The `tool_use` blocks, in order. */
  function ToolUses(blocks: seq<ResponseBlock>): seq<ResponseBlock>
    decreases |blocks|
  {
    if blocks == [] then []
    else
      var b := blocks[|blocks| - 1];
      ToolUses(blocks[..|blocks| - 1]) + (if b.ResponseToolUse? then [b] else [])
  }

  /** The function responses of the parts, in order. */
  function Results(parts: seq<Part>): seq<CallResult>
    decreases |parts|
  {
    if parts == [] then []
    else
      var p := parts[|parts| - 1];
      Results(parts[..|parts| - 1]) + (if p.FunctionResponsePart? then [p.result] else [])
  }

  /** The `tool_result` blocks, in order. */
  function ToolResults(blocks: seq<ResponseBlock>): seq<ResponseBlock>
    decreases |blocks|
  {
    if blocks == [] then []
    else
      var b := blocks[|blocks| - 1];
      ToolResults(blocks[..|blocks| - 1]) + (if b.ResponseToolResult? then [b] else [])
  }

  function CallBlocks(calls: seq<Call>): (r: seq<ResponseBlock>)
    ensures |r| == |calls| && forall i :: 0 <= i < |calls| ==> r[i] == CallBlock(calls[i])
  {
    seq(|calls|, i requires 0 <= i < |calls| => CallBlock(calls[i]))
  }

  function ResultBlocks(results: seq<CallResult>, now: nat): (r: seq<ResponseBlock>)
    ensures |r| == |results| && forall i :: 0 <= i < |results| ==> r[i] == ResultBlock(results[i], now)
  {
    seq(|results|, i requires 0 <= i < |results| => ResultBlock(results[i], now))
  }

  /** The views of a sequence with one more block at its end. */
  lemma BlockViewsSnoc(bs: seq<ResponseBlock>, b: ResponseBlock)
    ensures BlockTexts(bs + [b]) == BlockTexts(bs) + (if b.ResponseText? then [b.text] else [])
    ensures ToolUses(bs + [b]) == ToolUses(bs) + (if b.ResponseToolUse? then [b] else [])
    ensures ToolResults(bs + [b]) == ToolResults(bs) + (if b.ResponseToolResult? then [b] else [])
  {
    assert (bs + [b])[..|bs|] == bs;
  }

  /** The loop sets `tool_use` exactly when it meets a function call. */
  lemma {:induction false} WalkStop(acc: Acc, parts: seq<Part>, now: nat)
    ensures Walk(acc, parts, now).stop == if HasCall(parts) then ToolUse else acc.stop
    decreases |parts|
  {
    if parts != [] {
      var init := parts[..|parts| - 1];
      WalkStop(acc, init, now);
      if HasCall(init) {
        var i :| 0 <= i < |init| && init[i].FunctionCallPart?;
        assert parts[i] == init[i];
      }
      if HasCall(parts) && !parts[|parts| - 1].FunctionCallPart? {
        var i :| 0 <= i < |parts| && parts[i].FunctionCallPart?;
        assert init[i] == parts[i];
      }
    }
  }

  /** The loop adds the non-empty texts, in the order of the parts. */
  lemma {:induction false} WalkTexts(acc: Acc, parts: seq<Part>, now: nat)
    ensures BlockTexts(Walk(acc, parts, now).content) == BlockTexts(acc.content) + PartTexts(parts)
    decreases |parts|
  {
    if parts != [] {
      var init := parts[..|parts| - 1];
      var p := parts[|parts| - 1];
      var w := Walk(acc, init, now);
      WalkTexts(acc, init, now);
      assert Walk(acc, parts, now) == PartStep(w, p, now);
      PartStepTexts(w, p, now);
      assert PartTexts(parts) == PartTexts(init) + (if p.TextPart? && p.text != "" then [p.text] else []);
    }
  }

  lemma PartStepTexts(w: Acc, p: Part, now: nat)
    ensures BlockTexts(PartStep(w, p, now).content)
         == BlockTexts(w.content) + (if p.TextPart? && p.text != "" then [p.text] else [])
  {
    match p
    case TextPart(t) =>
      BlockViewsSnoc(w.content, ResponseText(t));
    case FunctionCallPart(call) =>
      BlockViewsSnoc(w.content, CallBlock(call));
    case FunctionResponsePart(result) =>
      BlockViewsSnoc(w.content, ResultBlock(result, now));
  }

  /** The loop adds one `tool_use` block per call, in the order of the parts. */
  lemma {:induction false} WalkToolUses(acc: Acc, parts: seq<Part>, now: nat)
    ensures ToolUses(Walk(acc, parts, now).content) == ToolUses(acc.content) + CallBlocks(Calls(parts))
    decreases |parts|
  {
    if parts != [] {
      var init := parts[..|parts| - 1];
      var p := parts[|parts| - 1];
      var w := Walk(acc, init, now);
      WalkToolUses(acc, init, now);
      assert Walk(acc, parts, now) == PartStep(w, p, now);
      PartStepToolUses(w, p, now);
      var extra := if p.FunctionCallPart? then [p.call] else [];
      assert Calls(parts) == Calls(init) + extra;
      CallBlocksAppend(Calls(init), extra);
      assert CallBlocks(extra) == if p.FunctionCallPart? then [CallBlock(p.call)] else [];
    }
  }

  lemma PartStepToolUses(w: Acc, p: Part, now: nat)
    ensures ToolUses(PartStep(w, p, now).content)
         == ToolUses(w.content) + (if p.FunctionCallPart? then [CallBlock(p.call)] else [])
  {
    match p
    case TextPart(t) =>
      BlockViewsSnoc(w.content, ResponseText(t));
    case FunctionCallPart(call) =>
      BlockViewsSnoc(w.content, CallBlock(call));
    case FunctionResponsePart(result) =>
      BlockViewsSnoc(w.content, ResultBlock(result, now));
  }

  lemma CallBlocksAppend(x: seq<Call>, y: seq<Call>)
    ensures CallBlocks(x + y) == CallBlocks(x) + CallBlocks(y)
  {
  }

  lemma ResultBlocksAppend(x: seq<CallResult>, y: seq<CallResult>, now: nat)
    ensures ResultBlocks(x + y, now) == ResultBlocks(x, now) + ResultBlocks(y, now)
  {
  }

  /** The loop adds one `tool_result` block per function response, in the order of the parts. */
  lemma {:induction false} WalkToolResults(acc: Acc, parts: seq<Part>, now: nat)
    ensures ToolResults(Walk(acc, parts, now).content) == ToolResults(acc.content) + ResultBlocks(Results(parts), now)
    decreases |parts|
  {
    if parts != [] {
      var init := parts[..|parts| - 1];
      var p := parts[|parts| - 1];
      var w := Walk(acc, init, now);
      WalkToolResults(acc, init, now);
      assert Walk(acc, parts, now) == PartStep(w, p, now);
      PartStepToolResults(w, p, now);
      var extra := if p.FunctionResponsePart? then [p.result] else [];
      assert Results(parts) == Results(init) + extra;
      ResultBlocksAppend(Results(init), extra, now);
      assert ResultBlocks(extra, now) == if p.FunctionResponsePart? then [ResultBlock(p.result, now)] else [];
    }
  }

  lemma PartStepToolResults(w: Acc, p: Part, now: nat)
    ensures ToolResults(PartStep(w, p, now).content)
         == ToolResults(w.content) + (if p.FunctionResponsePart? then [ResultBlock(p.result, now)] else [])
  {
    match p
    case TextPart(t) =>
      BlockViewsSnoc(w.content, ResponseText(t));
    case FunctionCallPart(call) =>
      BlockViewsSnoc(w.content, CallBlock(call));
    case FunctionResponsePart(result) =>
      BlockViewsSnoc(w.content, ResultBlock(result, now));
  }

  /**
   * The stop reason: the finish reason's mapping when there is one, otherwise
   * `tool_use` exactly when some part is a function call.
   */
  lemma FormatStopReason(res: GeminiResponse, model: string, now: nat)
    requires |res.candidates| > 0
    ensures var cand := res.candidates[0];
      Format(res, model, now).value.stopReason
        == if cand.finishReason.Some? then FinishStop(cand.finishReason.value)
           else if HasCall(cand.parts) then ToolUse
           else EndTurn
  {
    var cand := res.candidates[0];
    WalkStop(Acc(Placeholder(cand.parts), EndTurn), cand.parts, now);
  }

  /** `tool_use` is reported exactly for a `FUNCTION_CALL` finish, or for a call part without a finish reason. */
  lemma ToolUseStop(res: GeminiResponse, model: string, now: nat)
    requires |res.candidates| > 0
    ensures var cand := res.candidates[0];
      (Format(res, model, now).value.stopReason == ToolUse
       <==> cand.finishReason == Some(FUNCTION_CALL) || (cand.finishReason.None? && HasCall(cand.parts)))
  {
    FormatStopReason(res, model, now);
  }

  /** A candidate without parts answers with exactly one empty text block. */
  lemma NoPartsPlaceholder(res: GeminiResponse, model: string, now: nat)
    requires |res.candidates| > 0 && res.candidates[0].parts == []
    ensures Format(res, model, now).value.content == [ResponseText("")]
  {
  }

  /**
   * The content: the non-empty texts in order (after the placeholder of a candidate
   * without parts), one `tool_use` per call and one `tool_result` per function
   * response, in order.
   */
  lemma FormatContent(res: GeminiResponse, model: string, now: nat)
    requires |res.candidates| > 0
    ensures var parts := res.candidates[0].parts;
      var c := Format(res, model, now).value.content;
      && BlockTexts(c) == (if parts == [] then [""] else PartTexts(parts))
      && ToolUses(c) == CallBlocks(Calls(parts))
      && ToolResults(c) == ResultBlocks(Results(parts), now)
  {
    var parts := res.candidates[0].parts;
    var acc := Acc(Placeholder(parts), EndTurn);
    WalkTexts(acc, parts, now);
    WalkToolUses(acc, parts, now);
    WalkToolResults(acc, parts, now);
    BlockViewsSnoc([], ResponseText(""));
    assert [] + [ResponseText("")] == [ResponseText("")];
  }

  /** Empty text parts produce nothing: a candidate whose parts are all empty texts answers with no content. */
  lemma {:induction false} EmptyTextsNoContent(acc: Acc, parts: seq<Part>, now: nat)
    requires forall i :: 0 <= i < |parts| ==> parts[i] == TextPart("")
    ensures Walk(acc, parts, now) == acc
    decreases |parts|
  {
    if parts != [] {
      EmptyTextsNoContent(acc, parts[..|parts| - 1], now);
    }
  }

  /** A generated `tool_result` or `tool_use` id carries the `toolu_` prefix; a given one is kept. */
  lemma GeneratedIds(call: Call, result: CallResult, now: nat)
    ensures NonEmpty(call.id) ==> ToolUseId(call, now) == call.id.value
    ensures !NonEmpty(call.id) ==> StartsWith(ToolUseId(call, now), "toolu_")
    ensures NonEmpty(result.id) ==> ToolResultId(result, now) == result.id.value
    ensures !NonEmpty(result.id) ==> StartsWith(ToolResultId(result, now), "toolu_")
  {
    if !NonEmpty(call.id) {
      assert ToolUseId(call, now)[..6] == "toolu_";
    }
    if !NonEmpty(result.id) {
      assert ToolResultId(result, now)[..6] == "toolu_";
    }
  }

  // ---------------------------------------------------------------------------
  // The whole content, block by block
  // ---------------------------------------------------------------------------

  /** The blocks one part contributes: none for an empty text, exactly one otherwise. */
  function PartBlocks(p: Part, now: nat): (r: seq<ResponseBlock>)
    ensures |r| <= 1
    ensures r == [] <==> p == TextPart("")
  {
    match p
    case TextPart(t) => if t != "" then [ResponseText(t)] else []
    case FunctionCallPart(call) => [CallBlock(call)]
    case FunctionResponsePart(result) => [ResultBlock(result, now)]
  }

  /** The blocks of each part, in the order of the parts. */
  function EachPartBlocks(parts: seq<Part>, now: nat): seq<seq<ResponseBlock>> {
    seq(|parts|, i requires 0 <= i < |parts| => PartBlocks(parts[i], now))
  }

  /** The concatenation of a sequence of sequences. */
  function Flatten<T>(xss: seq<seq<T>>): seq<T>
    decreases |xss|
  {
    if xss == [] then [] else Flatten(xss[..|xss| - 1]) + xss[|xss| - 1]
  }

  lemma PartStepBlocks(w: Acc, p: Part, now: nat)
    ensures PartStep(w, p, now).content == w.content + PartBlocks(p, now)
  {
    if p == TextPart("") {
      assert w.content + [] == w.content;
    }
  }

  /** The loop appends the blocks of each part in turn. */
  lemma {:induction false} WalkBlocks(acc: Acc, parts: seq<Part>, now: nat)
    ensures Walk(acc, parts, now).content == acc.content + Flatten(EachPartBlocks(parts, now))
    decreases |parts|
  {
    if parts != [] {
      var init := parts[..|parts| - 1];
      var p := parts[|parts| - 1];
      var w := Walk(acc, init, now);
      WalkBlocks(acc, init, now);
      PartStepBlocks(w, p, now);
      var each := EachPartBlocks(parts, now);
      assert each[..|each| - 1] == EachPartBlocks(init, now);
      assert Flatten(each) == Flatten(EachPartBlocks(init, now)) + PartBlocks(p, now);
      assert Walk(acc, parts, now).content == w.content + PartBlocks(p, now);
    }
  }

  /**
   * The content, interleaving and all: the placeholder of a candidate without parts,
   * then the blocks of each part in the order of the parts.
   */
  lemma FormatBlocks(res: GeminiResponse, model: string, now: nat)
    requires |res.candidates| > 0
    ensures var parts := res.candidates[0].parts;
      Format(res, model, now).value.content == Placeholder(parts) + Flatten(EachPartBlocks(parts, now))
  {
    var parts := res.candidates[0].parts;
    WalkBlocks(Acc(Placeholder(parts), EndTurn), parts, now);
  }

  // ---------------------------------------------------------------------------
  // The converter with generated `tool_use` ids
  // ---------------------------------------------------------------------------

  /** A `tool_use` block without an id is given `toolu_<now>`; every other block is left alone. */
  function FillId(b: ResponseBlock, now: nat): (r: ResponseBlock)
    ensures r.ResponseToolUse? <==> b.ResponseToolUse?
    ensures r.ResponseToolUse? ==> NonEmpty(r.id) && r.name == b.name && r.input == b.input
    ensures !b.ResponseToolUse? ==> r == b
  {
    if b.ResponseToolUse? then b.(id := Some(ToolId(b.id, now))) else b
  }

  function FillIds(bs: seq<ResponseBlock>, now: nat): (r: seq<ResponseBlock>)
    ensures |r| == |bs| && forall i :: 0 <= i < |bs| ==> r[i] == FillId(bs[i], now)
  {
    seq(|bs|, i requires 0 <= i < |bs| => FillId(bs[i], now))
  }

  /**
   * The converter as evidently intended: the same response, except that every
   * `tool_use` block carries an id, generated as for `tool_result` blocks.
   */
  function FormatCorrected(res: GeminiResponse, model: string, now: nat): (r: Result<ClaudeResponse>)
    ensures r.Failure? <==> |res.candidates| == 0
    ensures r.Success? ==> forall i :: 0 <= i < |r.value.content| && r.value.content[i].ResponseToolUse? ==>
                                         NonEmpty(r.value.content[i].id)
  {
    match Format(res, model, now)
    case Failure(e) => Failure(e)
    case Success(c) => Success(c.(content := FillIds(c.content, now)))
  }

  /** The block a call should become: its own id, or a generated one. */
  function CorrectedCallBlock(call: Call, now: nat): ResponseBlock {
    ResponseToolUse(Some(ToolUseId(call, now)), call.name, ToolInput(call.args))
  }

  /** Filling ids touches the `tool_use` blocks only, one for one. */
  lemma {:induction false} FillIdsViews(bs: seq<ResponseBlock>, now: nat)
    ensures BlockTexts(FillIds(bs, now)) == BlockTexts(bs)
    ensures ToolResults(FillIds(bs, now)) == ToolResults(bs)
    ensures ToolUses(FillIds(bs, now)) == FillIds(ToolUses(bs), now)
    decreases |bs|
  {
    if bs != [] {
      var init := bs[..|bs| - 1];
      var b := bs[|bs| - 1];
      FillIdsViews(init, now);
      assert FillIds(bs, now) == FillIds(init, now) + [FillId(b, now)];
      BlockViewsSnoc(FillIds(init, now), FillId(b, now));
      var u := ToolUses(init);
      if b.ResponseToolUse? {
        assert FillIds(u + [b], now) == FillIds(u, now) + [FillId(b, now)];
      } else {
        assert u + [] == u;
      }
    }
  }

  /**
   * The corrected response differs from the one as written only in the `tool_use`
   * blocks: one per call, in order, each with the call's own id or a generated one.
   */
  lemma CorrectedContent(res: GeminiResponse, model: string, now: nat)
    requires |res.candidates| > 0
    ensures var calls := Calls(res.candidates[0].parts);
      var c := Format(res, model, now).value;
      var f := FormatCorrected(res, model, now).value;
      && f.(content := c.content) == c
      && BlockTexts(f.content) == BlockTexts(c.content)
      && ToolResults(f.content) == ToolResults(c.content)
      && |ToolUses(f.content)| == |calls|
      && forall i :: 0 <= i < |calls| ==> ToolUses(f.content)[i] == CorrectedCallBlock(calls[i], now)
  {
    var calls := Calls(res.candidates[0].parts);
    var c := Format(res, model, now).value;
    FormatContent(res, model, now);
    FillIdsViews(c.content, now);
    forall i | 0 <= i < |calls| ensures FillId(CallBlock(calls[i]), now) == CorrectedCallBlock(calls[i], now) {
    }
  }

  /** As written, the call of the `do_something` example becomes a `tool_use` block with no id. */
  lemma MissingToolUseId(model: string, now: nat)
    ensures var args := JObject([Member("a", JNumber(1))]);
      var call := Call(Some("do_something"), Some(args), None);
      var res := GeminiResponse([Candidate([FunctionCallPart(call)], Some(FUNCTION_CALL), [])], None, None);
      Format(res, model, now).value.content == [ResponseToolUse(None, Some("do_something"), args)]
  {
  }

  /** Corrected, the same call becomes a `tool_use` block whose id starts with `toolu_`. */
  lemma GeneratedToolUseId(model: string, now: nat)
    ensures var args := JObject([Member("a", JNumber(1))]);
      var call := Call(Some("do_something"), Some(args), None);
      var res := GeminiResponse([Candidate([FunctionCallPart(call)], Some(FUNCTION_CALL), [])], None, None);
      var content := FormatCorrected(res, model, now).value.content;
      && |content| == 1 && content[0].ResponseToolUse? && content[0].id.Some?
      && StartsWith(content[0].id.value, "toolu_")
  {
    var args := JObject([Member("a", JNumber(1))]);
    var call := Call(Some("do_something"), Some(args), None);
    GeneratedIds(call, CallResult("", JNull, None), now);
  }
}
