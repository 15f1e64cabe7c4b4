/**
 * What the streaming translator promises about the content it forwards: text verbatim
 * and once, a tool block per distinct call id, argument deltas that rebuild the
 * arguments, de-duplicated sources, last finish reason and latest non-zero usage,
 * and lines that are not chunks having no effect at all.
 */
module StreamProperties {
  import opened Wrappers
  import opened Strings
  import opened Json
  import opened Types
  import opened StreamSpec
  import StreamLifecycle

  // ===========================================================================
  // Views of an event sequence
  // ===========================================================================

  /** The `text_delta` texts, in order. */
  function TextDeltas(evs: seq<Event>): seq<string>
    decreases |evs|
  {
    if evs == [] then []
    else
      var e := evs[|evs| - 1];
      TextDeltas(evs[..|evs| - 1]) + TextPiece(e)
  }

  function TextPiece(e: Event): seq<string> {
    if e.ContentBlockDelta? && e.delta.TextDelta? then [e.delta.text] else []
  }

  /** The `input_json_delta` fragments, concatenated. */
  function JsonDeltas(evs: seq<Event>): string
    decreases |evs|
  {
    if evs == [] then []
    else
      var e := evs[|evs| - 1];
      JsonDeltas(evs[..|evs| - 1]) + JsonPiece(e)
  }

  function JsonPiece(e: Event): string {
    if e.ContentBlockDelta? && e.delta.InputJsonDelta? then e.delta.partialJson else []
  }

  /** The kinds of the blocks started, in order. */
  function Starts(evs: seq<Event>): seq<BlockKind>
    decreases |evs|
  {
    if evs == [] then []
    else
      var e := evs[|evs| - 1];
      Starts(evs[..|evs| - 1]) + StartPiece(e)
  }

  function StartPiece(e: Event): seq<BlockKind> {
    if e.ContentBlockStart? then [e.block] else []
  }

  lemma {:induction false} TextDeltasAppend(x: seq<Event>, y: seq<Event>)
    ensures TextDeltas(x + y) == TextDeltas(x) + TextDeltas(y)
    decreases |y|
  {
    if y == [] {
      assert x + y == x;
    } else {
      var y' := y[..|y| - 1];
      var e := y[|y| - 1];
      SnocSplit(x, y);
      TextDeltasAppend(x, y');
      assert TextDeltas(x + y) == TextDeltas(x + y') + TextPiece(e);
      AppendAssoc(TextDeltas(x), TextDeltas(y'), TextPiece(e));
    }
  }

  lemma {:induction false} JsonDeltasAppend(x: seq<Event>, y: seq<Event>)
    ensures JsonDeltas(x + y) == JsonDeltas(x) + JsonDeltas(y)
    decreases |y|
  {
    if y == [] {
      assert x + y == x;
    } else {
      var y' := y[..|y| - 1];
      var e := y[|y| - 1];
      SnocSplit(x, y);
      JsonDeltasAppend(x, y');
      assert JsonDeltas(x + y) == JsonDeltas(x + y') + JsonPiece(e);
      AppendAssoc(JsonDeltas(x), JsonDeltas(y'), JsonPiece(e));
    }
  }

  lemma {:induction false} StartsAppend(x: seq<Event>, y: seq<Event>)
    ensures Starts(x + y) == Starts(x) + Starts(y)
    decreases |y|
  {
    if y == [] {
      assert x + y == x;
    } else {
      var y' := y[..|y| - 1];
      var e := y[|y| - 1];
      SnocSplit(x, y);
      StartsAppend(x, y');
      assert Starts(x + y) == Starts(x + y') + StartPiece(e);
      AppendAssoc(Starts(x), Starts(y'), StartPiece(e));
    }
  }

  /** Each view of a concatenation is the concatenation of the views. */
  lemma ViewsAppend(x: seq<Event>, y: seq<Event>)
    ensures TextDeltas(x + y) == TextDeltas(x) + TextDeltas(y)
    ensures JsonDeltas(x + y) == JsonDeltas(x) + JsonDeltas(y)
    ensures Starts(x + y) == Starts(x) + Starts(y)
  {
    TextDeltasAppend(x, y);
    JsonDeltasAppend(x, y);
    StartsAppend(x, y);
  }

  lemma ViewsOne(e: Event)
    ensures TextDeltas([e]) == if e.ContentBlockDelta? && e.delta.TextDelta? then [e.delta.text] else []
    ensures JsonDeltas([e]) == if e.ContentBlockDelta? && e.delta.InputJsonDelta? then e.delta.partialJson else []
    ensures Starts([e]) == if e.ContentBlockStart? then [e.block] else []
  {
    assert [e][..0] == [];
  }

  lemma Views3(x: seq<Event>, y: seq<Event>, z: seq<Event>)
    ensures TextDeltas(x + y + z) == TextDeltas(x) + TextDeltas(y) + TextDeltas(z)
    ensures JsonDeltas(x + y + z) == JsonDeltas(x) + JsonDeltas(y) + JsonDeltas(z)
    ensures Starts(x + y + z) == Starts(x) + Starts(y) + Starts(z)
  {
    ViewsAppend(x + y, z);
    ViewsAppend(x, y);
  }

  // ===========================================================================
  // Parts
  // ===========================================================================

  /**
   * A text part is forwarded verbatim, once, and only when non-empty; a text block is
   * started only when none is open, and an open tool block is closed first.
   */
  lemma TextStepForwards(s: State, text: string)
    requires Inv(s)
    ensures var st := TextStep(s, text);
      && TextDeltas(st.events) == (if text != "" then [text] else [])
      && JsonDeltas(st.events) == ""
      && Starts(st.events) == (if s.textOpen then [] else [TextKind])
      && st.state.index == (if s.toolOpen then s.index + 1 else s.index)
      && st.state.textOpen && !st.state.toolOpen
  {
    TextStepTexts(s, text);
    TextStepStarts(s, text);
  }

  lemma TextStepTexts(s: State, text: string)
    ensures var st := TextStep(s, text);
      TextDeltas(st.events) == (if text != "" then [text] else []) && JsonDeltas(st.events) == ""
  {
    var a := CloseTool(s);
    var b := OpenText(a.state);
    var d := if text != "" then [ContentBlockDelta(b.state.index, TextDelta(text))] else [];
    CloseViews(s);
    OpenTextViews(a.state);
    TextDeltaViews(b.state.index, text);
    ViewsAppend(a.events + b.events, d);
    ViewsAppend(a.events, b.events);
  }

  lemma TextStepStarts(s: State, text: string)
    ensures Starts(TextStep(s, text).events) == (if s.textOpen then [] else [TextKind])
  {
    var a := CloseTool(s);
    var b := OpenText(a.state);
    var d := if text != "" then [ContentBlockDelta(b.state.index, TextDelta(text))] else [];
    CloseViews(s);
    OpenTextViews(a.state);
    TextDeltaViews(b.state.index, text);
    ViewsAppend(a.events + b.events, d);
    ViewsAppend(a.events, b.events);
    EmptyAround(Starts(a.events), Starts(b.events), Starts(d));
  }

  lemma OpenTextViews(s: State)
    ensures var st := OpenText(s);
      && TextDeltas(st.events) == [] && JsonDeltas(st.events) == ""
      && Starts(st.events) == (if s.textOpen then [] else [TextKind])
  {
    ViewsOne(ContentBlockStart(s.index, TextKind));
  }

  lemma TextDeltaViews(index: nat, text: string)
    ensures var d := if text != "" then [ContentBlockDelta(index, TextDelta(text))] else [];
      && TextDeltas(d) == (if text != "" then [text] else [])
      && JsonDeltas(d) == "" && Starts(d) == []
  {
    ViewsOne(ContentBlockDelta(index, TextDelta(text)));
  }

  lemma CloseViews(s: State)
    ensures var st := CloseText(s); TextDeltas(st.events) == [] && JsonDeltas(st.events) == "" && Starts(st.events) == []
    ensures var st := CloseTool(s); TextDeltas(st.events) == [] && JsonDeltas(st.events) == "" && Starts(st.events) == []
  {
    ViewsOne(ContentBlockStop(s.index));
  }

  lemma OpenToolViews(s: State, id: string, name: string)
    ensures var st := OpenTool(s, id, name);
      TextDeltas(st.events) == [] && JsonDeltas(st.events) == "" && Starts(st.events) == [ToolUseKind(id, name)]
  {
    var pre := if s.toolOpen then [ContentBlockStop(s.index)] else [];
    var start := ContentBlockStart(if s.toolOpen then s.index + 1 else s.index, ToolUseKind(id, name));
    assert OpenTool(s, id, name).events == pre + [start];
    ViewsAppend(pre, [start]);
    ViewsOne(ContentBlockStop(s.index));
    ViewsOne(start);
  }

  lemma ArgsStepViews(s: State, id: string, args: Option<Json>)
    ensures var st := ArgsStep(s, id, args); TextDeltas(st.events) == [] && Starts(st.events) == []
  {
    var st := ArgsStep(s, id, args);
    if st.events != [] { ViewsOne(st.events[0]); }
  }

  lemma CallStepViews(s: State, call: Call, newId: nat -> string)
    requires Inv(s)
    ensures var st := CallStep(s, call, newId);
      var id := CallId(s, call, newId);
      && Starts(st.events) == (if Some(id) != s.toolId then [ToolUseKind(id, call.name.GetOr(""))] else [])
      && TextDeltas(st.events) == []
  {
    CallPiecesViews(s, call, newId);
    CallStepPieces(s, call, newId);
  }

  /** The views of the three pieces `CallStep` is made of, taken together. */
  lemma CallPiecesViews(s: State, call: Call, newId: nat -> string)
    ensures var a := CloseText(s);
      var id := CallId(a.state, call, newId);
      var b := SwitchTool(CountId(a.state, call), id, call.name.GetOr(""));
      var c := ArgsStep(b.state, id, call.args);
      && id == CallId(s, call, newId)
      && Starts(a.events + b.events + c.events) == (if Some(id) != s.toolId then [ToolUseKind(id, call.name.GetOr(""))] else [])
      && TextDeltas(a.events + b.events + c.events) == []
  {
    var a := CloseText(s);
    var id := CallId(a.state, call, newId);
    var s1 := CountId(a.state, call);
    var b := SwitchTool(s1, id, call.name.GetOr(""));
    var c := ArgsStep(b.state, id, call.args);
    CloseTextIds(s, call, newId);
    CloseViews(s);
    SwitchToolViews(s1, id, call.name.GetOr(""));
    ArgsStepViews(b.state, id, call.args);
    ViewsAround(a.events, b.events, c.events);
  }

  /** Closing a text block changes neither the call's id nor the current tool id. */
  lemma CloseTextIds(s: State, call: Call, newId: nat -> string)
    ensures CallId(CloseText(s).state, call, newId) == CallId(s, call, newId)
    ensures CountId(CloseText(s).state, call).toolId == s.toolId
  {
  }

  /** Events with no text and no starts around `y` leave its views as they are. */
  lemma ViewsAround(x: seq<Event>, y: seq<Event>, z: seq<Event>)
    requires TextDeltas(x) == [] && Starts(x) == [] && TextDeltas(z) == [] && Starts(z) == []
    ensures Starts(x + y + z) == Starts(y) && TextDeltas(x + y + z) == TextDeltas(y)
  {
    Views3(x, y, z);
  }

  lemma SwitchToolViews(s: State, id: string, name: string)
    ensures var st := SwitchTool(s, id, name);
      && TextDeltas(st.events) == []
      && Starts(st.events) == (if Some(id) != s.toolId then [ToolUseKind(id, name)] else [])
  {
    if Some(id) != s.toolId { OpenToolViews(s, id, name); }
  }

  /**
   * A function-call part starts a tool block exactly when its id differs from the current
   * tool id, carries no text, makes its id current, and uses up a generated id exactly
   * when it has none of its own.
   */
  lemma CallStepSwitches(s: State, call: Call, newId: nat -> string)
    requires Inv(s)
    ensures var st := CallStep(s, call, newId);
      var id := CallId(s, call, newId);
      && Starts(st.events) == (if Some(id) != s.toolId then [ToolUseKind(id, call.name.GetOr(""))] else [])
      && TextDeltas(st.events) == []
      && st.state.toolOpen && !st.state.textOpen
      && st.state.toolId == Some(id)
      && st.state.generated == (if HasId(call) then s.generated else s.generated + 1)
  {
    StreamLifecycle.CallStepSound(s, call, newId);
    CallStepViews(s, call, newId);
  }

  /** Deltas sent after `last` extend it to the new arguments text when it grew from `last`. */
  lemma ArgsDeltaExtends(last: string, argsJson: string)
    requires StartsWith(argsJson, last)
    ensures match ArgsDelta(last, argsJson)
            case Some(d) => last + d == argsJson
            case None => argsJson == last
  {
    if ArgsDelta(last, argsJson).Some? && argsJson == last {
      assert last == "";
    }
  }

  /** A call part for `id` whose arguments are present and truthy. */
  predicate CallWithArgs(p: Part, id: string) {
    p.FunctionCallPart? && p.call.id == Some(id) && p.call.args.Some? && Truthy(p.call.args.value)
  }

  /** The arguments text of a call part (empty for any other part). */
  function ArgsText(p: Part): string {
    if p.FunctionCallPart? && p.call.args.Some? then Stringify(p.call.args.value) else ""
  }

  function CallName(p: Part): string {
    if p.FunctionCallPart? then p.call.name.GetOr("") else ""
  }

  /** Each repetition of the call carries arguments that extend the previous ones. */
  predicate Growing(parts: seq<Part>) {
    forall i :: 0 < i < |parts| ==> StartsWith(ArgsText(parts[i]), ArgsText(parts[i - 1]))
  }

  /** The first part of a call with a new id opens its tool block and sends its whole arguments text. */
  lemma FirstCallPart(s: State, p: Part, id: string, newId: nat -> string)
    requires Inv(s) && id != "" && s.toolId != Some(id) && CallWithArgs(p, id)
    ensures var st := CallStep(s, p.call, newId);
      && JsonDeltas(st.events) == ArgsText(p)
      && Starts(st.events) == [ToolUseKind(id, CallName(p))]
      && Inv(st.state) && st.state.toolId == Some(id)
      && id in st.state.lastArgs && st.state.lastArgs[id] == ArgsText(p)
  {
    FirstCallPieces(s, p, id, newId);
    CallStepPieces(s, p.call, newId);
    StreamLifecycle.CallStepSound(s, p.call, newId);
  }

  /** The pieces of `CallStep` for the first part of a call with a new id. */
  lemma FirstCallPieces(s: State, p: Part, id: string, newId: nat -> string)
    requires Inv(s) && id != "" && s.toolId != Some(id) && CallWithArgs(p, id)
    ensures var a := CloseText(s);
      var b := SwitchTool(CountId(a.state, p.call), id, p.call.name.GetOr(""));
      var c := ArgsStep(b.state, id, p.call.args);
      && CallId(a.state, p.call, newId) == id
      && JsonDeltas(a.events + b.events + c.events) == ArgsText(p)
      && Starts(a.events + b.events + c.events) == [ToolUseKind(id, CallName(p))]
      && c.state.toolId == Some(id) && id in c.state.lastArgs && c.state.lastArgs[id] == ArgsText(p)
  {
    var a := CloseText(s);
    var s1 := CountId(a.state, p.call);
    assert s1.toolId == s.toolId;
    var b := OpenTool(s1, id, CallName(p));
    assert SwitchTool(s1, id, p.call.name.GetOr("")) == b;
    var c := ArgsStep(b.state, id, p.call.args);
    FirstArgsViews(b.state, id, p);
    CloseViews(s);
    OpenToolViews(s1, id, CallName(p));
    Views3(a.events, b.events, c.events);
  }

  /** The first arguments of a call are sent whole. */
  lemma FirstArgsViews(t: State, id: string, p: Part)
    requires id in t.lastArgs && t.lastArgs[id] == "" && CallWithArgs(p, id)
    ensures var c := ArgsStep(t, id, p.call.args);
      && JsonDeltas(c.events) == ArgsText(p) && Starts(c.events) == []
      && c.state.toolId == t.toolId && id in c.state.lastArgs && c.state.lastArgs[id] == ArgsText(p)
  {
    var c := ArgsStep(t, id, p.call.args);
    assert ArgsDelta("", ArgsText(p)) == Some(ArgsText(p));
    assert c.events == [ContentBlockDelta(t.index, InputJsonDelta(ArgsText(p)))];
    ViewsOne(c.events[0]);
  }

  /** A later part of the same call sends only what its arguments add to what was sent. */
  lemma NextCallPart(s: State, p: Part, id: string, newId: nat -> string)
    requires Inv(s) && id != "" && s.toolId == Some(id) && id in s.lastArgs && CallWithArgs(p, id)
    requires StartsWith(ArgsText(p), s.lastArgs[id])
    ensures var st := CallStep(s, p.call, newId);
      && s.lastArgs[id] + JsonDeltas(st.events) == ArgsText(p)
      && Starts(st.events) == []
      && Inv(st.state) && st.state.toolId == Some(id)
      && id in st.state.lastArgs && st.state.lastArgs[id] == ArgsText(p)
  {
    var prev := s.lastArgs[id];
    assert CloseText(s) == Step(s, []);
    assert CallId(s, p.call, newId) == id;
    var c := ArgsStep(s, id, p.call.args);
    assert CallStep(s, p.call, newId) == Step(c.state, [] + [] + c.events);
    assert [] + [] + c.events == c.events;
    StreamLifecycle.CallStepSound(s, p.call, newId);
    ArgsDeltaExtends(prev, ArgsText(p));
    match ArgsDelta(prev, ArgsText(p))
    case Some(d) =>
      ViewsOne(ContentBlockDelta(s.index, InputJsonDelta(d)));
    case None =>
  }

  /**
   * `st` has opened a single tool block `id` named `name`, its `input_json_delta`
   * fragments concatenate to `text`, and `text` is what is remembered as sent.
   */
  predicate Rebuilt(st: Step, id: string, name: string, text: string) {
    && JsonDeltas(st.events) == text
    && Starts(st.events) == [ToolUseKind(id, name)]
    && Inv(st.state) && st.state.toolId == Some(id)
    && id in st.state.lastArgs && st.state.lastArgs[id] == text
  }

  /**
   * When one call is streamed as repeated parts whose arguments only grow, a single
   * tool block is opened and the concatenated `input_json_delta` fragments are exactly
   * the final arguments text.
   */
  lemma {:induction false} StreamedArgsRebuild(s: State, parts: seq<Part>, id: string, newId: nat -> string)
    requires Inv(s) && id != "" && s.toolId != Some(id) && |parts| > 0
    requires forall i :: 0 <= i < |parts| ==> CallWithArgs(parts[i], id)
    requires Growing(parts)
    ensures Rebuilt(PartsStep(s, parts, newId), id, CallName(parts[0]), ArgsText(parts[|parts| - 1]))
    decreases |parts|
  {
    var init := parts[..|parts| - 1];
    var p := parts[|parts| - 1];
    assert parts == init + [p];
    assert CallWithArgs(p, id);
    if init == [] {
      PartsStepSnoc(s, init, p, newId);
      RebuildFirst(s, p, id, newId);
    } else {
      StreamedArgsRebuild(s, init, id, newId);
      assert init[0] == parts[0];
      assert StartsWith(ArgsText(p), ArgsText(init[|init| - 1]));
      RebuildSnoc(s, init, p, id, CallName(init[0]), ArgsText(init[|init| - 1]), newId);
    }
  }

  lemma RebuildSnoc(s: State, init: seq<Part>, p: Part, id: string, name: string, prev: string,
                    newId: nat -> string)
    requires id != "" && Rebuilt(PartsStep(s, init, newId), id, name, prev)
    requires CallWithArgs(p, id) && StartsWith(ArgsText(p), prev)
    ensures Rebuilt(PartsStep(s, init + [p], newId), id, name, ArgsText(p))
  {
    PartsStepSnoc(s, init, p, newId);
    RebuildNext(PartsStep(s, init, newId), p, id, name, prev, newId);
  }

  lemma RebuildFirst(s: State, p: Part, id: string, newId: nat -> string)
    requires Inv(s) && id != "" && s.toolId != Some(id) && CallWithArgs(p, id)
    ensures var st := PartStep(s, p, newId);
      Rebuilt(Step(st.state, PartsStep(s, [], newId).events + st.events), id, CallName(p), ArgsText(p))
  {
    FirstCallPart(s, p, id, newId);
    var st := PartStep(s, p, newId);
    assert PartsStep(s, [], newId).events + st.events == st.events;
  }

  lemma RebuildNext(a: Step, p: Part, id: string, name: string, prev: string, newId: nat -> string)
    requires id != "" && Rebuilt(a, id, name, prev) && CallWithArgs(p, id) && StartsWith(ArgsText(p), prev)
    ensures var st := PartStep(a.state, p, newId);
      Rebuilt(Step(st.state, a.events + st.events), id, name, ArgsText(p))
  {
    NextCallPart(a.state, p, id, newId);
    var st := PartStep(a.state, p, newId);
    ViewsAppend(a.events, st.events);
  }

  // ===========================================================================
  // Chunks: usage, finish reason and sources
  // ===========================================================================

  /** Parts only touch the block state: usage, finish reason and sources stay as they were. */
  lemma {:induction false} PartsStepKeeps(s: State, parts: seq<Part>, newId: nat -> string)
    ensures var t := PartsStep(s, parts, newId).state;
      && t.inputTokens == s.inputTokens && t.outputTokens == s.outputTokens
      && t.lastFinish == s.lastFinish && t.sources == s.sources
    decreases |parts|
  {
    if parts != [] {
      PartsStepKeeps(s, parts[..|parts| - 1], newId);
      PartStepKeeps(PartsStep(s, parts[..|parts| - 1], newId).state, parts[|parts| - 1], newId);
    }
  }

  lemma PartStepKeeps(s: State, p: Part, newId: nat -> string)
    ensures var t := PartStep(s, p, newId).state;
      && t.inputTokens == s.inputTokens && t.outputTokens == s.outputTokens
      && t.lastFinish == s.lastFinish && t.sources == s.sources
  {
    match p
    case TextPart(_) =>
    case FunctionCallPart(call) =>
      CallPiecesKeep(s, call, newId);
      CallStepPieces(s, call, newId);
    case FunctionResponsePart(_) =>
  }

  lemma CallPiecesKeep(s: State, call: Call, newId: nat -> string)
    ensures var a := CloseText(s);
      var id := CallId(a.state, call, newId);
      var b := SwitchTool(CountId(a.state, call), id, call.name.GetOr(""));
      var t := ArgsStep(b.state, id, call.args).state;
      && t.inputTokens == s.inputTokens && t.outputTokens == s.outputTokens
      && t.lastFinish == s.lastFinish && t.sources == s.sources
  {
    var a := CloseText(s);
    var id := CallId(a.state, call, newId);
    var b := SwitchTool(CountId(a.state, call), id, call.name.GetOr(""));
    SwitchToolTotals(CountId(a.state, call), id, call.name.GetOr(""));
    ArgsStepTotals(b.state, id, call.args);
  }

  lemma SwitchToolTotals(s: State, id: string, name: string)
    ensures SameTotals(s, SwitchTool(s, id, name).state)
  {
    if Some(id) != s.toolId {
      assert SameTotals(s, StopTool(s).state);
    }
  }

  lemma ArgsStepTotals(s: State, id: string, args: Option<Json>)
    ensures SameTotals(s, ArgsStep(s, id, args).state)
  {
  }

  predicate SameTotals(s: State, t: State) {
    t.inputTokens == s.inputTokens && t.outputTokens == s.outputTokens
    && t.lastFinish == s.lastFinish && t.sources == s.sources
  }

  /**
   * One chunk: a non-zero usage count replaces the running total, a finish reason on the
   * first candidate replaces the last one, and its grounding sources are added.
   */
  lemma ChunkStepTotals(s: State, c: StreamChunk, newId: nat -> string)
    ensures var t := ChunkStep(s, c, newId).state;
      && t.inputTokens == (if c.usage.Some? && c.usage.value.promptTokenCount != 0
                           then c.usage.value.promptTokenCount else s.inputTokens)
      && t.outputTokens == (if c.usage.Some? && c.usage.value.candidatesTokenCount != 0
                            then c.usage.value.candidatesTokenCount else s.outputTokens)
      && t.lastFinish == (if |c.candidates| > 0 && c.candidates[0].finishReason.Some?
                          then c.candidates[0].finishReason else s.lastFinish)
      && t.sources == (if |c.candidates| > 0 then AddSources(s.sources, c.candidates[0].grounding)
                       else s.sources)
  {
    if |c.candidates| > 0 {
      var s1 := UsageStep(s, c.usage);
      var cand := c.candidates[0];
      var s2 := if cand.finishReason.Some? then s1.(lastFinish := cand.finishReason) else s1;
      var s3 := s2.(sources := AddSources(s2.sources, cand.grounding));
      PartsStepKeeps(s3, cand.parts, newId);
    }
  }

  predicate Carries(c: StreamChunk) {
    |c.candidates| > 0 && c.candidates[0].finishReason.Some?
  }

  predicate CountsPrompt(c: StreamChunk) {
    c.usage.Some? && c.usage.value.promptTokenCount != 0
  }

  predicate CountsOutput(c: StreamChunk) {
    c.usage.Some? && c.usage.value.candidatesTokenCount != 0
  }

  /** The finish reason after a run of chunks is the last one's, if it carries one. */
  lemma ChunksSnocFinish(s: State, cs: seq<StreamChunk>, newId: nat -> string)
    requires cs != []
    ensures var c := cs[|cs| - 1];
      ChunksStep(s, cs, newId).state.lastFinish
      == if Carries(c) then c.candidates[0].finishReason else ChunksStep(s, cs[..|cs| - 1], newId).state.lastFinish
  {
    ChunkStepTotals(ChunksStep(s, cs[..|cs| - 1], newId).state, cs[|cs| - 1], newId);
  }

  /** The prompt total after a run of chunks is the last one's count, if non-zero. */
  lemma ChunksSnocPrompt(s: State, cs: seq<StreamChunk>, newId: nat -> string)
    requires cs != []
    ensures var c := cs[|cs| - 1];
      ChunksStep(s, cs, newId).state.inputTokens
      == if CountsPrompt(c) then c.usage.value.promptTokenCount else ChunksStep(s, cs[..|cs| - 1], newId).state.inputTokens
  {
    ChunkStepTotals(ChunksStep(s, cs[..|cs| - 1], newId).state, cs[|cs| - 1], newId);
  }

  /** The output total after a run of chunks is the last one's count, if non-zero. */
  lemma ChunksSnocOutput(s: State, cs: seq<StreamChunk>, newId: nat -> string)
    requires cs != []
    ensures var c := cs[|cs| - 1];
      ChunksStep(s, cs, newId).state.outputTokens
      == if CountsOutput(c) then c.usage.value.candidatesTokenCount else ChunksStep(s, cs[..|cs| - 1], newId).state.outputTokens
  {
    ChunkStepTotals(ChunksStep(s, cs[..|cs| - 1], newId).state, cs[|cs| - 1], newId);
  }

  /** The last present value of `xs`, or `prev` when none is present. */
  function LastSome<T>(xs: seq<Option<T>>, prev: Option<T>): Option<T>
    decreases |xs|
  {
    if xs == [] then prev
    else if xs[|xs| - 1].Some? then xs[|xs| - 1]
    else LastSome(xs[..|xs| - 1], prev)
  }

  /** `LastSome` is the value at the last present position, or `prev` when none is present. */
  lemma LastSomeIs<T>(xs: seq<Option<T>>, prev: Option<T>)
    ensures (forall j :: 0 <= j < |xs| ==> xs[j].None?) ==> LastSome(xs, prev) == prev
    ensures forall k :: 0 <= k < |xs| && xs[k].Some? && (forall j :: k < j < |xs| ==> xs[j].None?) ==>
      LastSome(xs, prev) == xs[k]
  {
    if forall j :: 0 <= j < |xs| ==> xs[j].None? {
      LastSomeNone(xs, prev);
    }
    forall k | 0 <= k < |xs| && xs[k].Some? && (forall j :: k < j < |xs| ==> xs[j].None?)
      ensures LastSome(xs, prev) == xs[k]
    {
      LastSomeAt(xs, prev, k);
    }
  }

  lemma {:induction false} LastSomeNone<T>(xs: seq<Option<T>>, prev: Option<T>)
    requires forall j :: 0 <= j < |xs| ==> xs[j].None?
    ensures LastSome(xs, prev) == prev
    decreases |xs|
  {
    if xs != [] {
      var init := xs[..|xs| - 1];
      assert forall j :: 0 <= j < |init| ==> init[j] == xs[j];
      LastSomeNone(init, prev);
    }
  }

  lemma {:induction false} LastSomeAt<T>(xs: seq<Option<T>>, prev: Option<T>, k: nat)
    requires k < |xs| && xs[k].Some? && forall j :: k < j < |xs| ==> xs[j].None?
    ensures LastSome(xs, prev) == xs[k]
    decreases |xs|
  {
    if k < |xs| - 1 {
      var init := xs[..|xs| - 1];
      assert xs[|xs| - 1].None?;
      assert forall j :: 0 <= j < |init| ==> init[j] == xs[j];
      LastSomeAt(init, prev, k);
    }
  }

  /** The finish reason each chunk carries, if any. */
  function Finishes(cs: seq<StreamChunk>): (r: seq<Option<FinishReason>>)
    ensures |r| == |cs|
    ensures forall i :: 0 <= i < |cs| ==> (r[i].Some? <==> Carries(cs[i]))
    ensures forall i :: 0 <= i < |cs| && Carries(cs[i]) ==> r[i] == cs[i].candidates[0].finishReason
  {
    seq(|cs|, i requires 0 <= i < |cs| => if Carries(cs[i]) then cs[i].candidates[0].finishReason else None)
  }

  /** The non-zero prompt token count each chunk reports, if any. */
  function PromptCounts(cs: seq<StreamChunk>): (r: seq<Option<nat>>)
    ensures |r| == |cs|
    ensures forall i :: 0 <= i < |cs| ==> (r[i].Some? <==> CountsPrompt(cs[i]))
    ensures forall i :: 0 <= i < |cs| && CountsPrompt(cs[i]) ==> r[i] == Some(cs[i].usage.value.promptTokenCount)
  {
    seq(|cs|, i requires 0 <= i < |cs| => if CountsPrompt(cs[i]) then Some(cs[i].usage.value.promptTokenCount) else None)
  }

  /** The non-zero output token count each chunk reports, if any. */
  function OutputCounts(cs: seq<StreamChunk>): (r: seq<Option<nat>>)
    ensures |r| == |cs|
    ensures forall i :: 0 <= i < |cs| ==> (r[i].Some? <==> CountsOutput(cs[i]))
    ensures forall i :: 0 <= i < |cs| && CountsOutput(cs[i]) ==> r[i] == Some(cs[i].usage.value.candidatesTokenCount)
  {
    seq(|cs|, i requires 0 <= i < |cs| => if CountsOutput(cs[i]) then Some(cs[i].usage.value.candidatesTokenCount) else None)
  }

  /** The finish reason after a run of chunks is the last one reported in it. */
  lemma {:induction false} ChunksFinish(s: State, cs: seq<StreamChunk>, newId: nat -> string)
    ensures ChunksStep(s, cs, newId).state.lastFinish == LastSome(Finishes(cs), s.lastFinish)
    decreases |cs|
  {
    if cs != [] {
      var init := cs[..|cs| - 1];
      ChunksFinish(s, init, newId);
      ChunksSnocFinish(s, cs, newId);
      assert Finishes(cs)[..|cs| - 1] == Finishes(init);
    }
  }

  /** The prompt total after a run of chunks is the last non-zero count reported in it. */
  lemma {:induction false} ChunksPrompt(s: State, cs: seq<StreamChunk>, newId: nat -> string)
    ensures Some(ChunksStep(s, cs, newId).state.inputTokens) == LastSome(PromptCounts(cs), Some(s.inputTokens))
    decreases |cs|
  {
    if cs != [] {
      var init := cs[..|cs| - 1];
      ChunksPrompt(s, init, newId);
      ChunksSnocPrompt(s, cs, newId);
      assert PromptCounts(cs)[..|cs| - 1] == PromptCounts(init);
    }
  }

  /** The output total after a run of chunks is the last non-zero count reported in it. */
  lemma {:induction false} ChunksOutput(s: State, cs: seq<StreamChunk>, newId: nat -> string)
    ensures Some(ChunksStep(s, cs, newId).state.outputTokens) == LastSome(OutputCounts(cs), Some(s.outputTokens))
    decreases |cs|
  {
    if cs != [] {
      var init := cs[..|cs| - 1];
      ChunksOutput(s, init, newId);
      ChunksSnocOutput(s, cs, newId);
      assert OutputCounts(cs)[..|cs| - 1] == OutputCounts(init);
    }
  }

  /**
   * After a run of chunks the finish reason is the one of the last chunk that carries one;
   * without any, the reason held before.
   */
  lemma LastFinishWins(s: State, cs: seq<StreamChunk>, newId: nat -> string)
    ensures (forall j :: 0 <= j < |cs| ==> !Carries(cs[j])) ==>
      ChunksStep(s, cs, newId).state.lastFinish == s.lastFinish
    ensures forall k :: 0 <= k < |cs| && Carries(cs[k]) && (forall j :: k < j < |cs| ==> !Carries(cs[j])) ==>
      ChunksStep(s, cs, newId).state.lastFinish == cs[k].candidates[0].finishReason
  {
    ChunksFinish(s, cs, newId);
    LastSomeIs(Finishes(cs), s.lastFinish);
  }

  /**
   * After a run of chunks each token total is the last non-zero count reported for it;
   * without any, the total held before.
   */
  lemma LatestUsageWins(s: State, cs: seq<StreamChunk>, newId: nat -> string)
    ensures (forall j :: 0 <= j < |cs| ==> !CountsPrompt(cs[j])) ==>
      ChunksStep(s, cs, newId).state.inputTokens == s.inputTokens
    ensures forall k :: 0 <= k < |cs| && CountsPrompt(cs[k]) && (forall j :: k < j < |cs| ==> !CountsPrompt(cs[j])) ==>
      ChunksStep(s, cs, newId).state.inputTokens == cs[k].usage.value.promptTokenCount
    ensures (forall j :: 0 <= j < |cs| ==> !CountsOutput(cs[j])) ==>
      ChunksStep(s, cs, newId).state.outputTokens == s.outputTokens
    ensures forall k :: 0 <= k < |cs| && CountsOutput(cs[k]) && (forall j :: k < j < |cs| ==> !CountsOutput(cs[j])) ==>
      ChunksStep(s, cs, newId).state.outputTokens == cs[k].usage.value.candidatesTokenCount
  {
    ChunksPrompt(s, cs, newId);
    ChunksOutput(s, cs, newId);
    LastSomeIs(PromptCounts(cs), Some(s.inputTokens));
    LastSomeIs(OutputCounts(cs), Some(s.outputTokens));
  }

  predicate DistinctUrls(sources: seq<Source>) {
    forall i, j :: 0 <= i < j < |sources| ==> sources[i].url != sources[j].url
  }

  predicate WebUrl(gc: GroundingChunk, url: string) {
    gc.web.Some? && gc.web.value.uri == url
  }

  lemma AddSourceKeeps(sources: seq<Source>, gc: GroundingChunk)
    requires DistinctUrls(sources)
    ensures var r := AddSource(sources, gc);
      && DistinctUrls(r) && |sources| <= |r| && r[..|sources|] == sources
      && forall url :: HasUrl(r, url) <==> HasUrl(sources, url) || WebUrl(gc, url)
  {
    var r := AddSource(sources, gc);
    forall url | HasUrl(r, url)
      ensures HasUrl(sources, url) || WebUrl(gc, url)
    {
      var i :| 0 <= i < |r| && r[i].url == url;
      if i >= |sources| { assert r[i] == Source(gc.web.value.title, gc.web.value.uri); }
    }
    forall url | WebUrl(gc, url)
      ensures HasUrl(r, url)
    {
      if !HasUrl(sources, url) { assert r[|sources|].url == url; }
    }
    forall url | HasUrl(sources, url)
      ensures HasUrl(r, url)
    {
      var i :| 0 <= i < |sources| && sources[i].url == url;
      assert r[i] == sources[i];
    }
  }

  /** Some grounding chunk among `gcs` carries a web source with this url. */
  predicate SeenUrl(gcs: seq<GroundingChunk>, url: string) {
    exists k :: 0 <= k < |gcs| && WebUrl(gcs[k], url)
  }

  lemma SeenUrlSnoc(gcs: seq<GroundingChunk>, url: string)
    requires gcs != []
    ensures SeenUrl(gcs, url) <==> SeenUrl(gcs[..|gcs| - 1], url) || WebUrl(gcs[|gcs| - 1], url)
  {
    var init := gcs[..|gcs| - 1];
    if SeenUrl(gcs, url) {
      var k :| 0 <= k < |gcs| && WebUrl(gcs[k], url);
      if k < |init| { assert WebUrl(init[k], url); }
    }
    if SeenUrl(init, url) {
      var k :| 0 <= k < |init| && WebUrl(init[k], url);
      assert WebUrl(gcs[k], url);
    }
  }

  /**
   * Grounding sources are collected without repeating a url, in first-seen order after
   * the ones already held, and every web url seen ends up among them.
   */
  lemma {:induction false} AddSourcesDedup(sources: seq<Source>, gcs: seq<GroundingChunk>)
    requires DistinctUrls(sources)
    ensures var r := AddSources(sources, gcs);
      && DistinctUrls(r) && |sources| <= |r| && r[..|sources|] == sources
      && forall url :: HasUrl(r, url) <==> HasUrl(sources, url) || SeenUrl(gcs, url)
    decreases |gcs|
  {
    if gcs != [] {
      var init := gcs[..|gcs| - 1];
      var r0 := AddSources(sources, init);
      AddSourcesDedup(sources, init);
      AddSourceKeeps(r0, gcs[|gcs| - 1]);
      var r := AddSources(sources, gcs);
      assert r == AddSource(r0, gcs[|gcs| - 1]);
      assert r[..|sources|] == r0[..|sources|];
      forall url
        ensures HasUrl(r, url) <==> HasUrl(sources, url) || SeenUrl(gcs, url)
      {
        SeenUrlSnoc(gcs, url);
      }
    }
  }

  /** The index of the first grounding chunk carrying a web source with this url. */
  function FirstSeen(gcs: seq<GroundingChunk>, url: string): (k: nat)
    requires SeenUrl(gcs, url)
    ensures k < |gcs| && WebUrl(gcs[k], url)
    ensures forall j :: 0 <= j < k ==> !WebUrl(gcs[j], url)
    decreases |gcs|
  {
    if WebUrl(gcs[0], url) then 0
    else
      SeenUrlTail(gcs, url);
      1 + FirstSeen(gcs[1..], url)
  }

  lemma SeenUrlTail(gcs: seq<GroundingChunk>, url: string)
    requires SeenUrl(gcs, url) && !WebUrl(gcs[0], url)
    ensures SeenUrl(gcs[1..], url)
  {
    var k :| 0 <= k < |gcs| && WebUrl(gcs[k], url);
    assert WebUrl(gcs[1..][k - 1], url);
  }

  /** One more chunk keeps the first sighting of a url already seen, and is the first sighting of a new one. */
  lemma FirstSeenSnoc(gcs: seq<GroundingChunk>, url: string)
    requires gcs != []
    ensures var init := gcs[..|gcs| - 1];
      && (SeenUrl(init, url) ==> SeenUrl(gcs, url) && FirstSeen(gcs, url) == FirstSeen(init, url))
      && (!SeenUrl(init, url) && WebUrl(gcs[|gcs| - 1], url) ==>
            SeenUrl(gcs, url) && FirstSeen(gcs, url) == |gcs| - 1)
  {
    var init := gcs[..|gcs| - 1];
    SeenUrlSnoc(gcs, url);
    if SeenUrl(init, url) {
      var k' := FirstSeen(init, url);
      assert WebUrl(gcs[k'], url);
    }
  }

  /**
   * The sources collected from the chunks follow the order in which their urls are first
   * seen, and each takes the title of the chunk where its url first appears.
   */
  lemma {:induction false} AddSourcesFirstSeen(sources: seq<Source>, gcs: seq<GroundingChunk>)
    requires DistinctUrls(sources)
    ensures var r := AddSources(sources, gcs);
      && (forall i :: |sources| <= i < |r| ==>
            && !HasUrl(sources, r[i].url) && SeenUrl(gcs, r[i].url)
            && r[i].title == gcs[FirstSeen(gcs, r[i].url)].web.value.title)
      && (forall i, j :: |sources| <= i < j < |r| ==>
            SeenUrl(gcs, r[i].url) && SeenUrl(gcs, r[j].url) &&
            FirstSeen(gcs, r[i].url) < FirstSeen(gcs, r[j].url))
    decreases |gcs|
  {
    if gcs != [] {
      var init := gcs[..|gcs| - 1];
      var g := gcs[|gcs| - 1];
      var r0 := AddSources(sources, init);
      var r := AddSources(sources, gcs);
      AddSourcesFirstSeen(sources, init);
      AddSourcesDedup(sources, init);
      assert r == AddSource(r0, g);
      forall i | |sources| <= i < |r0|
        ensures r[i] == r0[i] && SeenUrl(gcs, r[i].url) && FirstSeen(gcs, r[i].url) == FirstSeen(init, r[i].url)
      {
        FirstSeenSnoc(gcs, r0[i].url);
      }
      if |r| > |r0| {
        var url := g.web.value.uri;
        assert r == r0 + [Source(g.web.value.title, url)] && !HasUrl(r0, url);
        assert !SeenUrl(init, url) && !HasUrl(sources, url);
        FirstSeenSnoc(gcs, url);
      }
    }
  }

  /** The sources list never repeats a url, whatever the chunks. */
  lemma {:induction false} ChunksKeepDistinctUrls(s: State, cs: seq<StreamChunk>, newId: nat -> string)
    requires DistinctUrls(s.sources)
    ensures DistinctUrls(ChunksStep(s, cs, newId).state.sources)
    decreases |cs|
  {
    if cs != [] {
      var a := ChunksStep(s, cs[..|cs| - 1], newId);
      ChunksKeepDistinctUrls(s, cs[..|cs| - 1], newId);
      var c := cs[|cs| - 1];
      ChunkStepTotals(a.state, c, newId);
      if |c.candidates| > 0 { AddSourcesDedup(a.state.sources, c.candidates[0].grounding); }
    }
  }

  // ===========================================================================
  // Lines
  // ===========================================================================

  /** The chunks that the lines decode to, in order; other lines are dropped. */
  function Decoded(lines: seq<string>, parse: string -> Option<StreamChunk>): seq<StreamChunk>
    decreases |lines|
  {
    if lines == [] then []
    else
      Decoded(lines[..|lines| - 1], parse) +
        match DecodeLine(lines[|lines| - 1], parse)
        case Some(c) => [c]
        case None => []
  }

  /** Processing lines is processing exactly the chunks they decode to: other lines have no effect. */
  lemma {:induction false} LinesAreChunks(s: State, lines: seq<string>, parse: string -> Option<StreamChunk>,
                                         newId: nat -> string)
    ensures LinesStep(s, lines, parse, newId) == ChunksStep(s, Decoded(lines, parse), newId)
    decreases |lines|
  {
    if lines != [] {
      var init := lines[..|lines| - 1];
      LinesAreChunks(s, init, parse, newId);
      var a := LinesStep(s, init, parse, newId);
      var d := Decoded(init, parse);
      match DecodeLine(lines[|lines| - 1], parse)
      case Some(c) =>
        assert (d + [c])[..|d + [c]| - 1] == d;
      case None =>
        assert a.events + [] == a.events;
        assert d + [] == d;
    }
  }

  /** A blank (or all-whitespace) line is skipped. */
  lemma BlankLineSkipped(line: string, parse: string -> Option<StreamChunk>)
    requires Trim(line) == ""
    ensures DecodeLine(line, parse) == None
  {
  }

  /** A bare `[DONE]` marker is skipped. */
  lemma DoneLineSkipped(line: string, parse: string -> Option<StreamChunk>)
    requires Trim(line) == "[DONE]"
    ensures DecodeLine(line, parse) == None
  {
    assert "[DONE]"[0] == '[';
    assert "data: "[0] == 'd';
    assert !StartsWith(Trim(line), "data: ");
  }

  /** A `data: [DONE]` marker is skipped. */
  lemma DataDoneLineSkipped(line: string, parse: string -> Option<StreamChunk>)
    requires Trim(line) == "data: [DONE]"
    ensures DecodeLine(line, parse) == None
  {
    DataDonePayload(Trim(line));
  }

  lemma DataDonePayload(t: string)
    requires t == "data: [DONE]"
    ensures t != "" && StartsWith(t, "data: ") && Trim(t[6..]) == "[DONE]"
  {
    assert t[6..] == "[DONE]";
    var u := "[DONE]";
    assert !IsJsSpace(u[0]) && !IsJsSpace(u[|u| - 1]);
  }

  /** Text that is neither a `data:` line nor starts like JSON is skipped without parsing. */
  lemma NonJsonLineSkipped(line: string, parse: string -> Option<StreamChunk>)
    requires var t := Trim(line); t != "" && !StartsWith(t, "data: ") && !StartsWith(t, "{") && !StartsWith(t, "[")
    ensures DecodeLine(line, parse) == None
  {
    assert "[DONE]"[0] == '[';
    assert Trim(line) != "[DONE]";
  }

  /** A line starting with `{` or `[` after trimming is handed to the parser whole. */
  lemma JsonLinesParsed(line: string, parse: string -> Option<StreamChunk>)
    requires StartsWith(Trim(line), "{") || StartsWith(Trim(line), "[")
    requires Trim(line) != "[DONE]"
    ensures DecodeLine(line, parse) == parse(Trim(line))
  {
    JsonPayload(Trim(line));
  }

  lemma JsonPayload(t: string)
    requires StartsWith(t, "{") || StartsWith(t, "[")
    ensures t != "" && !StartsWith(t, "data: ")
  {
    assert t[0] == '{' || t[0] == '[';
    assert "data: "[0] == 'd';
  }

  /** The `data: ` prefix is optional: with or without it a payload decodes the same. */
  lemma DataPrefixOptional(payload: string, parse: string -> Option<StreamChunk>)
    requires payload != "" && Trim(payload) == payload && !StartsWith(payload, "data: ")
    ensures DecodeLine("data: " + payload, parse) == DecodeLine(payload, parse)
  {
    DataLine(payload);
  }

  lemma DataLine(payload: string)
    requires payload != "" && Trim(payload) == payload
    ensures var line := "data: " + payload;
      Trim(line) == line && line != "" && StartsWith(line, "data: ") && line[6..] == payload
  {
    var line := "data: " + payload;
    var last := payload[|payload| - 1];
    assert !IsJsSpace(last);
    assert line[|line| - 1] == last;
    assert !IsJsSpace(line[0]);
    TrimKeeps(line);
    assert line[..6] == "data: ";
    assert line[6..] == payload;
  }

  // ===========================================================================
  // End of stream
  // ===========================================================================

  lemma SourceLineFree(src: Source)
    requires '\n' !in src.title && '\n' !in src.url
    ensures '\n' !in SourceLine(src)
  {
    var a := "- " + src.title;
    var b := a + " (";
    var c := b + src.url;
    assert SourceLine(src) == c + ")";
    assert '\n' !in "- " && '\n' !in " (" && '\n' !in ")";
  }

  lemma FooterPrefixLines(rest: string)
    ensures Split("\n\nSources:" + "\n" + rest, '\n') == ["", "", "Sources:"] + Split(rest, '\n')
  {
    var x := "Sources:" + ['\n'] + rest;
    var y := "" + ['\n'] + x;
    assert "\n\nSources:" + "\n" + rest == "" + ['\n'] + y;
    SplitAtSeparator("Sources:", rest, '\n');
    SplitAtSeparator("", x, '\n');
    SplitAtSeparator("", y, '\n');
  }

  /** The sources footer splits into two blank lines, the heading, and one line per source. */
  lemma SourcesFooterLines(sources: seq<Source>)
    requires |sources| > 0
    requires forall i :: 0 <= i < |sources| ==> '\n' !in sources[i].title && '\n' !in sources[i].url
    ensures Split(SourcesText(sources), '\n') == ["", "", "Sources:"] + SourceLines(sources)
  {
    var lines := SourceLines(sources);
    forall i | 0 <= i < |lines|
      ensures '\n' !in lines[i]
    {
      SourceLineFree(sources[i]);
    }
    JoinCons("\n\nSources:", lines, "\n");
    JoinSplit(lines, '\n');
    FooterPrefixLines(Join(lines, "\n"));
  }

  lemma SourcesStepViews(s: State)
    requires Inv(s)
    ensures var a := SourcesStep(s);
      && TextDeltas(a.events) == (if |s.sources| > 0 then [SourcesText(s.sources)] else [])
      && JsonDeltas(a.events) == ""
      && Starts(a.events) == (if |s.sources| > 0 && !s.textOpen then [TextKind] else [])
  {
    if |s.sources| > 0 {
      SourcesTextNonEmpty(s.sources);
      TextStepForwards(s, SourcesText(s.sources));
    }
  }

  lemma TailViews(pre: seq<Event>, r: StopReason, input: nat, output: nat)
    ensures var m := MessageDelta(r, input, output);
      && TextDeltas(pre + [m, MessageStop]) == TextDeltas(pre)
      && JsonDeltas(pre + [m, MessageStop]) == JsonDeltas(pre)
      && Starts(pre + [m, MessageStop]) == Starts(pre)
  {
    var m := MessageDelta(r, input, output);
    assert pre + [m, MessageStop] == pre + [m] + [MessageStop];
    ViewsSnoc(pre, m);
    ViewsSnoc(pre + [m], MessageStop);
  }

  /** Views of a sequence one event longer. */
  lemma ViewsSnoc(x: seq<Event>, e: Event)
    ensures TextDeltas(x + [e]) == TextDeltas(x) + TextPiece(e)
    ensures JsonDeltas(x + [e]) == JsonDeltas(x) + JsonPiece(e)
    ensures Starts(x + [e]) == Starts(x) + StartPiece(e)
  {
    assert (x + [e])[..|x + [e]| - 1] == x;
  }

  /**
   * With sources, the end sequence sends exactly one more text delta, the footer, in a
   * text block (closing an open tool block first); without sources it sends no text.
   * Either way it ends with the stop reason and totals, then `message_stop`.
   */
  lemma FinishSends(s: State)
    requires Inv(s)
    ensures TextDeltas(Finish(s)) == (if |s.sources| > 0 then [SourcesText(s.sources)] else [])
    ensures JsonDeltas(Finish(s)) == ""
    ensures Starts(Finish(s)) == (if |s.sources| > 0 && !s.textOpen then [TextKind] else [])
    ensures Finish(s)[|Finish(s)| - 2..]
         == [MessageDelta(StreamStopReason(s.lastFinish), s.inputTokens, s.outputTokens), MessageStop]
  {
    FinishSplit(s);
    FinishBodyViews(s);
    TailViews(FinishBody(s), StreamStopReason(s.lastFinish), s.inputTokens, s.outputTokens);
  }

  lemma FinishBodyViews(s: State)
    requires Inv(s)
    ensures TextDeltas(FinishBody(s)) == (if |s.sources| > 0 then [SourcesText(s.sources)] else [])
    ensures JsonDeltas(FinishBody(s)) == ""
    ensures Starts(FinishBody(s)) == (if |s.sources| > 0 && !s.textOpen then [TextKind] else [])
  {
    var a := SourcesStep(s);
    var stop := CloseLast(a.state);
    SourcesStepViews(s);
    ViewsAppend(a.events, stop);
    ViewsOne(ContentBlockStop(a.state.index));
  }

  /** An upstream with no chunk in it yields start, end-of-turn with zero usage, and stop. */
  lemma NoChunksThreeEvents(upstream: string, messageId: string, model: string,
                            parse: string -> Option<StreamChunk>, newId: nat -> string)
    requires Decoded(Split(upstream, '\n'), parse) == []
    ensures Translate(upstream, messageId, model, parse, newId)
         == [MessageStart(messageId, model), MessageDelta(EndTurn, 0, 0), MessageStop]
  {
    var lines := Split(upstream, '\n');
    var body := LinesStep(Initial, lines, parse, newId);
    NoChunksNoStep(lines, parse, newId);
    TranslateOf(upstream, messageId, model, parse, newId, body);
    NothingReceived(Translate(upstream, messageId, model, parse, newId), MessageStart(messageId, model), body);
  }

  /** The events around a body that neither sent nor changed anything. */
  lemma NothingReceived(t: seq<Event>, start: Event, body: Step)
    requires body == Step(Initial, []) && t == [start] + body.events + Finish(body.state)
    ensures t == [start, MessageDelta(EndTurn, 0, 0), MessageStop]
  {
    FinishInitial();
    assert [start] + [] == [start];
  }

  lemma TranslateOf(upstream: string, messageId: string, model: string,
                    parse: string -> Option<StreamChunk>, newId: nat -> string, body: Step)
    requires LinesStep(Initial, Split(upstream, '\n'), parse, newId) == body
    ensures Translate(upstream, messageId, model, parse, newId)
         == [MessageStart(messageId, model)] + body.events + Finish(body.state)
  {
  }

  lemma NoChunksNoStep(lines: seq<string>, parse: string -> Option<StreamChunk>, newId: nat -> string)
    requires Decoded(lines, parse) == []
    ensures LinesStep(Initial, lines, parse, newId) == Step(Initial, [])
  {
    LinesAreChunks(Initial, lines, parse, newId);
    assert ChunksStep(Initial, [], newId) == Step(Initial, []);
  }

  /** With nothing received, the end sequence is the stop reason `end_turn` with zero usage. */
  lemma FinishInitial()
    ensures Finish(Initial) == [MessageDelta(EndTurn, 0, 0), MessageStop]
  {
    assert |Initial.sources| == 0 && !Initial.textOpen && !Initial.toolOpen;
    assert SourcesStep(Initial) == Step(Initial, []);
    assert FinishBody(Initial) == [];
    assert StreamStopReason(Initial.lastFinish) == EndTurn;
  }

  lemma EmptyUpstream(messageId: string, model: string,
                      parse: string -> Option<StreamChunk>, newId: nat -> string)
    ensures Translate("", messageId, model, parse, newId)
         == [MessageStart(messageId, model), MessageDelta(EndTurn, 0, 0), MessageStop]
  {
    assert Split("", '\n') == [""];
    assert Trim("") == "";
    assert Decoded([""], parse) == [];
    NoChunksThreeEvents("", messageId, model, parse, newId);
  }
}
