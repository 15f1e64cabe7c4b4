/**
 * Content-block lifecycle of the downstream stream: blocks are numbered 0, 1, 2, ...
 * in order, each is opened by one `content_block_start`, receives deltas only while
 * open, and is closed by one `content_block_stop` before the next one opens; by
 * `message_delta` every block is closed.
 */
module StreamLifecycle {
  import opened Wrappers
  import opened Strings
  import opened Types
  import opened StreamSpec

  /** How far the block sequence has got: the next (or current) index and whether it is open. */
  datatype Blocks = Blocks(next: nat, open: bool)

  /** One event against the block sequence; `None` marks a violation (or a message-level event). */
  function BlockStep(b: Option<Blocks>, e: Event): Option<Blocks> {
    match b
    case None => None
    case Some(bl) =>
      match e
      case ContentBlockStart(i, _) => if !bl.open && i == bl.next then Some(Blocks(bl.next, true)) else None
      case ContentBlockDelta(i, _) => if bl.open && i == bl.next then b else None
      case ContentBlockStop(i) => if bl.open && i == bl.next then Some(Blocks(bl.next + 1, false)) else None
      case _ => None
  }

  function Replay(b: Option<Blocks>, evs: seq<Event>): Option<Blocks>
    decreases |evs|
  {
    if evs == [] then b else BlockStep(Replay(b, evs[..|evs| - 1]), evs[|evs| - 1])
  }

  function BlocksOf(s: State): Blocks {
    Blocks(s.index, s.textOpen || s.toolOpen)
  }

  /** A step keeps the invariant and its events take the block sequence from `s` to the new state. */
  predicate Sound(s: State, st: Step) {
    Inv(st.state) && Replay(Some(BlocksOf(s)), st.events) == Some(BlocksOf(st.state))
  }

  lemma ReplayOne(b: Option<Blocks>, e: Event)
    ensures Replay(b, [e]) == BlockStep(b, e)
  {
    assert [e][..0] == [];
  }

  lemma {:induction false} ReplayAppend(b: Option<Blocks>, x: seq<Event>, y: seq<Event>)
    ensures Replay(b, x + y) == Replay(Replay(b, x), y)
    decreases |y|
  {
    if y == [] {
      assert x + y == x;
    } else {
      assert (x + y)[..|x + y| - 1] == x + y[..|y| - 1];
      ReplayAppend(b, x, y[..|y| - 1]);
    }
  }

  lemma {:induction false} ReplayNone(evs: seq<Event>)
    ensures Replay(None, evs) == None
    decreases |evs|
  {
    if evs != [] {
      ReplayNone(evs[..|evs| - 1]);
    }
  }

  lemma Compose(s: State, a: Step, b: Step)
    requires Sound(s, a) && Sound(a.state, b)
    ensures Sound(s, Step(b.state, a.events + b.events))
  {
    ReplayAppend(Some(BlocksOf(s)), a.events, b.events);
  }

  lemma Compose3(s: State, a: Step, b: Step, c: Step)
    requires Sound(s, a) && Sound(a.state, b) && Sound(b.state, c)
    ensures Sound(s, Step(c.state, a.events + b.events + c.events))
  {
    Compose(s, a, b);
    Compose(s, Step(b.state, a.events + b.events), c);
  }

  lemma Stay(s: State)
    requires Inv(s)
    ensures Sound(s, Step(s, []))
  {
  }

  // ---------------------------------------------------------------------------
  // The elementary transitions
  // ---------------------------------------------------------------------------

  lemma CloseToolSound(s: State)
    requires Inv(s)
    ensures Sound(s, CloseTool(s))
    ensures !CloseTool(s).state.toolOpen && CloseTool(s).state.textOpen == s.textOpen
  {
    if s.toolOpen { ReplayOne(Some(BlocksOf(s)), ContentBlockStop(s.index)); }
  }

  lemma CloseTextSound(s: State)
    requires Inv(s)
    ensures Sound(s, CloseText(s))
    ensures !CloseText(s).state.textOpen && CloseText(s).state.toolOpen == s.toolOpen
    ensures CloseText(s).state.toolId == s.toolId && CloseText(s).state.generated == s.generated
  {
    if s.textOpen { ReplayOne(Some(BlocksOf(s)), ContentBlockStop(s.index)); }
  }

  lemma OpenTextSound(s: State)
    requires Inv(s) && !s.toolOpen
    ensures Sound(s, OpenText(s)) && OpenText(s).state.textOpen
  {
    if !s.textOpen { ReplayOne(Some(BlocksOf(s)), ContentBlockStart(s.index, TextKind)); }
  }

  lemma OpenToolSound(s: State, id: string, name: string)
    requires Inv(s) && !s.textOpen
    ensures Sound(s, OpenTool(s, id, name))
    ensures OpenTool(s, id, name).state.toolOpen && OpenTool(s, id, name).state.toolId == Some(id)
  {
    var a := if s.toolOpen then Step(s.(index := s.index + 1), [ContentBlockStop(s.index)])
             else Step(s, []);
    var e := ContentBlockStart(a.state.index, ToolUseKind(id, name));
    if s.toolOpen { ReplayOne(Some(BlocksOf(s)), ContentBlockStop(s.index)); }
    ReplayAppend(Some(BlocksOf(s)), a.events, [e]);
    ReplayOne(Replay(Some(BlocksOf(s)), a.events), e);
  }

  lemma ArgsStepSound(s: State, id: string, args: Option<Json.Json>)
    requires Inv(s) && s.toolOpen
    ensures Sound(s, ArgsStep(s, id, args))
    ensures ArgsStep(s, id, args).state == s.(lastArgs := ArgsStep(s, id, args).state.lastArgs)
  {
    var st := ArgsStep(s, id, args);
    if st.events != [] {
      ReplayOne(Some(BlocksOf(s)), st.events[0]);
    }
  }

  lemma TextStepSound(s: State, text: string)
    requires Inv(s)
    ensures Sound(s, TextStep(s, text))
    ensures TextStep(s, text).state.textOpen && !TextStep(s, text).state.toolOpen
  {
    var a := CloseTool(s);
    CloseToolSound(s);
    var b := OpenText(a.state);
    OpenTextSound(a.state);
    Compose(s, a, b);
    if text != "" {
      var e := ContentBlockDelta(b.state.index, TextDelta(text));
      ReplayAppend(Some(BlocksOf(s)), a.events + b.events, [e]);
      ReplayOne(Some(BlocksOf(b.state)), e);
    }
  }

  /** Switching to the tool block of `id`: a new block unless `id` is already current. */
  lemma SwitchToolSound(s: State, id: string, name: string)
    requires Inv(s) && !s.textOpen
    ensures var b := SwitchTool(s, id, name);
      Sound(s, b) && b.state.toolOpen && b.state.toolId == Some(id)
  {
    if Some(id) != s.toolId {
      OpenToolSound(s, id, name);
    }
  }

  lemma CallStepSound(s: State, call: Call, newId: nat -> string)
    requires Inv(s)
    ensures Sound(s, CallStep(s, call, newId))
    ensures CallStep(s, call, newId).state.toolOpen
    ensures CallStep(s, call, newId).state.toolId == Some(CallId(s, call, newId))
  {
    var a := CloseText(s);
    CloseTextSound(s);
    var id := CallId(a.state, call, newId);
    var s1 := CountId(a.state, call);
    assert BlocksOf(s1) == BlocksOf(a.state);
    var b := SwitchTool(s1, id, call.name.GetOr(""));
    SwitchToolSound(s1, id, call.name.GetOr(""));
    var c := ArgsStep(b.state, id, call.args);
    ArgsStepSound(b.state, id, call.args);
    Compose3(s, a, b, c);
    CallStepPieces(s, call, newId);
  }

  lemma PartStepSound(s: State, p: Part, newId: nat -> string)
    requires Inv(s)
    ensures Sound(s, PartStep(s, p, newId))
  {
    match p
    case TextPart(t) => TextStepSound(s, t);
    case FunctionCallPart(call) => CallStepSound(s, call, newId);
    case FunctionResponsePart(_) =>
  }

  lemma {:induction false} PartsStepSound(s: State, parts: seq<Part>, newId: nat -> string)
    requires Inv(s)
    ensures Sound(s, PartsStep(s, parts, newId))
    decreases |parts|
  {
    if parts != [] {
      var a := PartsStep(s, parts[..|parts| - 1], newId);
      PartsStepSound(s, parts[..|parts| - 1], newId);
      PartStepSound(a.state, parts[|parts| - 1], newId);
      Compose(s, a, PartStep(a.state, parts[|parts| - 1], newId));
    }
  }

  lemma ChunkStepSound(s: State, c: StreamChunk, newId: nat -> string)
    requires Inv(s)
    ensures Sound(s, ChunkStep(s, c, newId))
  {
    if |c.candidates| > 0 {
      var s1 := UsageStep(s, c.usage);
      var cand := c.candidates[0];
      var s2 := if cand.finishReason.Some? then s1.(lastFinish := cand.finishReason) else s1;
      var s3 := s2.(sources := AddSources(s2.sources, cand.grounding));
      PartsStepSound(s3, cand.parts, newId);
    }
  }

  lemma LineStepSound(s: State, line: string, parse: string -> Option<StreamChunk>, newId: nat -> string)
    requires Inv(s)
    ensures Sound(s, LineStep(s, line, parse, newId))
  {
    match DecodeLine(line, parse)
    case Some(c) => ChunkStepSound(s, c, newId);
    case None =>
  }

  lemma {:induction false} LinesStepSound(s: State, lines: seq<string>,
                                          parse: string -> Option<StreamChunk>, newId: nat -> string)
    requires Inv(s)
    ensures Sound(s, LinesStep(s, lines, parse, newId))
    decreases |lines|
  {
    if lines != [] {
      var a := LinesStep(s, lines[..|lines| - 1], parse, newId);
      LinesStepSound(s, lines[..|lines| - 1], parse, newId);
      LineStepSound(a.state, lines[|lines| - 1], parse, newId);
      Compose(s, a, LineStep(a.state, lines[|lines| - 1], parse, newId));
    }
  }

  /** The end sequence closes whatever is open: every block is closed before `message_delta`. */
  lemma FinishCloses(s: State)
    requires Inv(s)
    ensures |Finish(s)| >= 2
    ensures Finish(s)[|Finish(s)| - 2].MessageDelta? && Finish(s)[|Finish(s)| - 1] == MessageStop
    ensures var body := Finish(s)[..|Finish(s)| - 2];
            Replay(Some(BlocksOf(s)), body).Some? && !Replay(Some(BlocksOf(s)), body).value.open
  {
    FinishSplit(s);
    var f := Finish(s);
    assert f[|f| - 2] == f[|f| - 2..][0];
    assert f[|f| - 1] == f[|f| - 2..][1];
    FinishBodyCloses(s);
  }

  /** The footer and the last stop leave no block open. */
  lemma FinishBodyCloses(s: State)
    requires Inv(s)
    ensures Replay(Some(BlocksOf(s)), FinishBody(s)).Some? && !Replay(Some(BlocksOf(s)), FinishBody(s)).value.open
  {
    var a := SourcesStep(s);
    SourcesStepSound(s);
    var stop := CloseLast(a.state);
    ReplayAppend(Some(BlocksOf(s)), a.events, stop);
    CloseLastCloses(a.state);
  }

  lemma SourcesStepSound(s: State)
    requires Inv(s)
    ensures Sound(s, SourcesStep(s))
  {
    if |s.sources| > 0 {
      TextStepSound(s, SourcesText(s.sources));
    } else {
      assert SourcesStep(s) == Step(s, []);
    }
  }

  lemma CloseLastCloses(t: State)
    requires Inv(t)
    ensures Replay(Some(BlocksOf(t)), CloseLast(t)).Some? && !Replay(Some(BlocksOf(t)), CloseLast(t)).value.open
  {
    var stop := CloseLast(t);
    if stop != [] {
      ReplayOne(Some(BlocksOf(t)), stop[0]);
    } else {
      assert Replay(Some(BlocksOf(t)), stop) == Some(BlocksOf(t));
    }
  }

  // ---------------------------------------------------------------------------
  // The whole stream
  // ---------------------------------------------------------------------------

  /**
   * A downstream message: `message_start`, then only block events that open,
   * feed and close blocks 0, 1, 2, ... in order and leave none open, then
   * `message_delta` and `message_stop`.
   */
  predicate WellFormed(evs: seq<Event>) {
    && |evs| >= 3
    && evs[0].MessageStart?
    && evs[|evs| - 2].MessageDelta?
    && evs[|evs| - 1] == MessageStop
    && Replay(Some(Blocks(0, false)), evs[1..|evs| - 2]).Some?
    && !Replay(Some(Blocks(0, false)), evs[1..|evs| - 2]).value.open
  }

  lemma FramedWellFormed(start: Event, body: seq<Event>, fin: seq<Event>, b: Blocks)
    requires start.MessageStart?
    requires Replay(Some(Blocks(0, false)), body) == Some(b)
    requires |fin| >= 2 && fin[|fin| - 2].MessageDelta? && fin[|fin| - 1] == MessageStop
    requires Replay(Some(b), fin[..|fin| - 2]).Some? && !Replay(Some(b), fin[..|fin| - 2]).value.open
    ensures WellFormed([start] + body + fin)
  {
    FrameSlices(start, body, fin);
    ReplayAppend(Some(Blocks(0, false)), body, fin[..|fin| - 2]);
  }

  /** Where the start, the body and the last two events of a framed stream sit. */
  lemma FrameSlices<T>(start: T, body: seq<T>, fin: seq<T>)
    requires |fin| >= 2
    ensures var evs := [start] + body + fin;
      && |evs| >= 3 && evs[0] == start
      && evs[1..|evs| - 2] == body + fin[..|fin| - 2]
      && evs[|evs| - 2] == fin[|fin| - 2] && evs[|evs| - 1] == fin[|fin| - 1]
  {
    var evs := [start] + body + fin;
    assert evs == [start] + (body + fin[..|fin| - 2]) + fin[|fin| - 2..];
  }

  lemma TranslateWellFormed(upstream: string, messageId: string, model: string,
                            parse: string -> Option<StreamChunk>, newId: nat -> string)
    ensures WellFormed(Translate(upstream, messageId, model, parse, newId))
  {
    var body := LinesStep(Initial, Split(upstream, '\n'), parse, newId);
    LinesStepSound(Initial, Split(upstream, '\n'), parse, newId);
    FinishCloses(body.state);
    FramedWellFormed(MessageStart(messageId, model), body.events, Finish(body.state), BlocksOf(body.state));
  }

  // ---------------------------------------------------------------------------
  // What a successful replay means, mark by mark
  // ---------------------------------------------------------------------------

  datatype Mark = Opened(index: nat) | Closed(index: nat)

  /** The starts and stops of a block event sequence, deltas dropped. */
  function Marks(evs: seq<Event>): seq<Mark>
    decreases |evs|
  {
    if evs == [] then []
    else
      var e := evs[|evs| - 1];
      Marks(evs[..|evs| - 1]) +
        match e
        case ContentBlockStart(i, _) => [Opened(i)]
        case ContentBlockStop(i) => [Closed(i)]
        case _ => []
  }

  /** Open 0, close 0, open 1, close 1, ... up to `n` closed blocks and possibly block `n` open. */
  function Canonical(n: nat, open: bool): seq<Mark>
    decreases n, open
  {
    if open then Canonical(n, false) + [Opened(n)]
    else if n == 0 then []
    else Canonical(n - 1, true) + [Closed(n - 1)]
  }

  lemma {:induction false} ReplayMarks(evs: seq<Event>, n: nat, open: bool)
    requires Replay(Some(Blocks(0, false)), evs) == Some(Blocks(n, open))
    ensures Marks(evs) == Canonical(n, open)
    decreases |evs|
  {
    if evs == [] {
    } else {
      var p := evs[..|evs| - 1];
      var e := evs[|evs| - 1];
      var b := Replay(Some(Blocks(0, false)), p);
      if b.None? {
        assert false;
      }
      ReplayMarks(p, b.value.next, b.value.open);
    }
  }

  lemma {:induction false} CanonicalShape(n: nat)
    ensures |Canonical(n, false)| == 2 * n
    ensures forall k :: 0 <= k < n ==>
      Canonical(n, false)[2 * k] == Opened(k) && Canonical(n, false)[2 * k + 1] == Closed(k)
  {
    if n > 0 {
      CanonicalShape(n - 1);
      assert Canonical(n, false) == Canonical(n - 1, false) + [Opened(n - 1), Closed(n - 1)];
    }
  }

  /** In every translated stream, the block starts and stops are exactly open k, close k for k = 0, 1, ... */
  lemma TranslateBlocksCanonical(upstream: string, messageId: string, model: string,
                                 parse: string -> Option<StreamChunk>, newId: nat -> string)
    ensures var evs := Translate(upstream, messageId, model, parse, newId);
      |evs| >= 3 &&
      var marks := Marks(evs[1..|evs| - 2]);
      |marks| % 2 == 0 &&
      forall k :: 0 <= k < |marks| / 2 ==> marks[2 * k] == Opened(k) && marks[2 * k + 1] == Closed(k)
  {
    TranslateWellFormed(upstream, messageId, model, parse, newId);
    WellFormedCanonical(Translate(upstream, messageId, model, parse, newId));
  }

  lemma WellFormedCanonical(evs: seq<Event>)
    requires WellFormed(evs)
    ensures var marks := Marks(evs[1..|evs| - 2]);
      |marks| % 2 == 0 &&
      forall k :: 0 <= k < |marks| / 2 ==> marks[2 * k] == Opened(k) && marks[2 * k + 1] == Closed(k)
  {
    var b := Replay(Some(Blocks(0, false)), evs[1..|evs| - 2]).value;
    ReplayMarks(evs[1..|evs| - 2], b.next, false);
    CanonicalShape(b.next);
  }
}
