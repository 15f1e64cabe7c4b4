/**
 * The streaming translator as the source runs it: a `Translator` object holding the
 * closure variables of `streamGeminiToAnthropic`, whose methods update them in place
 * and write SSE frames to a controller, and a reader loop that splits the upstream
 * fragments into lines. Every method is proved to do what the pure functions of
 * StreamSpec say, so the lemmas proved there hold of the frames written here.
 */
module StreamTranslator {
  import opened Wrappers
  import opened Strings
  import opened Json
  import opened Types
  import opened StreamSpec
  import opened Sse

  class Translator {
    var contentBlockIndex: nat
    var hasStartedTextBlock: bool
    var isToolUse: bool
    var currentToolCallId: Option<string>
    var lastArgsSent: map<string, string>
    var totalInputTokens: nat
    var totalOutputTokens: nat
    var lastFinishReason: Option<FinishReason>
    var sources: seq<Source>
    /** How many tool ids have been generated (stands for the clock and random suffix). */
    var generatedIds: nat
    /** The events whose frames have been written, in order. */
    ghost var events: seq<Event>
    const controller: Controller
    /** The generator of tool ids for calls that carry none. */
    const newId: nat -> string

    function Snapshot(): State
      reads this
    {
      State(contentBlockIndex, hasStartedTextBlock, isToolUse, currentToolCallId, lastArgsSent,
            totalInputTokens, totalOutputTokens, lastFinishReason, sources, generatedIds)
    }

    /** The controller holds exactly the frames of the events emitted. */
    ghost predicate Valid()
      reads this, controller
    {
      controller.chunks == Frames(events)
    }

    constructor(controller: Controller, newId: nat -> string)
      requires controller.chunks == []
      ensures Valid() && Snapshot() == Initial && events == []
      ensures this.controller == controller && this.newId == newId
    {
      this.controller := controller;
      this.newId := newId;
      contentBlockIndex := 0;
      hasStartedTextBlock := false;
      isToolUse := false;
      currentToolCallId := None;
      lastArgsSent := map[];
      totalInputTokens := 0;
      totalOutputTokens := 0;
      lastFinishReason := None;
      sources := [];
      generatedIds := 0;
      events := [];
    }

    /** Writes one event as an SSE frame. */
    method Emit(e: Event)
      requires Valid()
      modifies this, controller
      ensures Valid() && events == old(events) + [e] && Snapshot() == old(Snapshot())
    {
      EnqueueSse(controller, EventName(e), Some(Payload(e)));
      events := events + [e];
    }

    /** The text branch of the parts loop. */
    method ProcessText(text: string)
      requires Valid()
      modifies this, controller
      ensures Valid()
      ensures Snapshot() == TextStep(old(Snapshot()), text).state
      ensures events == old(events) + TextStep(old(Snapshot()), text).events
    {
      ghost var s0 := Snapshot();
      ghost var e0 := events;
      CloseToolBlock();
      ghost var a := CloseTool(s0);
      OpenTextBlock();
      ghost var b := OpenText(a.state);
      AppendAssoc(e0, a.events, b.events);
      AppendEmpty(events);
      if text != "" {
        Emit(ContentBlockDelta(contentBlockIndex, TextDelta(text)));
      }
      ghost var d := if text != "" then [ContentBlockDelta(b.state.index, TextDelta(text))] else [];
      AppendAssoc(e0, a.events + b.events, d);
    }

    /** A text part ends an open tool block first. */
    method CloseToolBlock()
      requires Valid()
      modifies this, controller
      ensures Valid()
      ensures Snapshot() == CloseTool(old(Snapshot())).state
      ensures events == old(events) + CloseTool(old(Snapshot())).events
    {
      AppendEmpty(events);
      if isToolUse {
        Emit(ContentBlockStop(contentBlockIndex));
        isToolUse := false;
        currentToolCallId := None;
        contentBlockIndex := contentBlockIndex + 1;
      }
    }

    /** Starts a text block unless one is open already. */
    method OpenTextBlock()
      requires Valid()
      modifies this, controller
      ensures Valid()
      ensures Snapshot() == OpenText(old(Snapshot())).state
      ensures events == old(events) + OpenText(old(Snapshot())).events
    {
      AppendEmpty(events);
      if !hasStartedTextBlock {
        Emit(ContentBlockStart(contentBlockIndex, TextKind));
        hasStartedTextBlock := true;
      }
    }

    /** The function-call branch of the parts loop. */
    method ProcessCall(call: Call)
      requires Valid()
      modifies this, controller
      ensures Valid()
      ensures Snapshot() == CallStep(old(Snapshot()), call, newId).state
      ensures events == old(events) + CallStep(old(Snapshot()), call, newId).events
    {
      ghost var s0 := Snapshot();
      ghost var e0 := events;
      CloseTextBlock();
      ghost var a := CloseText(s0);
      var toolCallId := TakeId(call);
      ghost var b := SwitchTool(CountId(a.state, call), toolCallId, call.name.GetOr(""));
      SwitchToolBlock(toolCallId, call.name.GetOr(""));
      AppendAssoc(e0, a.events, b.events);
      SendArgs(toolCallId, call.args);
      AppendAssoc(e0, a.events + b.events, ArgsStep(b.state, toolCallId, call.args).events);
      CallStepPieces(s0, call, newId);
    }

    /** Closes an open text block before a function call. */
    method CloseTextBlock()
      requires Valid()
      modifies this, controller
      ensures Valid()
      ensures Snapshot() == CloseText(old(Snapshot())).state
      ensures events == old(events) + CloseText(old(Snapshot())).events
    {
      AppendEmpty(events);
      if hasStartedTextBlock {
        Emit(ContentBlockStop(contentBlockIndex));
        hasStartedTextBlock := false;
        contentBlockIndex := contentBlockIndex + 1;
      }
    }

    /** The call's own id, or a freshly generated one. */
    method TakeId(call: Call) returns (id: string)
      modifies this
      ensures id == CallId(old(Snapshot()), call, newId)
      ensures Snapshot() == CountId(old(Snapshot()), call) && events == old(events)
    {
      if HasId(call) {
        id := call.id.value;
      } else {
        id := newId(generatedIds);
        generatedIds := generatedIds + 1;
      }
    }

    /** Makes `id` the current tool, starting a block for it unless it is current already. */
    method SwitchToolBlock(id: string, name: string)
      requires Valid()
      modifies this, controller
      ensures Valid()
      ensures Snapshot() == SwitchTool(old(Snapshot()), id, name).state
      ensures events == old(events) + SwitchTool(old(Snapshot()), id, name).events
    {
      AppendEmpty(events);
      if Some(id) != currentToolCallId {
        StartTool(id, name);
      }
    }

    /** Closes an open tool block and starts a `tool_use` block for a new call id. */
    method StartTool(id: string, name: string)
      requires Valid()
      modifies this, controller
      ensures Valid()
      ensures Snapshot() == OpenTool(old(Snapshot()), id, name).state
      ensures events == old(events) + OpenTool(old(Snapshot()), id, name).events
    {
      ghost var s0 := Snapshot();
      ghost var e0 := events;
      StopToolBlock();
      ghost var a := StopTool(s0);
      isToolUse := true;
      currentToolCallId := Some(id);
      lastArgsSent := lastArgsSent[id := ""];
      Emit(ContentBlockStart(contentBlockIndex, ToolUseKind(id, name)));
      AppendAssoc(e0, a.events, [ContentBlockStart(a.state.index, ToolUseKind(id, name))]);
    }

    /** Stops an open tool block before a new one starts. */
    method StopToolBlock()
      requires Valid()
      modifies this, controller
      ensures Valid()
      ensures Snapshot() == StopTool(old(Snapshot())).state
      ensures events == old(events) + StopTool(old(Snapshot())).events
    {
      AppendEmpty(events);
      if isToolUse {
        Emit(ContentBlockStop(contentBlockIndex));
        contentBlockIndex := contentBlockIndex + 1;
      }
    }

    /** Sends the part of the call's arguments text not sent before, as an `input_json_delta`. */
    method SendArgs(id: string, args: Option<Json>)
      requires Valid() && currentToolCallId == Some(id)
      modifies this, controller
      ensures Valid()
      ensures Snapshot() == ArgsStep(old(Snapshot()), id, args).state
      ensures events == old(events) + ArgsStep(old(Snapshot()), id, args).events
    {
      AppendEmpty(events);
      if args.Some? && Truthy(args.value) {
        var argsJson := Stringify(args.value);
        var key := currentToolCallId.GetOr("");
        var last := if key in lastArgsSent then lastArgsSent[key] else "";
        var partial := argsJson;
        if StartsWith(argsJson, last) {
          partial := argsJson[|last|..];
        }
        if |partial| > 0 || |last| == 0 {
          Emit(ContentBlockDelta(contentBlockIndex, InputJsonDelta(if |partial| > 0 then partial else argsJson)));
          lastArgsSent := lastArgsSent[key := argsJson];
        }
      }
    }

    method ProcessPart(part: Part)
      requires Valid()
      modifies this, controller
      ensures Valid()
      ensures Snapshot() == PartStep(old(Snapshot()), part, newId).state
      ensures events == old(events) + PartStep(old(Snapshot()), part, newId).events
    {
      match part
      case TextPart(text) => ProcessText(text);
      case FunctionCallPart(call) => ProcessCall(call);
      case FunctionResponsePart(_) => AppendEmpty(events);
    }

    /** Adds the web sources of the grounding chunks, skipping urls already held. */
    method CollectSources(gcs: seq<GroundingChunk>)
      modifies this
      ensures Snapshot() == old(Snapshot()).(sources := AddSources(old(sources), gcs))
      ensures events == old(events)
    {
      ghost var before := sources;
      var i := 0;
      while i < |gcs|
        invariant 0 <= i <= |gcs|
        invariant sources == AddSources(before, gcs[..i])
        invariant events == old(events)
        invariant Snapshot() == old(Snapshot()).(sources := sources)
      {
        assert gcs[..i + 1][..i] == gcs[..i];
        if gcs[i].web.Some? {
          var title := gcs[i].web.value.title;
          var url := gcs[i].web.value.uri;
          if !HasUrl(sources, url) {
            sources := sources + [Source(title, url)];
          }
        }
        i := i + 1;
      }
      assert gcs[..i] == gcs;
    }

    method ProcessParts(parts: seq<Part>)
      requires Valid()
      modifies this, controller
      ensures Valid()
      ensures Snapshot() == PartsStep(old(Snapshot()), parts, newId).state
      ensures events == old(events) + PartsStep(old(Snapshot()), parts, newId).events
    {
      ghost var s0 := Snapshot();
      ghost var e0 := events;
      AppendEmpty(e0);
      var j := 0;
      while j < |parts|
        invariant 0 <= j <= |parts| && Valid()
        invariant Snapshot() == PartsStep(s0, parts[..j], newId).state
        invariant events == e0 + PartsStep(s0, parts[..j], newId).events
      {
        ghost var a := PartsStep(s0, parts[..j], newId);
        PartsStepPrefix(s0, parts, j, newId);
        ProcessPart(parts[j]);
        AppendAssoc(e0, a.events, PartStep(a.state, parts[j], newId).events);
        j := j + 1;
      }
      assert parts[..j] == parts;
    }

    /** `processGeminiChunk`. */
    method ProcessChunk(chunk: StreamChunk)
      requires Valid()
      modifies this, controller
      ensures Valid()
      ensures Snapshot() == ChunkStep(old(Snapshot()), chunk, newId).state
      ensures events == old(events) + ChunkStep(old(Snapshot()), chunk, newId).events
    {
      AppendEmpty(events);
      RecordUsage(chunk.usage);
      if |chunk.candidates| == 0 {
        return;
      }
      var candidate := chunk.candidates[0];
      var parts := candidate.parts;
      if candidate.finishReason.Some? {
        lastFinishReason := candidate.finishReason;
      }
      CollectSources(candidate.grounding);
      ProcessParts(parts);
    }

    /** Keeps the token counts of a usage report, where they are non-zero. */
    method RecordUsage(usage: Option<Usage>)
      modifies this
      ensures Snapshot() == UsageStep(old(Snapshot()), usage) && events == old(events)
    {
      if usage.Some? {
        var u := usage.value;
        totalInputTokens := if u.promptTokenCount != 0 then u.promptTokenCount else totalInputTokens;
        totalOutputTokens := if u.candidatesTokenCount != 0 then u.candidatesTokenCount else totalOutputTokens;
      }
    }

    /** One complete upstream line: trim, strip `data: `, skip `[DONE]` and non-JSON, parse. */
    method ProcessLine(line: string, parse: string -> Option<StreamChunk>)
      requires Valid()
      modifies this, controller
      ensures Valid()
      ensures Snapshot() == LineStep(old(Snapshot()), line, parse, newId).state
      ensures events == old(events) + LineStep(old(Snapshot()), line, parse, newId).events
    {
      AppendEmpty(events);
      var decoded := DecodeLine(line, parse);
      if decoded.Some? {
        ProcessChunk(decoded.value);
      }
    }

    method ProcessLines(lines: seq<string>, parse: string -> Option<StreamChunk>)
      requires Valid()
      modifies this, controller
      ensures Valid()
      ensures Snapshot() == LinesStep(old(Snapshot()), lines, parse, newId).state
      ensures events == old(events) + LinesStep(old(Snapshot()), lines, parse, newId).events
    {
      ghost var s0 := Snapshot();
      ghost var e0 := events;
      AppendEmpty(e0);
      var j := 0;
      while j < |lines|
        invariant 0 <= j <= |lines| && Valid()
        invariant Snapshot() == LinesStep(s0, lines[..j], parse, newId).state
        invariant events == e0 + LinesStep(s0, lines[..j], parse, newId).events
      {
        ghost var a := LinesStep(s0, lines[..j], parse, newId);
        LinesStepPrefix(s0, lines, j, parse, newId);
        ProcessLine(lines[j], parse);
        AppendAssoc(e0, a.events, LineStep(a.state, lines[j], parse, newId).events);
        j := j + 1;
      }
      assert lines[..j] == lines;
    }

    /**
     * The read loop: appends each fragment to the buffer, processes the complete lines and
     * keeps the unfinished last one, which together with the lines done splits the text read.
     */
    method ReadUpstream(fragments: seq<string>, parse: string -> Option<StreamChunk>)
      returns (buffer: string, ghost done: seq<string>)
      requires Valid() && Snapshot() == Initial
      modifies this, controller
      ensures Valid()
      ensures done + [buffer] == Split(Concat(fragments), '\n')
      ensures Snapshot() == LinesStep(Initial, done, parse, newId).state
      ensures events == old(events) + LinesStep(Initial, done, parse, newId).events
    {
      ghost var e0 := events;
      AppendEmpty(e0);
      buffer := "";
      done := [];
      var i := 0;
      while i < |fragments|
        invariant 0 <= i <= |fragments|
        invariant Valid()
        invariant done + [buffer] == Split(Concat(fragments[..i]), '\n')
        invariant Snapshot() == LinesStep(Initial, done, parse, newId).state
        invariant events == e0 + LinesStep(Initial, done, parse, newId).events
      {
        assert fragments[..i + 1][..i] == fragments[..i];
        BufferSplit(Concat(fragments[..i]), done, buffer, fragments[i]);
        ghost var a := LinesStep(Initial, done, parse, newId);
        var rest, complete := FeedFragment(buffer, fragments[i], parse);
        LinesStepAppend(Initial, done, complete, parse, newId);
        AppendAssoc(e0, a.events, LinesStep(a.state, complete, parse, newId).events);
        AppendAssoc(done, complete, [rest]);
        buffer := rest;
        done := done + complete;
        i := i + 1;
      }
      assert fragments[..i] == fragments;
    }

    /** One read: the buffer plus the fragment, split into complete lines and a new buffer. */
    method FeedFragment(buffer: string, fragment: string, parse: string -> Option<StreamChunk>)
      returns (rest: string, ghost complete: seq<string>)
      requires Valid()
      modifies this, controller
      ensures Valid()
      ensures complete + [rest] == Split(buffer + fragment, '\n')
      ensures Snapshot() == LinesStep(old(Snapshot()), complete, parse, newId).state
      ensures events == old(events) + LinesStep(old(Snapshot()), complete, parse, newId).events
    {
      var lines := Split(buffer + fragment, '\n');
      rest := lines[|lines| - 1];
      var init := lines[..|lines| - 1];
      assert lines == init + [rest];
      ProcessLines(init, parse);
      complete := init;
    }

    /** At the end of the input, the buffered last line is processed unless it is blank. */
    method FlushBuffer(buffer: string, parse: string -> Option<StreamChunk>)
      requires Valid() && '\n' !in buffer
      modifies this, controller
      ensures Valid()
      ensures Snapshot() == LineStep(old(Snapshot()), buffer, parse, newId).state
      ensures events == old(events) + LineStep(old(Snapshot()), buffer, parse, newId).events
    {
      if Trim(buffer) != "" {
        var lines := Split(buffer, '\n');
        SplitFree(buffer, '\n');
        LinesStepOne(Snapshot(), buffer, parse, newId);
        ProcessLines(lines, parse);
      } else {
        assert DecodeLine(buffer, parse) == None;
        AppendEmpty(events);
      }
    }

    method FinishStream()
      requires Valid()
      modifies this, controller
      ensures Valid()
      ensures events == old(events) + Finish(old(Snapshot()))
    {
      ghost var s0 := Snapshot();
      ghost var e0 := events;
      AppendSources();
      ghost var a := SourcesStep(s0);
      CloseLastBlock();
      AppendAssoc(e0, a.events, CloseLast(a.state));
      assert events == e0 + FinishBody(s0);
      ghost var e1 := events;
      Emit(MessageDelta(StreamStopReason(lastFinishReason), totalInputTokens, totalOutputTokens));
      Emit(MessageStop);
      ghost var tail := [MessageDelta(StreamStopReason(s0.lastFinish), s0.inputTokens, s0.outputTokens), MessageStop];
      AppendAssoc(e1, [tail[0]], [tail[1]]);
      assert [tail[0]] + [tail[1]] == tail;
      AppendAssoc(e0, FinishBody(s0), tail);
    }

    /** With sources, the footer is sent as text, in a text block. */
    method AppendSources()
      requires Valid()
      modifies this, controller
      ensures Valid()
      ensures Snapshot() == SourcesStep(old(Snapshot())).state
      ensures events == old(events) + SourcesStep(old(Snapshot())).events
    {
      AppendEmpty(events);
      if |sources| > 0 {
        var suffix := Join(["\n\nSources:"] + SourceLines(sources), "\n");
        SourcesTextNonEmpty(sources);
        ProcessText(suffix);
      }
    }

    /** Stops whichever block is still open. */
    method CloseLastBlock()
      requires Valid()
      modifies this, controller
      ensures Valid()
      ensures Snapshot() == old(Snapshot())
      ensures events == old(events) + CloseLast(old(Snapshot()))
    {
      AppendEmpty(events);
      if isToolUse || hasStartedTextBlock {
        Emit(ContentBlockStop(contentBlockIndex));
      }
    }
  }

  lemma AppendEmpty<T>(a: seq<T>)
    ensures a + [] == a && [] + a == a
  {
  }

  /** The upstream text the fragments make up. */
  function Concat(fragments: seq<string>): string
    decreases |fragments|
  {
    if fragments == [] then "" else Concat(fragments[..|fragments| - 1]) + fragments[|fragments| - 1]
  }

  /**
   * `streamGeminiToAnthropic`: reads the upstream fragments, keeps the unfinished last
   * line in a buffer, processes complete lines as they arrive and the buffer at the end,
   * and writes the frames. Whatever the fragment boundaries, the frames are those of the
   * translation of the whole upstream text.
   */
  method StreamGeminiToAnthropic(fragments: seq<string>, model: string, now: nat,
                                 parse: string -> Option<StreamChunk>, newId: nat -> string)
    returns (output: seq<string>)
    ensures output == Frames(Translate(Concat(fragments), MessageId(now), model, parse, newId))
  {
    var controller := new Controller();
    var t := new Translator(controller, newId);
    var messageId := MessageId(now);
    t.Emit(MessageStart(messageId, model));
    ghost var e0 := t.events;
    assert e0 == [MessageStart(messageId, model)];
    var buffer, done := t.ReadUpstream(fragments, parse);
    ghost var a := LinesStep(Initial, done, parse, newId);
    assert t.events == e0 + a.events && t.Snapshot() == a.state;
    LastLine(Concat(fragments), done, buffer, parse, newId);
    t.FlushBuffer(buffer, parse);
    ghost var b := LineStep(a.state, buffer, parse, newId);
    assert t.events == (e0 + a.events) + b.events && t.Snapshot() == b.state;
    AppendAssoc(e0, a.events, b.events);
    t.FinishStream();
    output := controller.chunks;
  }

  /** Appending a fragment to the buffered last piece continues the split of the whole text. */
  lemma BufferSplit(text: string, done: seq<string>, buffer: string, fragment: string)
    requires done + [buffer] == Split(text, '\n')
    ensures done + Split(buffer + fragment, '\n') == Split(text + fragment, '\n')
  {
    var whole := done + [buffer];
    assert whole[..|whole| - 1] == done && Last(whole) == buffer;
    SplitAppend(text, fragment, '\n');
  }

  /** The buffer left at the end is the last line of the upstream text, processed as one more line. */
  lemma LastLine(text: string, done: seq<string>, buffer: string,
                 parse: string -> Option<StreamChunk>, newId: nat -> string)
    requires done + [buffer] == Split(text, '\n')
    ensures '\n' !in buffer
    ensures LinesStep(Initial, Split(text, '\n'), parse, newId)
         == var a := LinesStep(Initial, done, parse, newId);
            var b := LineStep(a.state, buffer, parse, newId);
            Step(b.state, a.events + b.events)
  {
    SplitPiecesFree(text, '\n');
    var whole := done + [buffer];
    assert whole[|whole| - 1] == buffer;
    assert whole[..|whole| - 1] == done;
  }

  /** A run of one line is that line's step. */
  lemma LinesStepOne(s: State, line: string, parse: string -> Option<StreamChunk>, newId: nat -> string)
    ensures LinesStep(s, [line], parse, newId) == LineStep(s, line, parse, newId)
  {
    assert [line][..0] == [];
    AppendEmpty(LineStep(s, line, parse, newId).events);
  }
}
