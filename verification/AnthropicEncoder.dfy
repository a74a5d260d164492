/** The Anthropic SSE encoder (AnthropicStreamEncoder in pkg/codec/anthropic.go): the frames each
    event produces, and the class that keeps the encoder fields and writes the bytes. */
module AnthropicEncoder {
  import opened Common
  import opened Events

  datatype Usage = Usage(input: int, output: int, cacheCreation: int, cacheRead: int)

  const NO_USAGE := Usage(0, 0, 0, 0)

  datatype StartKind = StartText | StartThinking | StartToolUse(id: string, name: string)

  datatype Delta =
    | Text(text: string)
    | Thinking(thinking: string)
    | Signature(signature: string)
    | InputJson(partial: string)

  // One SSE frame, named after its event line.
  datatype Frame =
    | FMessageStart(id: string, model: string, usage: Usage)
    | FBlockStart(index: int, start: StartKind)
    | FBlockDelta(index: int, delta: Delta)
    | FBlockStop(index: int)
    | FMessageDelta(stopReason: string, outputTokens: int)
    | FMessageStop
    | FError(kind: string, message: string)
  {
    function Name(): string {
      match this
      case FMessageStart(_, _, _) => "message_start"
      case FBlockStart(_, _) => "content_block_start"
      case FBlockDelta(_, _) => "content_block_delta"
      case FBlockStop(_) => "content_block_stop"
      case FMessageDelta(_, _) => "message_delta"
      case FMessageStop => "message_stop"
      case FError(_, _) => "error"
    }
  }

  // The encoder's fields; activeIndex -1 means no block is open.
  datatype Enc = Enc(id: string, model: string, started: bool, stopped: bool, activeIndex: int,
                     startedBlocks: set<int>, usage: Usage)

  datatype Out = Out(enc: Enc, frames: seq<Frame>)

  function NewEnc(id: string, model: string): Enc {
    Enc(id, model, false, false, -1, {}, NO_USAGE)
  }

  // ensureMessageStart
  function EnsureStart(e: Enc): Out {
    if e.started then Out(e, [])
    else Out(e.(started := true), [FMessageStart(e.id, e.model, e.usage)])
  }

  // stopActiveBlockIfNeeded
  function StopOther(e: Enc, i: int): Out {
    if e.activeIndex != -1 && e.activeIndex != i then Out(e.(activeIndex := -1), [FBlockStop(e.activeIndex)])
    else Out(e, [])
  }

  // The two calls every content event begins with.
  function Prepare(e: Enc, i: int): Out {
    var a := EnsureStart(e);
    var b := StopOther(a.enc, i);
    Out(b.enc, a.frames + b.frames)
  }

  function Open(e: Enc, i: int, start: StartKind): Out {
    Out(e.(startedBlocks := e.startedBlocks + {i}, activeIndex := i), [FBlockStart(i, start)])
  }

  function OpenIfNew(e: Enc, i: int, start: StartKind): Out {
    if i in e.startedBlocks then Out(e, []) else Open(e, i, start)
  }

  function EncodeDelta(e: Enc, i: int, start: StartKind, delta: Delta): Out {
    var a := Prepare(e, i);
    var b := OpenIfNew(a.enc, i, start);
    Out(b.enc, a.frames + b.frames + [FBlockDelta(i, delta)])
  }

  function StartFor(kind: string): StartKind {
    if kind == "thinking" then StartThinking
    else if kind == "tool_use" then StartToolUse("", "")
    else StartText
  }

  function MapStopReason(finish: string): string {
    if finish == "" || finish == "stop" then "end_turn"
    else if finish == "tool_calls" then "tool_use"
    else if finish == "length" then "max_tokens"
    else finish
  }

  function StopOpen(e: Enc): Out {
    if e.activeIndex != -1 then Out(e.(activeIndex := -1), [FBlockStop(e.activeIndex)]) else Out(e, [])
  }

  function EndMessage(e: Enc, stopReason: string): Out {
    Out(e.(stopped := true), [FMessageDelta(stopReason, e.usage.output), FMessageStop])
  }

  // EncodeEvent
  function Step(e: Enc, ev: Event): Out {
    match ev
    case MessageStart(id) => EnsureStart(if id != "" then e.(id := id) else e)
    case BlockStart(i, kind) =>
      var a := Prepare(e, i);
      var b := OpenIfNew(a.enc, i, StartFor(kind));
      Out(b.enc, a.frames + b.frames)
    case TextDelta(i, text) => EncodeDelta(e, i, StartText, Text(text))
    case ReasoningDelta(i, text) => EncodeDelta(e, i, StartThinking, Thinking(text))
    case ReasoningSignature(i, s) => EncodeDelta(e, i, StartThinking, Signature(s))
    case ToolCallStart(i, id, name) =>
      var a := Prepare(e, i);
      var b := Open(a.enc, i, StartToolUse(id, name));
      Out(b.enc, a.frames + b.frames)
    case ToolArgumentsDelta(i, args) => EncodeDelta(e, i, StartToolUse("", ""), InputJson(args))
    case ToolCallStop(i) =>
      if e.activeIndex == i then Out(e.(activeIndex := -1), [FBlockStop(i)]) else Out(e, [])
    case UsageUpdate(p, c, _, cc, cr) => Out(e.(usage := Usage(p, c, cc, cr)), [])
    case MessageStop(finish) =>
      if e.stopped then Out(e, [])
      else
        var a := EnsureStart(e);
        var b := StopOpen(a.enc);
        var c := EndMessage(b.enc, MapStopReason(finish));
        Out(c.enc, a.frames + b.frames + c.frames)
    case UpstreamError(kind, message) => Out(e, [FError(kind, message)])
  }

  // Close
  function CloseStep(e: Enc): Out {
    if e.stopped then Out(e, [])
    else
      var b := StopOpen(e);
      if e.started then
        var c := EndMessage(b.enc, "end_turn");
        Out(c.enc, b.frames + c.frames)
      else b
  }

  // A whole run: the events in order, then (EncodeAll only) Close.
  function EncodeRun(e0: Enc, evs: seq<Event>): Out {
    if evs == [] then Out(e0, [])
    else
      var a := EncodeRun(e0, DropLast(evs));
      var b := Step(a.enc, Last(evs));
      Out(b.enc, a.frames + b.frames)
  }

  function EncodeAll(e0: Enc, evs: seq<Event>): Out {
    var a := EncodeRun(e0, evs);
    var b := CloseStep(a.enc);
    Out(b.enc, a.frames + b.frames)
  }

  /** The encoder object.  `w` is what has been written to the underlying writer, one frame for each
      formatted write (AnthropicDecoder.RenderAll is its text); writes always succeed here. */
  class AnthropicStreamEncoder {
    var w: seq<Frame>
    var model: string
    var id: string
    var started: bool
    var stopped: bool
    var activeBlockIndex: int
    var startedBlocks: set<int>
    var usage: Usage

    ghost function State(): Enc
      reads this
    {
      Enc(id, model, started, stopped, activeBlockIndex, startedBlocks, usage)
    }

    // Everything written so far is `before` followed by the frames of `o`, and the fields are those of `o`.
    ghost predicate Did(before: seq<Frame>, o: Out)
      reads this
    {
      State() == o.enc && w == before + o.frames
    }

    constructor (model: string, id: string)
      ensures Did([], Out(NewEnc(id, model), []))
    {
      this.model, this.id := model, id;
      w, started, stopped, activeBlockIndex, startedBlocks, usage := [], false, false, -1, {}, NO_USAGE;
    }

    method Emit(f: Frame)
      modifies this`w
      ensures w == old(w) + [f]
    {
      w := w + [f];
    }

    method EnsureMessageStart()
      modifies this
      ensures Did(old(w), EnsureStart(old(State())))
    {
      if started {
        return;
      }
      started := true;
      Emit(FMessageStart(id, model, usage));
    }

    method StopActiveBlockIfNeeded(newIndex: int)
      modifies this
      ensures Did(old(w), StopOther(old(State()), newIndex))
    {
      if activeBlockIndex != -1 && activeBlockIndex != newIndex {
        Emit(FBlockStop(activeBlockIndex));
        activeBlockIndex := -1;
      }
    }

    method PrepareBlock(index: int)
      modifies this
      ensures Did(old(w), Prepare(old(State()), index))
    {
      EnsureMessageStart();
      StopActiveBlockIfNeeded(index);
    }

    method OpenBlock(index: int, start: StartKind)
      modifies this
      ensures Did(old(w), Open(old(State()), index, start))
    {
      startedBlocks := startedBlocks + {index};
      activeBlockIndex := index;
      Emit(FBlockStart(index, start));
    }

    method OpenBlockIfNew(index: int, start: StartKind)
      modifies this
      ensures Did(old(w), OpenIfNew(old(State()), index, start))
    {
      if index !in startedBlocks {
        OpenBlock(index, start);
      }
    }

    method EmitDelta(index: int, start: StartKind, delta: Delta)
      modifies this
      ensures Did(old(w), EncodeDelta(old(State()), index, start, delta))
    {
      ghost var a := Prepare(State(), index);
      ghost var b := OpenIfNew(a.enc, index, start);
      PrepareBlock(index);
      OpenBlockIfNew(index, start);
      Emit(FBlockDelta(index, delta));
    }

    method FinishMessage(stopReason: string)
      modifies this
      ensures Did(old(w), EndMessage(old(State()), stopReason))
    {
      Emit(FMessageDelta(stopReason, usage.output));
      stopped := true;
      Emit(FMessageStop);
    }

    method StopOpenBlock()
      modifies this
      ensures Did(old(w), StopOpen(old(State())))
    {
      if activeBlockIndex != -1 {
        Emit(FBlockStop(activeBlockIndex));
        activeBlockIndex := -1;
      }
    }

    method StartBlockEvent(index: int, kind: string)
      modifies this
      ensures Did(old(w), Step(old(State()), BlockStart(index, kind)))
    {
      ghost var a := Prepare(State(), index);
      PrepareBlock(index);
      OpenBlockIfNew(index, StartFor(kind));
    }

    method ToolCallStartEvent(index: int, toolId: string, name: string)
      modifies this
      ensures Did(old(w), Step(old(State()), ToolCallStart(index, toolId, name)))
    {
      ghost var a := Prepare(State(), index);
      PrepareBlock(index);
      OpenBlock(index, StartToolUse(toolId, name));
    }

    method MessageStopEvent(finish: string)
      modifies this
      ensures Did(old(w), Step(old(State()), MessageStop(finish)))
    {
      if stopped {
        return;
      }
      ghost var a := EnsureStart(State());
      ghost var b := StopOpen(a.enc);
      ghost var c := EndMessage(b.enc, MapStopReason(finish));
      EnsureMessageStart();
      StopOpenBlock();
      FinishMessage(MapStopReason(finish));
    }

    method EncodeEvent(ev: Event)
      modifies this
      ensures Did(old(w), Step(old(State()), ev))
    {
      match ev {
        case MessageStart(newId) =>
          if newId != "" {
            id := newId;
          }
          EnsureMessageStart();
        case BlockStart(i, kind) => StartBlockEvent(i, kind);
        case TextDelta(i, text) => EmitDelta(i, StartText, Text(text));
        case ReasoningDelta(i, text) => EmitDelta(i, StartThinking, Thinking(text));
        case ReasoningSignature(i, s) => EmitDelta(i, StartThinking, Signature(s));
        case ToolCallStart(i, toolId, name) => ToolCallStartEvent(i, toolId, name);
        case ToolArgumentsDelta(i, args) => EmitDelta(i, StartToolUse("", ""), InputJson(args));
        case ToolCallStop(i) =>
          if activeBlockIndex == i {
            activeBlockIndex := -1;
            Emit(FBlockStop(i));
          }
        case UsageUpdate(p, c, _, cc, cr) => usage := Usage(p, c, cc, cr);
        case MessageStop(finish) => MessageStopEvent(finish);
        case UpstreamError(kind, message) => Emit(FError(kind, message));
      }
    }

    method Close()
      modifies this
      ensures Did(old(w), CloseStep(old(State())))
    {
      if stopped {
        return;
      }
      ghost var b := StopOpen(State());
      StopOpenBlock();
      if started {
        FinishMessage("end_turn");
      }
    }

    /** A whole stream: every event in order, then Close. */
    method EncodeStream(evs: seq<Event>)
      modifies this
      ensures Did(old(w), EncodeAll(old(State()), evs))
    {
      EncodeEvents(evs);
      Close();
    }

    method EncodeEvents(evs: seq<Event>)
      modifies this
      ensures Did(old(w), EncodeRun(old(State()), evs))
    {
      ghost var e0, w0 := State(), w;
      var k := 0;
      while k < |evs|
        invariant 0 <= k <= |evs|
        invariant Did(w0, EncodeRun(e0, evs[..k]))
      {
        ghost var w1 := w;
        EncodeEvent(evs[k]);
        EncodeRunNext(e0, evs, k, w0, w1, w);
        k := k + 1;
      }
      assert evs[..k] == evs;
    }
  }

  lemma {:induction false} EncodeRunNext(e0: Enc, evs: seq<Event>, k: nat, w0: seq<Frame>, w1: seq<Frame>, w2: seq<Frame>)
    requires k < |evs|
    requires w1 == w0 + EncodeRun(e0, evs[..k]).frames
    requires w2 == w1 + Step(EncodeRun(e0, evs[..k]).enc, evs[k]).frames
    ensures EncodeRun(e0, evs[..k + 1]).enc == Step(EncodeRun(e0, evs[..k]).enc, evs[k]).enc
    ensures w2 == w0 + EncodeRun(e0, evs[..k + 1]).frames
  {
    var a := EncodeRun(e0, evs[..k]);
    var b := Step(a.enc, evs[k]);
    assert DropLast(evs[..k + 1]) == evs[..k] && Last(evs[..k + 1]) == evs[k];
    assert EncodeRun(e0, evs[..k + 1]) == Out(b.enc, a.frames + b.frames);
    AppendAssoc(w0, a.frames, b.frames);
  }
}
