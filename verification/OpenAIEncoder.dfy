/** The OpenAI SSE encoder (OpenAIStreamEncoder in pkg/codec/openai.go): the chunks each event produces and
    the class that keeps the encoder fields. */
module OpenAIEncoder {
  import opened Common
  import opened Events

  datatype ToolDelta = ToolDelta(index: int, id: string, name: string, arguments: string)

  datatype Usage = Usage(prompt: int, completion: int, total: int)

  // One data line.
  datatype Chunk =
    | Delta(id: string, role: string, content: string, reasoning: string, tools: seq<ToolDelta>, finish: Option<string>)
    | UsageChunk(id: string, usage: Usage)
    | ErrorChunk(kind: string, message: string)
    | Done

  datatype Enc = Enc(id: string, includeUsage: bool, started: bool, sawToolCalls: bool, stopped: bool, closed: bool,
                     lastUsage: Option<Usage>)

  datatype Out = Out(enc: Enc, chunks: seq<Chunk>)

  function NewEnc(id: string, includeUsage: bool): Enc {
    Enc(id, includeUsage, false, false, false, false, None)
  }

  function RoleChunk(id: string): Chunk {
    Delta(id, "assistant", "", "", [], None)
  }

  function EnsureStart(e: Enc): Out {
    if e.started then Out(e, []) else Out(e.(started := true), [RoleChunk(e.id)])
  }

  function StartThen(e: Enc, c: Chunk): Out {
    var a := EnsureStart(e);
    Out(a.enc, a.chunks + [c])
  }

  function FinishReason(sawToolCalls: bool, finish: string): string {
    if sawToolCalls then "tool_calls"
    else if finish == "" then "stop"
    else if finish == "tool_use" then "tool_calls"
    else if finish == "stop" || finish == "end_turn" then "stop"
    else if finish == "max_tokens" then "length"
    else finish
  }

  // EncodeEvent
  function Step(e: Enc, ev: Event): Out {
    match ev
    case MessageStart(id) => EnsureStart(if id != "" then e.(id := id) else e)
    case TextDelta(_, s) => StartThen(e, Delta(e.id, "", s, "", [], None))
    case ReasoningDelta(_, s) => StartThen(e, Delta(e.id, "", "", s, [], None))
    case ToolCallStart(i, id, name) =>
      StartThen(e.(sawToolCalls := true), Delta(e.id, "", "", "", [ToolDelta(i, id, name, "")], None))
    case ToolArgumentsDelta(i, args) => Out(e, [Delta(e.id, "", "", "", [ToolDelta(i, "", "", args)], None)])
    case UsageUpdate(p, c, t, _, _) => Out(e.(lastUsage := Some(Usage(p, c, t))), [])
    case MessageStop(finish) =>
      if e.stopped then Out(e, [])
      else Out(e.(stopped := true), [Delta(e.id, "", "", "", [], Some(FinishReason(e.sawToolCalls, finish)))])
    case UpstreamError(kind, message) => Out(e, [ErrorChunk(kind, message)])
    case BlockStart(_, _) => Out(e, [])
    case ReasoningSignature(_, _) => Out(e, [])
    case ToolCallStop(_) => Out(e, [])
  }

  // Close
  function CloseStep(e: Enc): Out {
    if e.closed then Out(e, [])
    else
      Out(e.(closed := true),
          (if e.includeUsage && e.lastUsage.Some? then [UsageChunk(e.id, e.lastUsage.value)] else []) + [Done])
  }

  function EncodeRun(e0: Enc, evs: seq<Event>): Out {
    if evs == [] then Out(e0, [])
    else
      var a := EncodeRun(e0, DropLast(evs));
      var b := Step(a.enc, Last(evs));
      Out(b.enc, a.chunks + b.chunks)
  }

  function EncodeAll(e0: Enc, evs: seq<Event>): Out {
    var a := EncodeRun(e0, evs);
    var b := CloseStep(a.enc);
    Out(b.enc, a.chunks + b.chunks)
  }

  /** The encoder object; `w` is what has been written, one chunk per data line.  Writes always succeed. */
  class OpenAIStreamEncoder {
    const includeUsage: bool
    var w: seq<Chunk>
    var id: string
    var started: bool
    var sawToolCalls: bool
    var stopped: bool
    var closed: bool
    var lastUsage: Option<Usage>

    ghost function State(): Enc
      reads this
    {
      Enc(id, includeUsage, started, sawToolCalls, stopped, closed, lastUsage)
    }

    ghost predicate Did(before: seq<Chunk>, o: Out)
      reads this
    {
      State() == o.enc && w == before + o.chunks
    }

    constructor (id: string, includeUsage: bool)
      ensures Did([], Out(NewEnc(id, includeUsage), []))
    {
      this.id, this.includeUsage := id, includeUsage;
      w, started, sawToolCalls, stopped, closed, lastUsage := [], false, false, false, false, None;
    }

    method WriteDelta(role: string, content: string, reasoning: string, tools: seq<ToolDelta>, finish: Option<string>)
      modifies this`w
      ensures w == old(w) + [Delta(id, role, content, reasoning, tools, finish)]
    {
      w := w + [Delta(id, role, content, reasoning, tools, finish)];
    }

    method StartIfNeeded()
      modifies this
      ensures Did(old(w), EnsureStart(old(State())))
    {
      if !started {
        started := true;
        WriteDelta("assistant", "", "", [], None);
      }
    }

    method EncodeEvent(ev: Event)
      modifies this
      ensures Did(old(w), Step(old(State()), ev))
    {
      match ev {
        case MessageStart(newId) =>
          if newId != "" {
            id := newId;
          }
          StartIfNeeded();
        case TextDelta(_, s) =>
          StartIfNeeded();
          WriteDelta("", s, "", [], None);
        case ReasoningDelta(_, s) =>
          StartIfNeeded();
          WriteDelta("", "", s, [], None);
        case ToolCallStart(i, toolId, name) =>
          sawToolCalls := true;
          StartIfNeeded();
          WriteDelta("", "", "", [ToolDelta(i, toolId, name, "")], None);
        case ToolArgumentsDelta(i, args) =>
          WriteDelta("", "", "", [ToolDelta(i, "", "", args)], None);
        case UsageUpdate(p, c, t, _, _) =>
          lastUsage := Some(Usage(p, c, t));
        case MessageStop(finish) =>
          if !stopped {
            stopped := true;
            WriteDelta("", "", "", [], Some(FinishReason(sawToolCalls, finish)));
          }
        case UpstreamError(kind, message) =>
          w := w + [ErrorChunk(kind, message)];
        case _ =>
      }
    }

    method Close()
      modifies this
      ensures Did(old(w), CloseStep(old(State())))
    {
      if closed {
        return;
      }
      closed := true;
      if includeUsage && lastUsage.Some? {
        w := w + [UsageChunk(id, lastUsage.value)];
      }
      w := w + [Done];
    }
  }
}
