/** The rest of what an Anthropic stream decodes to: message id, model, role and token usage (pkg/codec/anthropic.go,
    pkg/spikes/anthropic/decoder.go). */
module StreamHeader {
  import opened Common
  import opened Events
  import opened AnthropicEncoder
  import opened AnthropicDecoder
  import F = FinishReasons

  // ---------------------------------------------------------------- what the events say

  // The id last given by a MessageStart.
  function IdOf(id: string, evs: seq<Event>): string {
    if evs == [] then id
    else if Last(evs).MessageStart? && Last(evs).id != "" then Last(evs).id
    else IdOf(id, DropLast(evs))
  }

  // The usage last reported.
  function UsageOf(evs: seq<Event>): Usage {
    if evs == [] then NO_USAGE
    else if Last(evs).UsageUpdate? then
      Usage(Last(evs).prompt, Last(evs).completion, Last(evs).cacheCreation, Last(evs).cacheRead)
    else UsageOf(DropLast(evs))
  }

  // The index of the event that opens the message, |evs| when there is none.
  function OpenAt(evs: seq<Event>): (k: nat)
    ensures k <= |evs|
  {
    if evs == [] then 0
    else
      var k := OpenAt(DropLast(evs));
      if k < |evs| - 1 || Last(evs).OpensMessage() then k else |evs|
  }

  lemma {:induction false} OpenAtIs(evs: seq<Event>)
    ensures OpenAt(evs) < |evs| <==> Opened(evs)
    ensures OpenAt(evs) < |evs| ==> evs[OpenAt(evs)].OpensMessage()
    ensures forall j :: 0 <= j < OpenAt(evs) ==> !evs[j].OpensMessage()
    decreases |evs|
  {
    if evs != [] {
      var front := DropLast(evs);
      OpenAtIs(front);
      OpenedLast(evs);
      assert forall j :: 0 <= j < |front| ==> front[j] == evs[j];
      assert evs[|evs| - 1] == Last(evs);
    }
  }

  // ---------------------------------------------------------------- what the frames say

  datatype Header = Header(id: string, model: string, role: string, usage: Usage)

  const NO_HEADER := Header("", "", "", NO_USAGE)

  function HeaderOf(d: State): Header {
    Header(d.messageId, d.model, d.role, d.usage)
  }

  // Without its output the usage of a message_delta is zero.
  function OutputOnly(output: int): Usage {
    Usage(0, output, 0, 0)
  }

  function See(h: Header, f: Frame): Header {
    match f
    case FMessageStart(id, model, usage) => Header(id, model, "assistant", AddUsage(h.usage, usage))
    case FMessageDelta(_, output) => h.(usage := AddUsage(h.usage, OutputOnly(output)))
    case _ => h
  }

  function SeeAll(h: Header, fs: seq<Frame>): Header
    decreases |fs|
  {
    if fs == [] then h else SeeAll(See(h, fs[0]), fs[1..])
  }

  lemma {:induction false} SeeConcat(h: Header, a: seq<Frame>, b: seq<Frame>)
    ensures SeeAll(h, a + b) == SeeAll(SeeAll(h, a), b)
    decreases |a|
  {
    if a == [] {
      assert a + b == b;
    } else {
      assert (a + b)[0] == a[0] && (a + b)[1..] == a[1..] + b;
      SeeConcat(See(h, a[0]), a[1..], b);
    }
  }

  lemma {:induction false} SeeOne(h: Header, f: Frame)
    ensures SeeAll(h, [f]) == See(h, f)
  {
    assert [f][1..] == [];
  }

  lemma {:induction false} HandledHeader(d: State, fs: seq<Frame>)
    ensures HeaderOf(HandleFrames(d, fs)) == SeeAll(HeaderOf(d), fs)
    decreases |fs|
  {
    if fs != [] {
      HandledHeader(HandleFrame(d, fs[0]), fs[1..]);
    }
  }

  predicate Plain(f: Frame) {
    !f.FMessageStart? && !f.FMessageDelta?
  }

  lemma {:induction false} SeePlain(h: Header, fs: seq<Frame>)
    requires forall f :: f in fs ==> Plain(f)
    ensures SeeAll(h, fs) == h
    decreases |fs|
  {
    if fs != [] {
      assert Plain(fs[0]);
      SeePlain(h, fs[1..]);
    }
  }

  lemma {:induction false} SeeStart(h: Header, e: Enc)
    ensures SeeAll(h, EnsureStart(e).frames) == if e.started then h else Header(e.id, e.model, "assistant", AddUsage(h.usage, e.usage))
  {
    SeeOne(h, FMessageStart(e.id, e.model, e.usage));
  }

  lemma {:induction false} SeePrepare(h: Header, e: Enc, i: int)
    ensures SeeAll(h, Prepare(e, i).frames) == SeeAll(h, EnsureStart(e).frames)
  {
    var a := EnsureStart(e);
    SeeConcat(h, a.frames, StopOther(a.enc, i).frames);
    SeePlain(SeeAll(h, a.frames), StopOther(a.enc, i).frames);
  }

  // After the start, a content event writes nothing that concerns the header.
  lemma {:induction false} SeeDelta(h: Header, e: Enc, i: int, start: StartKind, delta: Delta)
    ensures SeeAll(h, EncodeDelta(e, i, start, delta).frames) == SeeAll(h, EnsureStart(e).frames)
  {
    var a := Prepare(e, i);
    var b := OpenIfNew(a.enc, i, start);
    SeePrepare(h, e, i);
    SeeConcat(h, a.frames, b.frames);
    SeePlain(SeeAll(h, a.frames), b.frames);
    SeeConcat(h, a.frames + b.frames, [FBlockDelta(i, delta)]);
    SeeOne(SeeAll(h, a.frames), FBlockDelta(i, delta));
  }

  lemma {:induction false} SeeContent(h: Header, e: Enc, ev: Event)
    requires ev.IsContent()
    ensures SeeAll(h, Step(e, ev).frames) == SeeAll(h, EnsureStart(e).frames)
  {
    match ev
    case TextDelta(i, s) => SeeDelta(h, e, i, StartText, Text(s));
    case ReasoningDelta(i, s) => SeeDelta(h, e, i, StartThinking, Thinking(s));
    case ReasoningSignature(i, s) => SeeDelta(h, e, i, StartThinking, Signature(s));
    case ToolArgumentsDelta(i, s) => SeeDelta(h, e, i, StartToolUse("", ""), InputJson(s));
    case BlockStart(i, kind) =>
      var a := Prepare(e, i);
      var b := OpenIfNew(a.enc, i, StartFor(kind));
      SeePrepare(h, e, i);
      SeeConcat(h, a.frames, b.frames);
      SeePlain(SeeAll(h, a.frames), b.frames);
    case ToolCallStart(i, id, name) =>
      var a := Prepare(e, i);
      SeePrepare(h, e, i);
      SeeConcat(h, a.frames, [FBlockStart(i, StartToolUse(id, name))]);
      SeeOne(SeeAll(h, a.frames), FBlockStart(i, StartToolUse(id, name)));
  }

  lemma {:induction false} SeeEnd(h: Header, e: Enc, reason: string)
    ensures SeeAll(h, StopOpen(e).frames + EndMessage(StopOpen(e).enc, reason).frames)
         == h.(usage := AddUsage(h.usage, OutputOnly(e.usage.output)))
  {
    var b := StopOpen(e);
    var c := EndMessage(b.enc, reason);
    SeeConcat(h, b.frames, c.frames);
    SeePlain(h, b.frames);
    assert c.frames == [c.frames[0]] + [FMessageStop];
    SeeConcat(h, [c.frames[0]], [FMessageStop]);
    SeeOne(h, c.frames[0]);
    SeeOne(See(h, c.frames[0]), FMessageStop);
  }

  lemma {:induction false} StepHeader(h: Header, e: Enc, ev: Event)
    ensures var due := e.(id := if ev.MessageStart? && ev.id != "" then ev.id else e.id);
            var started := if ev.OpensMessage() && !(ev.MessageStop? && e.stopped) then SeeAll(h, EnsureStart(due).frames) else h;
      SeeAll(h, Step(e, ev).frames)
      == if ev.MessageStop? && !e.stopped then started.(usage := AddUsage(started.usage, OutputOnly(e.usage.output))) else started
  {
    if ev.IsContent() {
      SeeContent(h, e, ev);
    } else if ev.MessageStop? && !e.stopped {
      var a := EnsureStart(e);
      var b := StopOpen(a.enc);
      var c := EndMessage(b.enc, MapStopReason(ev.finishReason));
      AppendAssoc(a.frames, b.frames, c.frames);
      SeeConcat(h, a.frames, b.frames + c.frames);
      SeeEnd(SeeAll(h, a.frames), a.enc, MapStopReason(ev.finishReason));
    } else if !ev.MessageStart? {
      SeePlain(h, Step(e, ev).frames);
    }
  }

  // ---------------------------------------------------------------- runs

  function Upto(evs: seq<Event>, k: nat): seq<Event> {
    if k <= |evs| then evs[..k] else evs
  }

  // The header of the open message, with the output reported at its first stop, if there is one.
  function Expected(id: string, model: string, evs: seq<Event>): Header {
    var k, n := OpenAt(evs), F.StopAt(evs);
    if k == |evs| then NO_HEADER
    else
      var first := UsageOf(evs[..k]);
      Header(IdOf(id, evs[..k + 1]), model, "assistant",
             if n < |evs| then AddUsage(first, OutputOnly(UsageOf(evs[..n]).output)) else first)
  }

  predicate Says(e: Enc, h: Header, id: string, model: string, evs: seq<Event>) {
    && e.id == IdOf(id, evs) && e.model == model && e.usage == UsageOf(evs)
    && (e.started <==> OpenAt(evs) < |evs|) && (e.stopped <==> F.StopAt(evs) < |evs|) && (e.stopped ==> e.started)
    && h == Expected(id, model, evs)
  }

  lemma {:induction false} StepNames(e: Enc, ev: Event)
    ensures Step(e, ev).enc.model == e.model
    ensures Step(e, ev).enc.id == if ev.MessageStart? && ev.id != "" then ev.id else e.id
  {
  }

  lemma {:induction false} StepUsage(e: Enc, ev: Event)
    ensures Step(e, ev).enc.usage
         == if ev.UsageUpdate? then Usage(ev.prompt, ev.completion, ev.cacheCreation, ev.cacheRead) else e.usage
  {
  }

  lemma {:induction false} StopOpens(evs: seq<Event>)
    ensures F.StopAt(evs) < |evs| ==> OpenAt(evs) <= F.StopAt(evs)
    decreases |evs|
  {
    if evs != [] {
      StopOpens(DropLast(evs));
    }
  }

  lemma {:induction false} ExpectedNext(id: string, model: string, evs: seq<Event>)
    requires evs != []
    ensures var front, ev := DropLast(evs), Last(evs); var h := Expected(id, model, front);
            var wasOpen, wasStopped := OpenAt(front) < |front|, F.StopAt(front) < |front|;
            var first := if ev.OpensMessage() && !wasOpen then
                           Header(IdOf(id, evs), model, "assistant", UsageOf(front)) else h;
      Expected(id, model, evs)
      == if ev.MessageStop? && !wasStopped then first.(usage := AddUsage(first.usage, OutputOnly(UsageOf(front).output))) else first
  {
    var front := DropLast(evs);
    StopOpens(front);
    assert evs[..|evs|] == evs && evs[..|front|] == front;
    assert forall k :: 0 <= k <= |front| ==> evs[..k] == front[..k];
  }

  lemma {:induction false} RunSays(id: string, model: string, evs: seq<Event>)
    ensures Says(EncodeRun(NewEnc(id, model), evs).enc, SeeAll(NO_HEADER, EncodeRun(NewEnc(id, model), evs).frames), id, model, evs)
    decreases |evs|
  {
    if evs != [] {
      var front, ev := DropLast(evs), Last(evs);
      var r := EncodeRun(NewEnc(id, model), front);
      RunSays(id, model, front);
      SeeConcat(NO_HEADER, r.frames, Step(r.enc, ev).frames);
      StepSays(r.enc, SeeAll(NO_HEADER, r.frames), id, model, evs);
    }
  }

  lemma {:induction false} StepSays(e: Enc, h: Header, id: string, model: string, evs: seq<Event>)
    requires evs != [] && Says(e, h, id, model, DropLast(evs))
    ensures Says(Step(e, Last(evs)).enc, SeeAll(h, Step(e, Last(evs)).frames), id, model, evs)
  {
    var ev := Last(evs);
    StepNames(e, ev);
    StepUsage(e, ev);
    F.AnthropicFlags(e, ev);
    StepHeader(h, e, ev);
    SeeStart(h, e.(id := if ev.MessageStart? && ev.id != "" then ev.id else e.id));
    ExpectedNext(id, model, evs);
  }

  /** What the decoder is to know of the message of a closed stream: the id last given up to the event that opens it, the
      model, and as usage what had been reported by then, plus once more the output tokens reported by the first stop (or by
      the end). */
  ghost predicate Reports(h: Header, id: string, model: string, evs: seq<Event>) {
    if Opened(evs) then
      && h.id == IdOf(id, Upto(evs, OpenAt(evs) + 1)) && h.model == model && h.role == "assistant"
      && h.usage == Total(UsageOf(Upto(evs, OpenAt(evs))), UsageOf(Upto(evs, F.StopAt(evs))))
    else h == NO_HEADER
  }

  lemma {:induction false} ClosedHeader(id: string, model: string, evs: seq<Event>)
    ensures Reports(SeeAll(NO_HEADER, EncodeAll(NewEnc(id, model), evs).frames), id, model, evs)
  {
    var a := EncodeRun(NewEnc(id, model), evs);
    RunSays(id, model, evs);
    SeeConcat(NO_HEADER, a.frames, CloseStep(a.enc).frames);
    CloseHeader(a.enc, SeeAll(NO_HEADER, a.frames));
    ExpectedReports(id, model, evs);
  }

  lemma {:induction false} ExpectedReports(id: string, model: string, evs: seq<Event>)
    ensures var h := Expected(id, model, evs);
      Reports(if OpenAt(evs) < |evs| && F.StopAt(evs) == |evs| then h.(usage := AddUsage(h.usage, OutputOnly(UsageOf(evs).output)))
              else h, id, model, evs)
  {
    OpenAtIs(evs);
    StopOpens(evs);
    assert evs[..|evs|] == evs;
  }

  /** So it does, through the bytes. */
  lemma {:induction false} HeaderIs(marshal: Frame -> string, unmarshal: string -> Option<Raw>, id: string, model: string, evs: seq<Event>)
    requires JsonContract(marshal, unmarshal)
    ensures var r := DecodeText(unmarshal, RenderAll(marshal, EncodeAll(NewEnc(id, model), evs).frames));
      r.Decoded? && Reports(HeaderOf(r.state), id, model, evs)
  {
    var frames := EncodeAll(NewEnc(id, model), evs).frames;
    BytesToFrames(marshal, unmarshal, frames);
    HandledHeader(FRESH_STATE, frames);
    ClosedHeader(id, model, evs);
  }

  lemma {:induction false} CloseHeader(e: Enc, h: Header)
    ensures SeeAll(h, CloseStep(e).frames)
         == if e.started && !e.stopped then h.(usage := AddUsage(h.usage, OutputOnly(e.usage.output))) else h
  {
    if e.started && !e.stopped {
      SeeEnd(h, e, "end_turn");
    } else {
      SeePlain(h, CloseStep(e).frames);
    }
  }

  // ---------------------------------------------------------------- what becomes of the usage

  // Input and cache tokens as first reported, output tokens as first and as last reported.
  function Total(first: Usage, last: Usage): Usage {
    Usage(first.input, first.output + last.output, first.cacheCreation, first.cacheRead)
  }

  /** The decoded usage is the one last reported exactly when the input and cache tokens last reported were known when the
      message opened, and no output tokens were, or else their number has changed by as many since the first stop. */
  lemma {:induction false} UsageSurvivesIff(marshal: Frame -> string, unmarshal: string -> Option<Raw>,
                                            id: string, model: string, evs: seq<Event>)
    requires JsonContract(marshal, unmarshal) && Opened(evs)
    ensures var r := DecodeText(unmarshal, RenderAll(marshal, EncodeAll(NewEnc(id, model), evs).frames));
            var first, stop, last := UsageOf(Upto(evs, OpenAt(evs))), UsageOf(Upto(evs, F.StopAt(evs))), UsageOf(evs);
      r.Decoded? &&
      (r.state.usage == last
       <==> (first.input, first.cacheCreation, first.cacheRead) == (last.input, last.cacheCreation, last.cacheRead)
            && first.output == last.output - stop.output)
  {
    HeaderIs(marshal, unmarshal, id, model, evs);
  }

  /** Reported before the message opens, output tokens are counted twice. */
  lemma {:induction false} OutputCountsTwice(marshal: Frame -> string, unmarshal: string -> Option<Raw>, id: string, model: string)
    requires JsonContract(marshal, unmarshal)
    ensures var evs := [UsageUpdate(10, 5, 15, 0, 0), MessageStop("stop")];
            var r := DecodeText(unmarshal, RenderAll(marshal, EncodeAll(NewEnc(id, model), evs).frames));
      r.Decoded? && UsageOf(evs) == Usage(10, 5, 0, 0) && r.state.usage == Usage(10, 10, 0, 0)
  {
    var evs := [UsageUpdate(10, 5, 15, 0, 0), MessageStop("stop")];
    UsageFirst(evs);
    UsageIs(marshal, unmarshal, id, model, evs, 1);
  }

  lemma {:induction false} UsageFirst(evs: seq<Event>)
    requires evs == [UsageUpdate(10, 5, 15, 0, 0), MessageStop("stop")]
    ensures OpenAt(evs) == 1 && F.StopAt(evs) == 1 && UsageOf(evs[..1]) == Usage(10, 5, 0, 0) == UsageOf(evs)
  {
    var front := DropLast(evs);
    assert front == [UsageUpdate(10, 5, 15, 0, 0)] == evs[..1] && DropLast(front) == [];
  }

  /** Reported after it has opened, input tokens are lost. */
  lemma {:induction false} LateInputIsLost(marshal: Frame -> string, unmarshal: string -> Option<Raw>, id: string, model: string)
    requires JsonContract(marshal, unmarshal)
    ensures var evs := [MessageStart("m"), UsageUpdate(10, 5, 15, 0, 0), MessageStop("stop")];
            var r := DecodeText(unmarshal, RenderAll(marshal, EncodeAll(NewEnc(id, model), evs).frames));
      r.Decoded? && UsageOf(evs) == Usage(10, 5, 0, 0) && r.state.usage == Usage(0, 5, 0, 0)
  {
    var evs := [MessageStart("m"), UsageUpdate(10, 5, 15, 0, 0), MessageStop("stop")];
    UsageLater(evs);
    UsageIs(marshal, unmarshal, id, model, evs, 0);
  }

  // The usage of a stream whose event k opens its message.
  lemma {:induction false} UsageIs(marshal: Frame -> string, unmarshal: string -> Option<Raw>, id: string, model: string, evs: seq<Event>, k: nat)
    requires JsonContract(marshal, unmarshal) && k < |evs| && evs[k].OpensMessage()
    ensures var r := DecodeText(unmarshal, RenderAll(marshal, EncodeAll(NewEnc(id, model), evs).frames));
      r.Decoded? && r.state.usage == Total(UsageOf(Upto(evs, OpenAt(evs))), UsageOf(Upto(evs, F.StopAt(evs))))
  {
    HeaderIs(marshal, unmarshal, id, model, evs);
  }

  lemma {:induction false} UsageLater(evs: seq<Event>)
    requires evs == [MessageStart("m"), UsageUpdate(10, 5, 15, 0, 0), MessageStop("stop")]
    ensures OpenAt(evs) == 0 && F.StopAt(evs) == 2
    ensures UsageOf(evs[..0]) == NO_USAGE && UsageOf(evs[..2]) == Usage(10, 5, 0, 0) == UsageOf(evs)
  {
    var two := DropLast(evs);
    var one := DropLast(two);
    assert two == evs[..2] == [MessageStart("m"), UsageUpdate(10, 5, 15, 0, 0)];
    assert one == [MessageStart("m")] && DropLast(one) == [] && evs[..0] == [];
    assert OpenAt(one) == 0 && F.StopAt(one) == 1;
    assert OpenAt(two) == 0 && F.StopAt(two) == 2 && UsageOf(two) == Usage(10, 5, 0, 0);
  }
}
