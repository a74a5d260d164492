/** The finish reasons the two clients are told, and when they correspond (pkg/codec/openai.go, pkg/codec/anthropic.go). */
module FinishReasons {
  import opened Common
  import opened Events
  import opened ClientObservation
  import A = AnthropicEncoder
  import O = OpenAIEncoder

  // ---------------------------------------------------------------- what is written between the stops

  lemma {:induction false} SilentFrames(o: Observed, fs: seq<A.Frame>)
    requires forall f :: f in fs ==> !f.FMessageDelta?
    ensures SeeFrames(o, fs).finish == o.finish
    decreases |fs|
  {
    if fs != [] {
      SilentFrames(SeeFrame(o, fs[0]), fs[1..]);
    }
  }

  predicate Silent(c: O.Chunk) {
    c.Delta? ==> c.finish.None?
  }

  lemma {:induction false} SilentChunks(o: Observed, cs: seq<O.Chunk>)
    requires forall c :: c in cs ==> Silent(c)
    ensures SeeChunks(o, cs).finish == o.finish
    decreases |cs|
  {
    if cs != [] {
      assert Silent(cs[0]);
      SilentChunks(SeeChunk(o, cs[0]), cs[1..]);
    }
  }

  lemma {:induction false} EndOfMessage(o: Observed, fs: seq<A.Frame>, reason: string, output: int)
    requires (forall f :: f in fs ==> !f.FMessageDelta?) && reason != ""
    ensures SeeFrames(o, fs + [A.FMessageDelta(reason, output), A.FMessageStop]).finish == reason
  {
    var last := [A.FMessageDelta(reason, output), A.FMessageStop];
    SeeFramesConcat(o, fs, last);
    var seen := SeeFrames(o, fs);
    assert last[1..] == [A.FMessageStop];
    SilentFrames(SeeFrame(seen, last[0]), [A.FMessageStop]);
  }

  lemma {:induction false} AnthropicStepReason(e: A.Enc, o: Observed, ev: Event)
    ensures SeeFrames(o, A.Step(e, ev).frames).finish
         == if ev.MessageStop? && !e.stopped then A.MapStopReason(ev.finishReason) else o.finish
  {
    if ev.MessageStop? && !e.stopped {
      var a := A.EnsureStart(e);
      var b := A.StopOpen(a.enc);
      EndOfMessage(o, a.frames + b.frames, A.MapStopReason(ev.finishReason), e.usage.output);
      assert A.Step(e, ev).frames
          == a.frames + b.frames + [A.FMessageDelta(A.MapStopReason(ev.finishReason), e.usage.output), A.FMessageStop];
    } else {
      SilentFrames(o, A.Step(e, ev).frames);
    }
  }

  lemma {:induction false} OpenAIStepReason(e: O.Enc, o: Observed, ev: Event)
    ensures SeeChunks(o, O.Step(e, ev).chunks).finish
         == if ev.MessageStop? && !e.stopped then O.FinishReason(e.sawToolCalls, ev.finishReason) else o.finish
  {
    if ev.MessageStop? && !e.stopped {
      SeeOne(o, O.Step(e, ev).chunks[0]);
    } else {
      SilentChunks(o, O.Step(e, ev).chunks);
    }
  }

  // ---------------------------------------------------------------- the first stop

  // The first MessageStop is event k.
  ghost predicate FirstStop(evs: seq<Event>, k: nat) {
    k < |evs| && evs[k].MessageStop? && forall j :: 0 <= j < k ==> !evs[j].MessageStop?
  }

  ghost predicate NoStop(evs: seq<Event>) {
    forall j :: 0 <= j < |evs| ==> !evs[j].MessageStop?
  }

  ghost predicate ToolBefore(evs: seq<Event>, k: nat) {
    exists j :: 0 <= j < k && j < |evs| && evs[j].ToolCallStart?
  }

  // The index of the first MessageStop, |evs| when there is none.
  function StopAt(evs: seq<Event>): (k: nat)
    ensures k <= |evs| && (k < |evs| ==> evs[k].MessageStop?)
  {
    if evs == [] then 0
    else
      var k := StopAt(DropLast(evs));
      if k < |evs| - 1 || Last(evs).MessageStop? then k else |evs|
  }

  lemma {:induction false} StopAtIs(evs: seq<Event>)
    ensures StopAt(evs) == |evs| <==> NoStop(evs)
    ensures StopAt(evs) < |evs| ==> FirstStop(evs, StopAt(evs))
    decreases |evs|
  {
    if evs != [] {
      var front := DropLast(evs);
      StopAtIs(front);
      assert forall j :: 0 <= j < |front| ==> front[j] == evs[j];
      assert evs[|evs| - 1] == Last(evs);
    }
  }

  lemma {:induction false} OneFirstStop(evs: seq<Event>, k: nat)
    requires FirstStop(evs, k)
    ensures k == StopAt(evs)
  {
    StopAtIs(evs);
  }

  lemma {:induction false} ToolLast(evs: seq<Event>, k: nat)
    requires evs != []
    ensures k < |evs| ==> (ToolBefore(evs, k) <==> ToolBefore(DropLast(evs), k))
    ensures ToolBefore(evs, |evs|) <==> ToolBefore(DropLast(evs), |evs| - 1) || Last(evs).ToolCallStart?
  {
    var front := DropLast(evs);
    assert forall j :: 0 <= j < |front| ==> front[j] == evs[j];
    assert evs[|evs| - 1] == Last(evs);
  }

  // ---------------------------------------------------------------- what the OpenAI client is told

  ghost predicate OpenAITold(e: O.Enc, finish: string, evs: seq<Event>) {
    && (e.sawToolCalls <==> ToolBefore(evs, |evs|)) && (e.stopped <==> StopAt(evs) < |evs|)
    && finish == if StopAt(evs) < |evs| then O.FinishReason(ToolBefore(evs, StopAt(evs)), evs[StopAt(evs)].finishReason) else ""
  }

  lemma {:induction false} OpenAIRunTells(id: string, includeUsage: bool, evs: seq<Event>)
    ensures OpenAITold(O.EncodeRun(O.NewEnc(id, includeUsage), evs).enc, OpenAIView(id, includeUsage, evs).finish, evs)
    decreases |evs|
  {
    if evs != [] {
      var front, ev := DropLast(evs), Last(evs);
      var r := O.EncodeRun(O.NewEnc(id, includeUsage), front);
      OpenAIRunTells(id, includeUsage, front);
      SeeChunksConcat(NOTHING, r.chunks, O.Step(r.enc, ev).chunks);
      OpenAIStepReason(r.enc, OpenAIView(id, includeUsage, front), ev);
      OpenAIFlags(r.enc, ev);
      OpenAINext(r.enc, O.Step(r.enc, ev).enc, OpenAIView(id, includeUsage, front).finish, OpenAIView(id, includeUsage, evs).finish, evs);
    }
  }

  lemma {:induction false} OpenAINext(e: O.Enc, e': O.Enc, finish: string, finish': string, evs: seq<Event>)
    requires evs != [] && OpenAITold(e, finish, DropLast(evs))
    requires e'.sawToolCalls == (e.sawToolCalls || Last(evs).ToolCallStart?) && e'.stopped == (e.stopped || Last(evs).MessageStop?)
    requires finish' == if Last(evs).MessageStop? && !e.stopped then O.FinishReason(e.sawToolCalls, Last(evs).finishReason) else finish
    ensures OpenAITold(e', finish', evs)
  {
    ToolLast(evs, StopAt(evs));
  }

  lemma {:induction false} OpenAIFlags(e: O.Enc, ev: Event)
    ensures var e' := O.Step(e, ev).enc;
      e'.sawToolCalls == (e.sawToolCalls || ev.ToolCallStart?) && e'.stopped == (e.stopped || ev.MessageStop?)
  {
  }

  /** What the OpenAI client is told in the end: nothing if no MessageStop was sent; "tool_calls" if a tool call was started
      before the first; otherwise that stop's own reason, in OpenAI's words. */
  lemma {:induction false} OpenAIReasonIs(id: string, includeUsage: bool, evs: seq<Event>)
    ensures var told := SeeChunks(NOTHING, O.EncodeAll(O.NewEnc(id, includeUsage), evs).chunks).finish;
      && (NoStop(evs) ==> told == "")
      && forall k: nat :: FirstStop(evs, k) ==>
           if ToolBefore(evs, k) then told == "tool_calls" else InOpenAIWords(evs[k].finishReason, told)
  {
    var o := O.EncodeRun(O.NewEnc(id, includeUsage), evs);
    OpenAIRunTells(id, includeUsage, evs);
    StopAtIs(evs);
    forall k: nat | FirstStop(evs, k) ensures k == StopAt(evs) {
      OneFirstStop(evs, k);
    }
    SeeChunksConcat(NOTHING, o.chunks, O.CloseStep(o.enc).chunks);
    DoneIsInvisible(o.enc, OpenAIView(id, includeUsage, evs));
  }

  // ---------------------------------------------------------------- what the Anthropic client is told

  ghost predicate AnthropicTold(e: A.Enc, finish: string, evs: seq<Event>) {
    && (e.started <==> Opened(evs)) && (e.stopped <==> StopAt(evs) < |evs|) && (e.stopped ==> e.started)
    && finish == if StopAt(evs) < |evs| then A.MapStopReason(evs[StopAt(evs)].finishReason) else ""
  }

  lemma {:induction false} AnthropicRunTells(id: string, model: string, evs: seq<Event>)
    ensures AnthropicTold(A.EncodeRun(A.NewEnc(id, model), evs).enc, AnthropicView(id, model, evs).finish, evs)
    decreases |evs|
  {
    if evs != [] {
      var front, ev := DropLast(evs), Last(evs);
      var r := A.EncodeRun(A.NewEnc(id, model), front);
      AnthropicRunTells(id, model, front);
      SeeFramesConcat(NOTHING, r.frames, A.Step(r.enc, ev).frames);
      AnthropicStepReason(r.enc, AnthropicView(id, model, front), ev);
      AnthropicFlags(r.enc, ev);
      OpenedLast(evs);
    }
  }

  lemma {:induction false} AnthropicFlags(e: A.Enc, ev: Event)
    ensures var e' := A.Step(e, ev).enc;
      e'.started == (e.started || (ev.OpensMessage() && !(e.stopped && ev.MessageStop?))) && e'.stopped == (e.stopped || ev.MessageStop?)
  {
  }

  lemma {:induction false} CloseReason(e: A.Enc, o: Observed)
    ensures SeeFrames(o, A.CloseStep(e).frames).finish == if e.started && !e.stopped then "end_turn" else o.finish
  {
    if e.started && !e.stopped {
      EndOfMessage(o, A.StopOpen(e).frames, "end_turn", e.usage.output);
    } else {
      SilentFrames(o, A.CloseStep(e).frames);
    }
  }

  /** What the Anthropic client is told in the end: the first stop's reason, in Anthropic's words; "end_turn" for a message that
      was opened but not stopped; nothing if none was opened. */
  lemma {:induction false} AnthropicReasonIs(id: string, model: string, evs: seq<Event>)
    ensures var told := SeeFrames(NOTHING, A.EncodeAll(A.NewEnc(id, model), evs).frames).finish;
      && (NoStop(evs) ==> told == if Opened(evs) then "end_turn" else "")
      && forall k: nat :: FirstStop(evs, k) ==> InAnthropicWords(evs[k].finishReason, told)
  {
    var a := A.EncodeRun(A.NewEnc(id, model), evs);
    AnthropicRunTells(id, model, evs);
    StopAtIs(evs);
    forall k: nat | FirstStop(evs, k) ensures k == StopAt(evs) {
      OneFirstStop(evs, k);
    }
    SeeFramesConcat(NOTHING, a.frames, A.CloseStep(a.enc).frames);
    CloseReason(a.enc, AnthropicView(id, model, evs));
  }

  // ---------------------------------------------------------------- when they correspond

  /** The same reason in the two vocabularies; any other word stands for itself, and so does none. */
  predicate Correspond(anthropic: string, openAI: string) {
    || (anthropic == "end_turn" && openAI == "stop")
    || (anthropic == "tool_use" && openAI == "tool_calls")
    || (anthropic == "max_tokens" && openAI == "length")
    || (anthropic == openAI && (anthropic == "" || !KnownReason(anthropic)))
  }

  /** The first stop is for tool calls if one was started before it; and a stream without a stop opens no message. */
  ghost predicate ReasonsFit(evs: seq<Event>) {
    if NoStop(evs) then !Opened(evs)
    else exists k: nat :: FirstStop(evs, k) && (ToolBefore(evs, k) ==> evs[k].finishReason == "tool_calls" || evs[k].finishReason == "tool_use")
  }

  lemma {:induction false} WordsCorrespond(reason: string, anthropic: string, openAI: string)
    requires InAnthropicWords(reason, anthropic)
    ensures InOpenAIWords(reason, openAI) ==> Correspond(anthropic, openAI)
    ensures Correspond(anthropic, "tool_calls") <==> reason == "tool_calls" || reason == "tool_use"
  {
  }

  /** The reasons the two clients are told in the end correspond exactly when the first stop is for tool calls if one was
      started before it, or there is neither a stop nor a message. */
  lemma {:induction false} ReasonsCorrespondIff(idA: string, model: string, idO: string, includeUsage: bool, evs: seq<Event>)
    ensures var a := SeeFrames(NOTHING, A.EncodeAll(A.NewEnc(idA, model), evs).frames).finish;
            var o := SeeChunks(NOTHING, O.EncodeAll(O.NewEnc(idO, includeUsage), evs).chunks).finish;
      Correspond(a, o) <==> ReasonsFit(evs)
  {
    AnthropicReasonIs(idA, model, evs);
    OpenAIReasonIs(idO, includeUsage, evs);
    if !NoStop(evs) {
      StopAtIs(evs);
      var k := StopAt(evs);
      WordsCorrespond(evs[k].finishReason, SeeFrames(NOTHING, A.EncodeAll(A.NewEnc(idA, model), evs).frames).finish,
                      SeeChunks(NOTHING, O.EncodeAll(O.NewEnc(idO, includeUsage), evs).chunks).finish);
      assert FirstStop(evs, k);
      forall j: nat | FirstStop(evs, j) ensures j == k {
        OneFirstStop(evs, j);
      }
    }
  }

  /** Together with the content: the two clients see the same at every point and are told corresponding reasons in the end,
      exactly when tools are announced in order and the reasons fit. */
  lemma {:induction false} StreamsMeanTheSame(idA: string, model: string, idO: string, includeUsage: bool, evs: seq<Event>)
    ensures (AlwaysSame(idA, model, idO, includeUsage, evs)
             && Correspond(SeeFrames(NOTHING, A.EncodeAll(A.NewEnc(idA, model), evs).frames).finish,
                           SeeChunks(NOTHING, O.EncodeAll(O.NewEnc(idO, includeUsage), evs).chunks).finish))
      <==> (Paired(evs) && ReasonsFit(evs))
  {
    EncodersMeanTheSame(idA, model, idO, includeUsage, evs);
    ReasonsCorrespondIff(idA, model, idO, includeUsage, evs);
  }

  /** They can differ: after a tool call that stops with "stop", the OpenAI client is told to run the tool and the Anthropic
      client that the turn is over. */
  lemma {:induction false} ReasonsDiverge(idA: string, model: string, idO: string, includeUsage: bool)
    ensures var evs := [ToolCallStart(0, "call", "f"), MessageStop("stop")];
      && Paired(evs)
      && SeeFrames(NOTHING, A.EncodeAll(A.NewEnc(idA, model), evs).frames).finish == "end_turn"
      && SeeChunks(NOTHING, O.EncodeAll(O.NewEnc(idO, includeUsage), evs).chunks).finish == "tool_calls"
  {
    var evs := [ToolCallStart(0, "call", "f"), MessageStop("stop")];
    assert evs[0].ToolCallStart?;
    assert FirstStop(evs, 1) && ToolBefore(evs, 1);
    AnthropicReasonIs(idA, model, evs);
    OpenAIReasonIs(idO, includeUsage, evs);
    PairedTool();
  }

  lemma {:induction false} PairedTool()
    ensures Paired([ToolCallStart(0, "call", "f"), MessageStop("stop")])
  {
    var first := [ToolCallStart(0, "call", "f")];
    var both := first + [MessageStop("stop")];
    assert DropLast(first) == [];
    assert Pairs([], first[0]);
    assert Paired(first);
    assert DropLast(both) == first && Pairs(first, Last(both));
    assert Paired(both);
  }
}
