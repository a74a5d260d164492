/** What a client sees of a stream (processDownstreamJSON in pkg/contract/opencode/harness.go), and the
    comparison of the two encoders through it: the OpenAI stream and the Anthropic stream of one event
    sequence show the same text, reasoning and tool calls. */
module ClientObservation {
  import opened Common
  import opened Events
  import A = AnthropicEncoder
  import O = OpenAIEncoder

  datatype ToolCall = ToolCall(index: int, id: string, name: string, arguments: string)

  datatype Observed = Observed(text: string, reasoning: string, tools: seq<ToolCall>, finish: string)

  const NOTHING := Observed("", "", [], "")

  // The first tool call with the given index, |tools| when there is none.
  function FirstAt(tools: seq<ToolCall>, i: int): (n: nat)
    ensures n <= |tools|
    ensures n < |tools| ==> tools[n].index == i
    ensures forall k :: 0 <= k < n ==> tools[k].index != i
  {
    if tools == [] || tools[0].index == i then 0 else 1 + FirstAt(tools[1..], i)
  }

  function Merge(tools: seq<ToolCall>, t: O.ToolDelta): seq<ToolCall> {
    var n := FirstAt(tools, t.index);
    if n == |tools| then tools + [ToolCall(t.index, t.id, t.name, t.arguments)]
    else
      var c := tools[n];
      tools[n := ToolCall(c.index, if t.id != "" then t.id else c.id, if t.name != "" then t.name else c.name,
                          c.arguments + t.arguments)]
  }

  function MergeAll(tools: seq<ToolCall>, ts: seq<O.ToolDelta>): seq<ToolCall>
    decreases |ts|
  {
    if ts == [] then tools else MergeAll(Merge(tools, ts[0]), ts[1..])
  }

  // An OpenAI chunk; an omitted field adds nothing.
  function SeeChunk(o: Observed, c: O.Chunk): Observed {
    match c
    case Delta(_, _, content, reasoning, tools, finish) =>
      Observed(o.text + content, o.reasoning + reasoning, MergeAll(o.tools, tools),
               if finish.Some? && finish.value != "" then finish.value else o.finish)
    case _ => o
  }

  function AddArguments(tools: seq<ToolCall>, i: int, s: string): seq<ToolCall> {
    var n := FirstAt(tools, i);
    if n == |tools| then tools else tools[n := tools[n].(arguments := tools[n].arguments + s)]
  }

  // An Anthropic frame.
  function SeeFrame(o: Observed, f: A.Frame): Observed {
    match f
    case FBlockStart(i, StartToolUse(id, name)) => o.(tools := o.tools + [ToolCall(i, id, name, "")])
    case FBlockDelta(_, Text(s)) => o.(text := o.text + s)
    case FBlockDelta(_, Thinking(s)) => o.(reasoning := o.reasoning + s)
    case FBlockDelta(i, InputJson(s)) => o.(tools := AddArguments(o.tools, i, s))
    case FMessageDelta(reason, _) => o.(finish := if reason != "" then reason else o.finish)
    case _ => o
  }

  function SeeChunks(o: Observed, cs: seq<O.Chunk>): Observed
    decreases |cs|
  {
    if cs == [] then o else SeeChunks(SeeChunk(o, cs[0]), cs[1..])
  }

  function SeeFrames(o: Observed, fs: seq<A.Frame>): Observed
    decreases |fs|
  {
    if fs == [] then o else SeeFrames(SeeFrame(o, fs[0]), fs[1..])
  }

  /** The client's record of one stream, updated in place per event. */
  class StreamObservation {
    var text: string
    var reasoning: string
    var toolCalls: seq<ToolCall>
    var finishReason: string

    ghost function State(): Observed
      reads this
    {
      Observed(text, reasoning, toolCalls, finishReason)
    }

    constructor ()
      ensures State() == NOTHING
    {
      text, reasoning, toolCalls, finishReason := "", "", [], "";
    }

    method MergeTool(t: O.ToolDelta)
      modifies this`toolCalls
      ensures toolCalls == Merge(old(toolCalls), t)
    {
      var k := 0;
      while k < |toolCalls|
        invariant 0 <= k <= |toolCalls| && toolCalls == old(toolCalls)
        invariant forall j :: 0 <= j < k ==> toolCalls[j].index != t.index
      {
        var c := toolCalls[k];
        if c.index == t.index {
          if t.id != "" {
            c := c.(id := t.id);
          }
          if t.name != "" {
            c := c.(name := t.name);
          }
          if t.arguments != "" {
            c := c.(arguments := c.arguments + t.arguments);
          }
          FirstIs(toolCalls, t.index, k);
          assert t.arguments == "" ==> toolCalls[k].arguments + t.arguments == toolCalls[k].arguments;
          toolCalls := toolCalls[k := c];
          return;
        }
        k := k + 1;
      }
      toolCalls := toolCalls + [ToolCall(t.index, t.id, t.name, t.arguments)];
    }

    method ProcessChunk(c: O.Chunk)
      modifies this
      ensures State() == SeeChunk(old(State()), c)
    {
      if c.Delta? {
        text, reasoning := text + c.content, reasoning + c.reasoning;
        var k := 0;
        while k < |c.tools|
          invariant 0 <= k <= |c.tools|
          invariant MergeAll(toolCalls, c.tools[k..]) == MergeAll(old(toolCalls), c.tools)
          invariant text == old(text) + c.content && reasoning == old(reasoning) + c.reasoning
          invariant finishReason == old(finishReason)
        {
          assert c.tools[k..][1..] == c.tools[k + 1..];
          MergeTool(c.tools[k]);
          k := k + 1;
        }
        if c.finish.Some? && c.finish.value != "" {
          finishReason := c.finish.value;
        }
      }
    }

    method AppendArguments(i: int, s: string)
      modifies this`toolCalls
      ensures toolCalls == AddArguments(old(toolCalls), i, s)
    {
      var k := 0;
      while k < |toolCalls|
        invariant 0 <= k <= |toolCalls| && toolCalls == old(toolCalls)
        invariant forall j :: 0 <= j < k ==> toolCalls[j].index != i
      {
        if toolCalls[k].index == i {
          FirstIs(toolCalls, i, k);
          toolCalls := toolCalls[k := toolCalls[k].(arguments := toolCalls[k].arguments + s)];
          return;
        }
        k := k + 1;
      }
    }

    method ProcessFrame(f: A.Frame)
      modifies this
      ensures State() == SeeFrame(old(State()), f)
    {
      match f {
        case FBlockStart(i, start) =>
          if start.StartToolUse? {
            toolCalls := toolCalls + [ToolCall(i, start.id, start.name, "")];
          }
        case FBlockDelta(i, delta) =>
          match delta {
            case Text(s) => text := text + s;
            case Thinking(s) => reasoning := reasoning + s;
            case InputJson(s) => AppendArguments(i, s);
            case Signature(_) =>
          }
        case FMessageDelta(reason, _) =>
          if reason != "" {
            finishReason := reason;
          }
        case _ =>
      }
    }
  }

  lemma {:induction false} FirstIs(tools: seq<ToolCall>, i: int, k: nat)
    requires k < |tools| && tools[k].index == i
    requires forall j :: 0 <= j < k ==> tools[j].index != i
    ensures FirstAt(tools, i) == k
  {
    var n := FirstAt(tools, i);
  }

  // ---------------------------------------------------------------- the two views of one sequence

  function OpenAIView(id: string, includeUsage: bool, evs: seq<Event>): Observed {
    SeeChunks(NOTHING, O.EncodeRun(O.NewEnc(id, includeUsage), evs).chunks)
  }

  function AnthropicView(id: string, model: string, evs: seq<Event>): Observed {
    SeeFrames(NOTHING, A.EncodeRun(A.NewEnc(id, model), evs).frames)
  }

  // Same text, reasoning and ordered tool calls; the finish reasons use different vocabularies.
  predicate Same(a: Observed, o: Observed) {
    a.text == o.text && a.reasoning == o.reasoning && a.tools == o.tools
  }

  /** The two clients agree after every prefix of the stream. */
  ghost predicate AlwaysSame(idA: string, model: string, idO: string, includeUsage: bool, evs: seq<Event>) {
    forall k :: 0 <= k <= |evs| ==>
      Same(AnthropicView(idA, model, evs[..k]), OpenAIView(idO, includeUsage, evs[..k]))
  }

  ghost predicate KnownTool(evs: seq<Event>, i: int) {
    exists k :: 0 <= k < |evs| && (evs[k].ToolCallStart? || evs[k].ToolArgumentsDelta?) && evs[k].index == i
  }

  /** Event ev keeps the two views together: a tool is started once, arguments belong to a known tool or to an
      untouched index, and no block is opened as a tool without a tool start. */
  ghost predicate Pairs(before: seq<Event>, ev: Event) {
    match ev
    case ToolCallStart(i, _, _) => !KnownTool(before, i)
    case ToolArgumentsDelta(i, _) => KnownTool(before, i) || !TouchedIndex(before, i)
    case BlockStart(i, kind) => kind == "tool_use" ==> TouchedIndex(before, i)
    case _ => true
  }

  ghost predicate Paired(evs: seq<Event>) {
    evs == [] || (Paired(DropLast(evs)) && Pairs(DropLast(evs), Last(evs)))
  }

  lemma {:induction false} SeeFramesConcat(o: Observed, a: seq<A.Frame>, b: seq<A.Frame>)
    ensures SeeFrames(o, a + b) == SeeFrames(SeeFrames(o, a), b)
    decreases |a|
  {
    if a == [] {
      assert a + b == b;
    } else {
      assert (a + b)[0] == a[0] && (a + b)[1..] == a[1..] + b;
      SeeFramesConcat(SeeFrame(o, a[0]), a[1..], b);
    }
  }

  lemma {:induction false} SeeChunksConcat(o: Observed, a: seq<O.Chunk>, b: seq<O.Chunk>)
    ensures SeeChunks(o, a + b) == SeeChunks(SeeChunks(o, a), b)
    decreases |a|
  {
    if a == [] {
      assert a + b == b;
    } else {
      assert (a + b)[0] == a[0] && (a + b)[1..] == a[1..] + b;
      SeeChunksConcat(SeeChunk(o, a[0]), a[1..], b);
    }
  }

  // What each event adds to the Anthropic client's view; `isNew` says the event opens its block.
  function AnthropicAdds(o: Observed, ev: Event, isNew: bool): Observed {
    match ev
    case TextDelta(_, s) => o.(text := o.text + s)
    case ReasoningDelta(_, s) => o.(reasoning := o.reasoning + s)
    case ToolCallStart(i, id, name) => o.(tools := o.tools + [ToolCall(i, id, name, "")])
    case ToolArgumentsDelta(i, s) =>
      o.(tools := AddArguments(if isNew then o.tools + [ToolCall(i, "", "", "")] else o.tools, i, s))
    case BlockStart(i, kind) => if isNew && kind == "tool_use" then o.(tools := o.tools + [ToolCall(i, "", "", "")]) else o
    case _ => o
  }

  // What each event adds to the OpenAI client's view.
  function OpenAIAdds(o: Observed, ev: Event): Observed {
    match ev
    case TextDelta(_, s) => o.(text := o.text + s)
    case ReasoningDelta(_, s) => o.(reasoning := o.reasoning + s)
    case ToolCallStart(i, id, name) => o.(tools := Merge(o.tools, O.ToolDelta(i, id, name, "")))
    case ToolArgumentsDelta(i, s) => o.(tools := Merge(o.tools, O.ToolDelta(i, "", "", s)))
    case _ => o
  }

  lemma {:induction false} PrepareIsInvisible(e: A.Enc, o: Observed, i: int)
    ensures SeeFrames(o, A.Prepare(e, i).frames) == o
  {
    var a := A.EnsureStart(e);
    SeeFramesConcat(o, a.frames, A.StopOther(a.enc, i).frames);
  }

  lemma {:induction false} SeeStart(o: Observed, i: int, start: A.StartKind)
    ensures SeeFrames(o, [A.FBlockStart(i, start)])
         == if start.StartToolUse? then o.(tools := o.tools + [ToolCall(i, start.id, start.name, "")]) else o
  {
    assert [A.FBlockStart(i, start)][1..] == [];
  }

  lemma {:induction false} SeeDelta(e: A.Enc, o: Observed, i: int, start: A.StartKind, delta: A.Delta)
    ensures var seen := if i in e.startedBlocks then o else SeeFrames(o, [A.FBlockStart(i, start)]);
            SeeFrames(o, A.EncodeDelta(e, i, start, delta).frames) == SeeFrame(seen, A.FBlockDelta(i, delta))
  {
    var a := A.Prepare(e, i);
    var b := A.OpenIfNew(a.enc, i, start);
    PrepareIsInvisible(e, o, i);
    SeeFramesConcat(o, a.frames, b.frames);
    SeeFramesConcat(o, a.frames + b.frames, [A.FBlockDelta(i, delta)]);
    assert [A.FBlockDelta(i, delta)][1..] == [];
  }

  lemma {:induction false} AnthropicDeltaAdds(e: A.Enc, o: Observed, ev: Event)
    requires ev.TextDelta? || ev.ReasoningDelta? || ev.ReasoningSignature? || ev.ToolArgumentsDelta?
    ensures SeeFrames(o, A.Step(e, ev).frames) == AnthropicAdds(o, ev, ev.index !in e.startedBlocks)
  {
    match ev {
      case TextDelta(i, s) =>
        SeeDelta(e, o, i, A.StartText, A.Text(s));
        SeeStart(o, i, A.StartText);
      case ReasoningDelta(i, s) =>
        SeeDelta(e, o, i, A.StartThinking, A.Thinking(s));
        SeeStart(o, i, A.StartThinking);
      case ReasoningSignature(i, s) =>
        SeeDelta(e, o, i, A.StartThinking, A.Signature(s));
        SeeStart(o, i, A.StartThinking);
      case ToolArgumentsDelta(i, s) =>
        SeeDelta(e, o, i, A.StartToolUse("", ""), A.InputJson(s));
        SeeStart(o, i, A.StartToolUse("", ""));
    }
  }

  lemma {:induction false} AnthropicStepAdds(e: A.Enc, o: Observed, ev: Event)
    ensures ev.IsContent() ==>
      SeeFrames(o, A.Step(e, ev).frames) == AnthropicAdds(o, ev, ev.index !in e.startedBlocks)
    ensures !ev.IsContent() ==> Same(SeeFrames(o, A.Step(e, ev).frames), o)
  {
    if ev.TextDelta? || ev.ReasoningDelta? || ev.ReasoningSignature? || ev.ToolArgumentsDelta? {
      AnthropicDeltaAdds(e, o, ev);
      return;
    }
    match ev {
      case BlockStart(i, kind) =>
        var a := A.Prepare(e, i);
        PrepareIsInvisible(e, o, i);
        SeeFramesConcat(o, a.frames, A.OpenIfNew(a.enc, i, A.StartFor(kind)).frames);
        SeeStart(o, i, A.StartFor(kind));
      case ToolCallStart(i, id, name) =>
        var a := A.Prepare(e, i);
        PrepareIsInvisible(e, o, i);
        SeeFramesConcat(o, a.frames, [A.FBlockStart(i, A.StartToolUse(id, name))]);
        SeeStart(o, i, A.StartToolUse(id, name));
      case MessageStop(finish) =>
        if !e.stopped {
          var a := A.EnsureStart(e);
          EndIsInvisible(a.enc, o, A.MapStopReason(finish));
          var b := A.StopOpen(a.enc);
          var c := A.EndMessage(b.enc, A.MapStopReason(finish));
          AppendAssoc(a.frames, b.frames, c.frames);
          SeeFramesConcat(o, a.frames, b.frames + c.frames);
          assert [A.FMessageStart(e.id, e.model, e.usage)][1..] == [];
        }
      case _ =>
    }
  }

  lemma {:induction false} EndIsInvisible(e: A.Enc, o: Observed, reason: string)
    ensures var b := A.StopOpen(e);
            Same(SeeFrames(o, b.frames + A.EndMessage(b.enc, reason).frames), o)
  {
    var b := A.StopOpen(e);
    var c := A.EndMessage(b.enc, reason);
    SeeFramesConcat(o, b.frames, c.frames);
    assert [A.FBlockStop(e.activeIndex)][1..] == [];
    assert c.frames[1..] == [A.FMessageStop] && [A.FMessageStop][1..] == [];
  }

  lemma {:induction false} SeeOne(o: Observed, c: O.Chunk)
    ensures SeeChunks(o, [c]) == SeeChunk(o, c)
  {
    assert [c][1..] == [];
  }

  lemma {:induction false} MergeOne(tools: seq<ToolCall>, t: O.ToolDelta)
    ensures MergeAll(tools, [t]) == Merge(tools, t)
  {
    assert [t][1..] == [];
  }

  lemma {:induction false} NothingAdded(o: Observed)
    ensures o.text + "" == o.text && o.reasoning + "" == o.reasoning
  {
  }

  lemma {:induction false} OpenAIStepAdds(e: O.Enc, o: Observed, ev: Event)
    ensures Same(SeeChunks(o, O.Step(e, ev).chunks), OpenAIAdds(o, ev))
  {
    NothingAdded(o);
    SeeOne(o, O.RoleChunk(e.id));
    match ev {
      case MessageStart(id) => SeeOne(o, O.RoleChunk(if id != "" then id else e.id));
      case TextDelta(_, s) => SeeAfterStart(e, o, O.Delta(e.id, "", s, "", [], None));
      case ReasoningDelta(_, s) => SeeAfterStart(e, o, O.Delta(e.id, "", "", s, [], None));
      case ToolCallStart(i, id, name) =>
        var t := O.ToolDelta(i, id, name, "");
        SeeAfterStart(e.(sawToolCalls := true), o, O.Delta(e.id, "", "", "", [t], None));
        MergeOne(o.tools, t);
      case ToolArgumentsDelta(i, s) =>
        var t := O.ToolDelta(i, "", "", s);
        SeeOne(o, O.Delta(e.id, "", "", "", [t], None));
        MergeOne(o.tools, t);
      case MessageStop(finish) =>
        SeeOne(o, O.Delta(e.id, "", "", "", [], Some(O.FinishReason(e.sawToolCalls, finish))));
      case UpstreamError(kind, message) => SeeOne(o, O.ErrorChunk(kind, message));
      case _ =>
    }
  }

  lemma {:induction false} SeeAfterStart(e: O.Enc, o: Observed, c: O.Chunk)
    ensures SeeChunks(o, O.StartThen(e, c).chunks) == SeeChunk(o, c)
  {
    SeeChunksConcat(o, O.EnsureStart(e).chunks, [c]);
    SeeOne(o, c);
    SeeOne(o, O.RoleChunk(e.id));
    NothingAdded(o);
  }

  // Both lists of tool calls hold exactly the known tools.
  ghost predicate HoldsKnown(tools: seq<ToolCall>, evs: seq<Event>) {
    forall i :: FirstAt(tools, i) < |tools| <==> KnownTool(evs, i)
  }

  lemma {:induction false} KnownLast(evs: seq<Event>, i: int)
    requires evs != []
    ensures KnownTool(evs, i) ==
      (KnownTool(DropLast(evs), i)
       || ((Last(evs).ToolCallStart? || Last(evs).ToolArgumentsDelta?) && Last(evs).index == i))
    ensures TouchedIndex(evs, i) == (TouchedIndex(DropLast(evs), i) || Last(evs).TouchesIndex(i))
  {
    var before := DropLast(evs);
    assert forall k :: 0 <= k < |before| ==> before[k] == evs[k];
    assert evs[|evs| - 1] == Last(evs);
    if KnownTool(before, i) {
      var k :| 0 <= k < |before| && (before[k].ToolCallStart? || before[k].ToolArgumentsDelta?) && before[k].index == i;
      assert evs[k].index == i;
    }
    TouchedLast(evs, i);
  }

  lemma {:induction false} FirstAfterAppend(tools: seq<ToolCall>, c: ToolCall, i: int)
    ensures FirstAt(tools + [c], i)
         == if FirstAt(tools, i) < |tools| then FirstAt(tools, i) else if c.index == i then |tools| else |tools| + 1
  {
    var all := tools + [c];
    assert forall k :: 0 <= k < |tools| ==> all[k] == tools[k];
    assert all[|tools|] == c;
  }

  lemma {:induction false} FirstAfterUpdate(tools: seq<ToolCall>, n: nat, c: ToolCall, i: int)
    requires n < |tools| && c.index == tools[n].index
    ensures FirstAt(tools[n := c], i) == FirstAt(tools, i)
  {
    var all := tools[n := c];
    assert forall k :: 0 <= k < |tools| ==> all[k].index == tools[k].index;
  }

  // The views after ev agree exactly when ev pairs.
  lemma {:induction false} StepPairs(tools: seq<ToolCall>, evs: seq<Event>, isNew: bool)
    requires evs != [] && HoldsKnown(tools, DropLast(evs))
    requires Last(evs).IsContent() ==> isNew == !TouchedIndex(DropLast(evs), Last(evs).index)
    ensures var o := Observed("", "", tools, "");
            AnthropicAdds(o, Last(evs), isNew).tools == OpenAIAdds(o, Last(evs)).tools <==> Pairs(DropLast(evs), Last(evs))
    ensures Pairs(DropLast(evs), Last(evs)) ==> HoldsKnown(OpenAIAdds(Observed("", "", tools, ""), Last(evs)).tools, evs)
  {
    var ev := Last(evs);
    match ev {
      case ToolCallStart(i, id, name) => ToolStartPairs(tools, evs);
      case ToolArgumentsDelta(i, s) => ArgumentsPair(tools, evs, isNew);
      case _ =>
        forall i ensures KnownTool(evs, i) == KnownTool(DropLast(evs), i) {
          KnownLast(evs, i);
        }
    }
  }

  lemma {:induction false} ToolStartPairs(tools: seq<ToolCall>, evs: seq<Event>)
    requires evs != [] && HoldsKnown(tools, DropLast(evs)) && Last(evs).ToolCallStart?
    ensures var ev := Last(evs);
            var a := tools + [ToolCall(ev.index, ev.id, ev.name, "")];
            var b := Merge(tools, O.ToolDelta(ev.index, ev.id, ev.name, ""));
            (a == b <==> !KnownTool(DropLast(evs), ev.index)) && (a == b ==> HoldsKnown(b, evs))
  {
    var ev := Last(evs);
    var c := ToolCall(ev.index, ev.id, ev.name, "");
    if !KnownTool(DropLast(evs), ev.index) {
      forall i ensures FirstAt(tools + [c], i) < |tools| + 1 <==> KnownTool(evs, i) {
        KnownLast(evs, i);
        FirstAfterAppend(tools, c, i);
      }
    }
  }

  lemma {:induction false} ArgumentsPair(tools: seq<ToolCall>, evs: seq<Event>, isNew: bool)
    requires evs != [] && HoldsKnown(tools, DropLast(evs)) && Last(evs).ToolArgumentsDelta?
    requires isNew == !TouchedIndex(DropLast(evs), Last(evs).index)
    ensures var ev := Last(evs);
            var a := AddArguments(if isNew then tools + [ToolCall(ev.index, "", "", "")] else tools, ev.index, ev.arguments);
            var b := Merge(tools, O.ToolDelta(ev.index, "", "", ev.arguments));
            && (a == b <==> KnownTool(DropLast(evs), ev.index) || isNew)
            && (a == b ==> HoldsKnown(b, evs))
  {
    var before, ev := DropLast(evs), Last(evs);
    var n := FirstAt(tools, ev.index);
    var c := ToolCall(ev.index, "", "", "");
    if n < |tools| {
      assert !isNew by {
        var k :| 0 <= k < |before| && (before[k].ToolCallStart? || before[k].ToolArgumentsDelta?) && before[k].index == ev.index;
        assert before[k].TouchesIndex(ev.index);
      }
      var c' := tools[n].(arguments := tools[n].arguments + ev.arguments);
      forall i ensures FirstAt(tools[n := c'], i) < |tools| <==> KnownTool(evs, i) {
        KnownLast(evs, i);
        FirstAfterUpdate(tools, n, c', i);
      }
    } else if isNew {
      var c' := c.(arguments := ev.arguments);
      FirstAfterAppend(tools, c, ev.index);
      assert (tools + [c])[|tools| := c'] == tools + [c'];
      assert "" + ev.arguments == ev.arguments;
      forall i ensures FirstAt(tools + [c'], i) < |tools| + 1 <==> KnownTool(evs, i) {
        KnownLast(evs, i);
        FirstAfterAppend(tools, c', i);
      }
    }
  }

  // The Anthropic encoder has started exactly the touched indices.
  lemma {:induction false} StartedAreTouched(id: string, model: string, evs: seq<Event>, i: int)
    ensures i in A.EncodeRun(A.NewEnc(id, model), evs).enc.startedBlocks <==> TouchedIndex(evs, i)
    decreases |evs|
  {
    if evs != [] {
      StartedAreTouched(id, model, DropLast(evs), i);
      KnownLast(evs, i);
      StartedGrow(A.EncodeRun(A.NewEnc(id, model), DropLast(evs)).enc, Last(evs));
    }
  }

  lemma {:induction false} StartedGrow(e: A.Enc, ev: Event)
    ensures A.Step(e, ev).enc.startedBlocks
         == if ev.IsContent() then e.startedBlocks + {ev.index} else e.startedBlocks
  {
  }

  // Both views change by what their step adds.
  lemma {:induction false} ViewsStep(idA: string, model: string, idO: string, includeUsage: bool, evs: seq<Event>)
    requires evs != []
    ensures var before, ev := DropLast(evs), Last(evs);
            var a, o := AnthropicView(idA, model, before), OpenAIView(idO, includeUsage, before);
            && Same(AnthropicView(idA, model, evs),
                    AnthropicAdds(a, ev, ev.IsContent() && !TouchedIndex(before, ev.index)))
            && Same(OpenAIView(idO, includeUsage, evs), OpenAIAdds(o, ev))
  {
    var before, ev := DropLast(evs), Last(evs);
    var ra, ro := A.EncodeRun(A.NewEnc(idA, model), before), O.EncodeRun(O.NewEnc(idO, includeUsage), before);
    SeeFramesConcat(NOTHING, ra.frames, A.Step(ra.enc, ev).frames);
    SeeChunksConcat(NOTHING, ro.chunks, O.Step(ro.enc, ev).chunks);
    AnthropicStepAdds(ra.enc, AnthropicView(idA, model, before), ev);
    OpenAIStepAdds(ro.enc, OpenAIView(idO, includeUsage, before), ev);
    if ev.IsContent() {
      StartedAreTouched(idA, model, before, ev.index);
    }
  }

  lemma {:induction false} AddsSame(a: Observed, o: Observed, ev: Event, isNew: bool)
    requires Same(a, o)
    ensures var bare := Observed("", "", o.tools, "");
            Same(AnthropicAdds(a, ev, isNew), OpenAIAdds(o, ev))
            <==> AnthropicAdds(bare, ev, isNew).tools == OpenAIAdds(bare, ev).tools
    ensures OpenAIAdds(o, ev).tools == OpenAIAdds(Observed("", "", o.tools, ""), ev).tools
  {
  }

  lemma {:induction false} SameIffPaired(idA: string, model: string, idO: string, includeUsage: bool, evs: seq<Event>)
    ensures AlwaysSame(idA, model, idO, includeUsage, evs) <==> Paired(evs)
    ensures Paired(evs) ==> HoldsKnown(OpenAIView(idO, includeUsage, evs).tools, evs)
    decreases |evs|
  {
    if evs == [] {
      assert forall k :: 0 <= k <= |evs| ==> evs[..k] == [];
    } else {
      var before, ev := DropLast(evs), Last(evs);
      SameIffPaired(idA, model, idO, includeUsage, before);
      AlwaysSameLast(idA, model, idO, includeUsage, evs);
      if Paired(before) {
        var a, o := AnthropicView(idA, model, before), OpenAIView(idO, includeUsage, before);
        assert before[..|before|] == before;
        var isNew := ev.IsContent() && !TouchedIndex(before, ev.index);
        ViewsStep(idA, model, idO, includeUsage, evs);
        AddsSame(a, o, ev, isNew);
        StepPairs(o.tools, evs, isNew);
      }
    }
  }

  lemma {:induction false} AlwaysSameLast(idA: string, model: string, idO: string, includeUsage: bool, evs: seq<Event>)
    requires evs != []
    ensures AlwaysSame(idA, model, idO, includeUsage, evs) <==>
      AlwaysSame(idA, model, idO, includeUsage, DropLast(evs))
      && Same(AnthropicView(idA, model, evs), OpenAIView(idO, includeUsage, evs))
  {
    PrefixesLast(x => Same(AnthropicView(idA, model, x), OpenAIView(idO, includeUsage, x)), evs);
  }

  // What holds of every prefix, one event later.
  lemma {:induction false} PrefixesLast(p: seq<Event> -> bool, evs: seq<Event>)
    requires evs != []
    ensures (forall k :: 0 <= k <= |evs| ==> p(evs[..k]))
      <==> (forall k :: 0 <= k <= |DropLast(evs)| ==> p(DropLast(evs)[..k])) && p(evs)
  {
    var before := DropLast(evs);
    assert forall k :: 0 <= k <= |before| ==> before[..k] == evs[..k];
    assert evs[..|evs|] == evs;
  }

  /** The two stream encoders mean the same: the clients agree at every point of the stream exactly when tools are
      announced in order, and closing either stream changes nothing of what was seen. */
  lemma {:induction false} EncodersMeanTheSame(idA: string, model: string, idO: string, includeUsage: bool, evs: seq<Event>)
    ensures AlwaysSame(idA, model, idO, includeUsage, evs) <==> Paired(evs)
    ensures Paired(evs) ==>
      Same(SeeFrames(NOTHING, A.EncodeAll(A.NewEnc(idA, model), evs).frames),
           SeeChunks(NOTHING, O.EncodeAll(O.NewEnc(idO, includeUsage), evs).chunks))
  {
    SameIffPaired(idA, model, idO, includeUsage, evs);
    var a, o := A.EncodeRun(A.NewEnc(idA, model), evs), O.EncodeRun(O.NewEnc(idO, includeUsage), evs);
    SeeFramesConcat(NOTHING, a.frames, A.CloseStep(a.enc).frames);
    SeeChunksConcat(NOTHING, o.chunks, O.CloseStep(o.enc).chunks);
    CloseIsInvisible(a.enc, AnthropicView(idA, model, evs));
    DoneIsInvisible(o.enc, OpenAIView(idO, includeUsage, evs));
    assert evs[..|evs|] == evs;
  }

  lemma {:induction false} CloseIsInvisible(e: A.Enc, o: Observed)
    ensures Same(SeeFrames(o, A.CloseStep(e).frames), o)
  {
    if !e.stopped {
      EndIsInvisible(e, o, "end_turn");
      assert [A.FBlockStop(e.activeIndex)][1..] == [];
    }
  }

  lemma {:induction false} DoneIsInvisible(e: O.Enc, o: Observed)
    ensures SeeChunks(o, O.CloseStep(e).chunks) == o
  {
    if !e.closed {
      var us := if e.includeUsage && e.lastUsage.Some? then [O.UsageChunk(e.id, e.lastUsage.value)] else [];
      SeeChunksConcat(o, us, [O.Done]);
      SeeOne(o, O.Done);
      if us != [] {
        SeeOne(o, us[0]);
      }
    }
  }

  /** What the providers promise is enough: each tool is started once and before its arguments, and blocks are
      opened as text or thinking only. */
  lemma {:induction false} PromisedStreamsPair(evs: seq<Event>)
    requires forall j, k :: 0 <= j < k < |evs| && evs[k].ToolCallStart? && (evs[j].ToolCallStart? || evs[j].ToolArgumentsDelta?)
               ==> evs[j].index != evs[k].index
    requires forall k :: 0 <= k < |evs| && evs[k].ToolArgumentsDelta? ==> KnownTool(evs[..k], evs[k].index)
    requires forall k :: 0 <= k < |evs| && evs[k].BlockStart? ==> evs[k].kind == "text" || evs[k].kind == "thinking"
    ensures Paired(evs)
    decreases |evs|
  {
    if evs != [] {
      var before := DropLast(evs);
      forall k | 0 <= k < |before| && before[k].ToolArgumentsDelta? ensures KnownTool(before[..k], before[k].index) {
        assert before[..k] == evs[..k] && before[k] == evs[k];
      }
      assert evs[..|evs| - 1] == before && evs[|evs| - 1] == Last(evs);
      assert forall k :: 0 <= k < |before| ==> before[k] == evs[k];
      PromisedStreamsPair(before);
    }
  }
}
