/** The Anthropic stream round trip: encode any event sequence, close the stream, decode the bytes.

    The encoder re-opens a block on every ToolCallStart and the decoder replaces a block whenever it is
    re-opened, so what comes back for an index is what was sent since its last ToolCallStart.  When
    tool starts come first on their index (as the providers promise) that is everything. */
module StreamRoundTrip {
  import opened Common
  import opened Events
  import opened AnthropicEncoder
  import opened AnthropicDecoder

  // ---------------------------------------------------------------- the events' own meaning

  function BlockOf(index: int, start: StartKind): Block {
    match start
    case StartText => EmptyBlock(index, BText)
    case StartThinking => EmptyBlock(index, BThinking)
    case StartToolUse(id, name) => EmptyBlock(index, BToolUse).(toolId := id, toolName := name)
  }

  function BlockOr(m: map<int, Block>, i: int, start: StartKind): Block {
    if i in m then m[i] else BlockOf(i, start)
  }

  // What one event does to the blocks a reader should end up with.
  function Accumulate(m: map<int, Block>, ev: Event): map<int, Block> {
    match ev
    case BlockStart(i, kind) => m[i := BlockOr(m, i, StartFor(kind))]
    case TextDelta(i, s) =>
      var b := BlockOr(m, i, StartText);
      m[i := b.(kind := BText, text := b.text + s)]
    case ReasoningDelta(i, s) =>
      var b := BlockOr(m, i, StartThinking);
      m[i := b.(kind := BThinking, thinking := b.thinking + s)]
    case ReasoningSignature(i, s) =>
      var b := BlockOr(m, i, StartThinking);
      m[i := b.(signature := b.signature + s)]
    case ToolCallStart(i, id, name) => m[i := BlockOf(i, StartToolUse(id, name))]
    case ToolArgumentsDelta(i, s) =>
      var b := BlockOr(m, i, StartToolUse("", ""));
      m[i := b.(kind := BToolUse, toolInput := b.toolInput + s)]
    case _ => m
  }

  function Blocks(evs: seq<Event>): map<int, Block> {
    if evs == [] then map[] else Accumulate(Blocks(DropLast(evs)), Last(evs))
  }

  // The finish reason of the first MessageStop.
  function FirstFinish(evs: seq<Event>): Option<string> {
    if evs == [] then None
    else
      var before := FirstFinish(DropLast(evs));
      if before.Some? then before
      else if Last(evs).MessageStop? then Some(Last(evs).finishReason)
      else None
  }

  function LastError(evs: seq<Event>): Option<(string, string)> {
    if evs == [] then None
    else if Last(evs).UpstreamError? then Some((Last(evs).kind, Last(evs).message))
    else LastError(DropLast(evs))
  }

  // Id and name of the tool call the block at index i belongs to ("" when it never was announced).
  function ToolHead(evs: seq<Event>, i: int): (string, string) {
    if evs == [] then ("", "")
    else if Last(evs).ToolCallStart? && Last(evs).index == i then (Last(evs).id, Last(evs).name)
    else ToolHead(DropLast(evs), i)
  }

  // The type of block that the events for index i make: that of the last delta of text, reasoning or arguments, or of the last
  // tool call; and before any of those what the first event opens.
  function SentKind(evs: seq<Event>, i: int): Option<BlockType> {
    if evs == [] then None
    else
      var before := SentKind(DropLast(evs), i);
      match Last(evs)
      case TextDelta(j, _) => if j == i then Some(BText) else before
      case ReasoningDelta(j, _) => if j == i then Some(BThinking) else before
      case ToolCallStart(j, _, _) => if j == i then Some(BToolUse) else before
      case ToolArgumentsDelta(j, _) => if j == i then Some(BToolUse) else before
      case ReasoningSignature(j, _) => if j == i && before.None? then Some(BThinking) else before
      case BlockStart(j, kind) =>
        if j != i || before.Some? then before
        else Some(if kind == "thinking" then BThinking else if kind == "tool_use" then BToolUse else BText)
      case _ => before
  }

  // ---------------------------------------------------------------- one event

  // The parts of the decoder's state that the frames of the stream determine.
  ghost predicate Agrees(e: Enc, d: State, blocks: map<int, Block>) {
    && d.blocks == blocks
    && e.startedBlocks == blocks.Keys
    && d.completed == e.stopped
    && (e.stopped ==> e.started)
  }

  ghost predicate SameOutcome(d: State, d': State) {
    d'.completed == d.completed && d'.stopReason == d.stopReason && d'.error == d.error
  }

  lemma {:induction false} StartFrame(d: State, i: int, start: StartKind)
    ensures HandleFrames(d, [FBlockStart(i, start)]).blocks == d.blocks[i := BlockOf(i, start)]
    ensures SameOutcome(d, HandleFrames(d, [FBlockStart(i, start)]))
  {
    assert [FBlockStart(i, start)][1..] == [];
  }

  lemma {:induction false} PrepareKeepsBlocks(e: Enc, d: State, i: int)
    ensures var o := Prepare(e, i);
            var d' := HandleFrames(d, o.frames);
            d'.blocks == d.blocks && SameOutcome(d, d')
            && o.enc.startedBlocks == e.startedBlocks && o.enc.stopped == e.stopped && o.enc.started
  {
    var a := EnsureStart(e);
    HandleFramesConcat(d, a.frames, StopOther(a.enc, i).frames);
  }

  lemma {:induction false} OpenIfNewBlocks(e: Enc, d: State, i: int, start: StartKind)
    requires e.startedBlocks == d.blocks.Keys
    ensures var o := OpenIfNew(e, i, start);
            var d' := HandleFrames(d, o.frames);
            && d'.blocks == d.blocks[i := BlockOr(d.blocks, i, start)] && SameOutcome(d, d')
            && o.enc == e.(startedBlocks := e.startedBlocks + {i}, activeIndex := o.enc.activeIndex)
  {
    if i !in e.startedBlocks {
      StartFrame(d, i, start);
    } else {
      assert d.blocks[i := d.blocks[i]] == d.blocks;
    }
  }

  function DeltaRaw(i: int, delta: Delta): Raw {
    RawOf(FBlockDelta(i, delta))
  }

  lemma {:induction false} DeltaFrame(d: State, i: int, delta: Delta)
    requires i in d.blocks
    ensures var d' := HandleFrames(d, [FBlockDelta(i, delta)]);
            d'.blocks == d.blocks[i := AddDelta(d.blocks[i], DeltaRaw(i, delta))] && SameOutcome(d, d')
  {
    assert [FBlockDelta(i, delta)][1..] == [];
  }

  lemma {:induction false} HandleThree(d: State, a: seq<Frame>, b: seq<Frame>, c: seq<Frame>)
    ensures HandleFrames(d, a + b + c) == HandleFrames(HandleFrames(HandleFrames(d, a), b), c)
  {
    HandleFramesConcat(d, a, b);
    HandleFramesConcat(d, a + b, c);
  }

  lemma {:induction false} DeltaStep(e: Enc, d: State, i: int, start: StartKind, delta: Delta)
    requires Agrees(e, d, d.blocks)
    ensures var o := EncodeDelta(e, i, start, delta);
            var d' := HandleFrames(d, o.frames);
            && d'.blocks == d.blocks[i := AddDelta(BlockOr(d.blocks, i, start), DeltaRaw(i, delta))]
            && Agrees(o.enc, d', d'.blocks) && SameOutcome(d, d') && o.enc.started
  {
    var a := Prepare(e, i);
    var d1 := HandleFrames(d, a.frames);
    PrepareKeepsBlocks(e, d, i);
    var b := OpenIfNew(a.enc, i, start);
    OpenIfNewBlocks(a.enc, d1, i, start);
    HandleThree(d, a.frames, b.frames, [FBlockDelta(i, delta)]);
    DeltaFrame(HandleFrames(d1, b.frames), i, delta);
  }

  lemma {:induction false} OpenStep(e: Enc, d: State, ev: Event)
    requires ev.BlockStart? || ev.ToolCallStart?
    requires Agrees(e, d, d.blocks)
    ensures var o := Step(e, ev);
            var d' := HandleFrames(d, o.frames);
            Agrees(o.enc, d', Accumulate(d.blocks, ev)) && SameOutcome(d, d') && o.enc.started
  {
    var a := Prepare(e, ev.index);
    PrepareKeepsBlocks(e, d, ev.index);
    var d1 := HandleFrames(d, a.frames);
    if ev.BlockStart? {
      var b := OpenIfNew(a.enc, ev.index, StartFor(ev.kind));
      HandleFramesConcat(d, a.frames, b.frames);
      OpenIfNewBlocks(a.enc, d1, ev.index, StartFor(ev.kind));
    } else {
      var start := StartToolUse(ev.id, ev.name);
      HandleFramesConcat(d, a.frames, Open(a.enc, ev.index, start).frames);
      StartFrame(d1, ev.index, start);
    }
  }

  lemma {:induction false} EndFrames(e: Enc, d: State, reason: string)
    requires reason != ""
    ensures var d' := HandleFrames(d, EndMessage(e, reason).frames);
            d'.blocks == d.blocks && d'.completed && d'.stopReason == reason && d'.error == d.error
  {
    var f := FMessageDelta(reason, e.usage.output);
    assert [f, FMessageStop][1..] == [FMessageStop] && [FMessageStop][1..] == [];
  }

  lemma {:induction false} StopOpenKeeps(e: Enc, d: State)
    ensures var d' := HandleFrames(d, StopOpen(e).frames); d'.blocks == d.blocks && SameOutcome(d, d')
  {
  }

  lemma {:induction false} StartKeeps(e: Enc, d: State)
    ensures var d' := HandleFrames(d, EnsureStart(e).frames); d'.blocks == d.blocks && SameOutcome(d, d')
  {
  }

  lemma {:induction false} StartThenStopOpen(e: Enc, d: State)
    ensures var a := EnsureStart(e);
            var d' := HandleFrames(d, a.frames + StopOpen(a.enc).frames);
            d'.blocks == d.blocks && SameOutcome(d, d')
  {
    var a := EnsureStart(e);
    HandleFramesConcat(d, a.frames, StopOpen(a.enc).frames);
    StartKeeps(e, d);
    StopOpenKeeps(a.enc, HandleFrames(d, a.frames));
  }

  lemma {:induction false} StopStep(e: Enc, d: State, finish: string)
    requires Agrees(e, d, d.blocks) && !e.stopped
    ensures var o := Step(e, MessageStop(finish));
            var d' := HandleFrames(d, o.frames);
            Agrees(o.enc, d', d.blocks) && d'.stopReason == MapStopReason(finish) && d'.error == d.error && o.enc.stopped
  {
    var a := EnsureStart(e);
    var b := StopOpen(a.enc);
    var frames := a.frames + b.frames;
    StartThenStopOpen(e, d);
    HandleFramesConcat(d, frames, EndMessage(b.enc, MapStopReason(finish)).frames);
    EndFrames(b.enc, HandleFrames(d, frames), MapStopReason(finish));
  }

  // What the run so far has told the decoder.
  ghost predicate Told(e: Enc, d: State, evs: seq<Event>) {
    && Agrees(e, d, Blocks(evs))
    && e.started == Opened(evs)
    && e.stopped == FirstFinish(evs).Some?
    && d.stopReason == (if e.stopped then MapStopReason(FirstFinish(evs).value) else "")
    && d.error == LastError(evs)
  }

  // The step of an event that carries no content leaves the blocks alone.
  ghost predicate StaysQuiet(e: Enc, d: State, ev: Event) {
    var o := Step(e, ev);
    var d' := HandleFrames(d, o.frames);
    && Agrees(o.enc, d', d.blocks) && d'.stopReason == d.stopReason && o.enc.stopped == e.stopped
    && o.enc.started == (e.started || ev.MessageStart?)
    && d'.error == (if ev.UpstreamError? then Some((ev.kind, ev.message)) else d.error)
  }

  lemma {:induction false} ErrorStep(e: Enc, d: State, ev: Event)
    requires Agrees(e, d, d.blocks) && ev.UpstreamError?
    ensures StaysQuiet(e, d, ev)
  {
  }

  lemma {:induction false} StartStep(e: Enc, d: State, ev: Event)
    requires Agrees(e, d, d.blocks) && ev.MessageStart?
    ensures StaysQuiet(e, d, ev)
  {
  }

  lemma {:induction false} ToolStopStep(e: Enc, d: State, ev: Event)
    requires Agrees(e, d, d.blocks) && ev.ToolCallStop?
    ensures StaysQuiet(e, d, ev)
  {
  }

  lemma {:induction false} UsageStep(e: Enc, d: State, ev: Event)
    requires Agrees(e, d, d.blocks) && ev.UsageUpdate?
    ensures StaysQuiet(e, d, ev)
  {
  }

  lemma {:induction false} StoppedStep(e: Enc, d: State, ev: Event)
    requires Agrees(e, d, d.blocks) && ev.MessageStop? && e.stopped
    ensures StaysQuiet(e, d, ev)
  {
  }

  lemma {:induction false} QuietStep(e: Enc, d: State, ev: Event)
    requires Agrees(e, d, d.blocks)
    requires ev.MessageStart? || ev.ToolCallStop? || ev.UsageUpdate? || ev.UpstreamError? || (ev.MessageStop? && e.stopped)
    ensures StaysQuiet(e, d, ev)
  {
    if ev.UpstreamError? {
      ErrorStep(e, d, ev);
    } else if ev.MessageStart? {
      StartStep(e, d, ev);
    } else if ev.ToolCallStop? {
      ToolStopStep(e, d, ev);
    } else if ev.UsageUpdate? {
      UsageStep(e, d, ev);
    } else {
      StoppedStep(e, d, ev);
    }
  }

  // The step of an event that carries content accumulates it.
  ghost predicate AddsContent(e: Enc, d: State, ev: Event) {
    var o := Step(e, ev);
    var d' := HandleFrames(d, o.frames);
    Agrees(o.enc, d', Accumulate(d.blocks, ev)) && SameOutcome(d, d') && o.enc.started
  }

  lemma {:induction false} TextStep(e: Enc, d: State, ev: Event)
    requires ev.TextDelta? && Agrees(e, d, d.blocks)
    ensures AddsContent(e, d, ev)
  {
    DeltaStep(e, d, ev.index, StartText, Text(ev.text));
  }

  lemma {:induction false} ArgumentsStep(e: Enc, d: State, ev: Event)
    requires ev.ToolArgumentsDelta? && Agrees(e, d, d.blocks)
    ensures AddsContent(e, d, ev)
  {
    DeltaStep(e, d, ev.index, StartToolUse("", ""), InputJson(ev.arguments));
  }

  lemma {:induction false} ThinkingStep(e: Enc, d: State, ev: Event)
    requires ev.ReasoningDelta? && Agrees(e, d, d.blocks)
    ensures AddsContent(e, d, ev)
  {
    DeltaStep(e, d, ev.index, StartThinking, Thinking(ev.text));
  }

  lemma {:induction false} SignatureStep(e: Enc, d: State, ev: Event)
    requires ev.ReasoningSignature? && Agrees(e, d, d.blocks)
    ensures AddsContent(e, d, ev)
  {
    DeltaStep(e, d, ev.index, StartThinking, Signature(ev.signature));
  }

  lemma {:induction false} ContentStep(e: Enc, d: State, ev: Event)
    requires ev.IsContent() && Agrees(e, d, d.blocks)
    ensures AddsContent(e, d, ev)
  {
    match ev
    case TextDelta(_, _) => TextStep(e, d, ev);
    case ToolArgumentsDelta(_, _) => ArgumentsStep(e, d, ev);
    case ReasoningDelta(_, _) => ThinkingStep(e, d, ev);
    case ReasoningSignature(_, _) => SignatureStep(e, d, ev);
    case _ => OpenStep(e, d, ev);
  }

  lemma {:induction false} RunTells(e0: Enc, evs: seq<Event>)
    requires Told(e0, FRESH_STATE, [])
    ensures Told(EncodeRun(e0, evs).enc, HandleFrames(FRESH_STATE, EncodeRun(e0, evs).frames), evs)
    ensures EncodeRun(e0, evs).enc.stopped ==> EncodeRun(e0, evs).enc.started
    decreases |evs|
  {
    if evs != [] {
      RunTells(e0, DropLast(evs));
      var a, ev := EncodeRun(e0, DropLast(evs)), Last(evs);
      var d := HandleFrames(FRESH_STATE, a.frames);
      HandleFramesConcat(FRESH_STATE, a.frames, Step(a.enc, ev).frames);
      OpenedLast(evs);
      StepTells(a.enc, d, evs);
    }
  }

  lemma {:induction false} StepTells(e: Enc, d: State, evs: seq<Event>)
    requires evs != [] && Told(e, d, DropLast(evs))
    requires Opened(evs) == (Opened(DropLast(evs)) || Last(evs).OpensMessage())
    ensures Told(Step(e, Last(evs)).enc, HandleFrames(d, Step(e, Last(evs)).frames), evs)
  {
    var ev := Last(evs);
    if ev.IsContent() {
      ContentStep(e, d, ev);
    } else if ev.MessageStop? && !e.stopped {
      StopStep(e, d, ev.finishReason);
    } else {
      QuietStep(e, d, ev);
    }
  }

  // ---------------------------------------------------------------- what the blocks hold

  function Get(b: Block, p: Part): string {
    match p
    case PText => b.text
    case PThinking => b.thinking
    case PSignature => b.signature
    case PArguments => b.toolInput
  }

  // Block b holds exactly what was sent for its index since the last tool start there.
  ghost predicate Recovers(b: Block, evs: seq<Event>, i: int) {
    && HasHead(b, evs, i) && SentKind(evs, i) == Some(b.kind) && b.redacted == ""
    && forall p :: Get(b, p) == Sent(SinceToolStart(evs, i), i, p)
  }

  lemma {:induction false} UntouchedPiece(ev: Event, i: int, p: Part)
    requires !ev.TouchesIndex(i)
    ensures Piece(ev, i, p) == "" && !(ev.ToolCallStart? && ev.index == i)
  {
  }

  lemma {:induction false} UntouchedSendsNothing(evs: seq<Event>, i: int, p: Part)
    requires !TouchedIndex(evs, i)
    ensures Sent(evs, i, p) == ""
    decreases |evs|
  {
    if evs != [] {
      TouchedLast(evs, i);
      UntouchedPiece(Last(evs), i, p);
      UntouchedSendsNothing(DropLast(evs), i, p);
    }
  }

  lemma {:induction false} UntouchedHasNoHead(evs: seq<Event>, i: int)
    requires !TouchedIndex(evs, i)
    ensures ToolHead(evs, i) == ("", "")
    decreases |evs|
  {
    if evs != [] {
      TouchedLast(evs, i);
      UntouchedPiece(Last(evs), i, PText);
      UntouchedHasNoHead(DropLast(evs), i);
    }
  }

  lemma {:induction false} UntouchedSinceSendsNothing(evs: seq<Event>, i: int, p: Part)
    requires !TouchedIndex(evs, i)
    ensures Sent(SinceToolStart(evs, i), i, p) == ""
    decreases |evs|
  {
    if evs != [] {
      TouchedLast(evs, i);
      UntouchedPiece(Last(evs), i, p);
      UntouchedSinceSendsNothing(DropLast(evs), i, p);
      SinceStep(evs, i, p);
    }
  }

  lemma {:induction false} SinceStep(evs: seq<Event>, i: int, p: Part)
    requires evs != [] && !(Last(evs).ToolCallStart? && Last(evs).index == i)
    ensures Sent(SinceToolStart(evs, i), i, p) == Sent(SinceToolStart(DropLast(evs), i), i, p) + Piece(Last(evs), i, p)
  {
    var s := SinceToolStart(DropLast(evs), i);
    assert DropLast(s + [Last(evs)]) == s;
  }

  lemma {:induction false} BlocksRecover(evs: seq<Event>, i: int)
    ensures i in Blocks(evs) <==> TouchedIndex(evs, i)
    ensures i in Blocks(evs) ==> Recovers(Blocks(evs)[i], evs, i)
    decreases |evs|
  {
    if evs != [] {
      BlocksRecover(DropLast(evs), i);
      TouchedLast(evs, i);
      if i in Blocks(evs) {
        forall p ensures Get(Blocks(evs)[i], p) == Sent(SinceToolStart(evs, i), i, p) {
          PartRecovers(Blocks(DropLast(evs)), evs, i, p);
        }
        HeadRecovers(evs, i);
      }
    }
    KindRecovers(evs, i);
  }

  lemma {:induction false} KindRecovers(evs: seq<Event>, i: int)
    ensures i in Blocks(evs) <==> SentKind(evs, i).Some?
    ensures i in Blocks(evs) ==> SentKind(evs, i) == Some(Blocks(evs)[i].kind) && Blocks(evs)[i].redacted == ""
    decreases |evs|
  {
    if evs != [] {
      KindRecovers(DropLast(evs), i);
      AccumulateKind(Blocks(DropLast(evs)), evs, i);
    }
  }

  lemma {:induction false} AccumulateKind(m: map<int, Block>, evs: seq<Event>, i: int)
    requires evs != [] && (i in m <==> SentKind(DropLast(evs), i).Some?)
    requires i in m ==> SentKind(DropLast(evs), i) == Some(m[i].kind) && m[i].redacted == ""
    ensures var m' := Accumulate(m, Last(evs));
      (i in m' <==> SentKind(evs, i).Some?) && (i in m' ==> SentKind(evs, i) == Some(m'[i].kind) && m'[i].redacted == "")
  {
  }

  // m is what the events before the last accumulated to.
  lemma {:induction false} PartRecovers(m: map<int, Block>, evs: seq<Event>, i: int, p: Part)
    requires evs != [] && i in Accumulate(m, Last(evs))
    requires i in m <==> TouchedIndex(DropLast(evs), i)
    requires i in m ==> Get(m[i], p) == Sent(SinceToolStart(DropLast(evs), i), i, p)
    ensures Get(Accumulate(m, Last(evs))[i], p) == Sent(SinceToolStart(evs, i), i, p)
  {
    var ev := Last(evs);
    if ev.ToolCallStart? && ev.index == i {
      assert DropLast([ev]) == [];
    } else {
      SinceStep(evs, i, p);
      if i !in m {
        UntouchedSinceSendsNothing(DropLast(evs), i, p);
      }
      AccumulateAdds(m, ev, i, p);
    }
  }

  lemma {:induction false} AccumulateAdds(m: map<int, Block>, ev: Event, i: int, p: Part)
    requires !(ev.ToolCallStart? && ev.index == i) && i in Accumulate(m, ev)
    ensures Get(Accumulate(m, ev)[i], p) == (if i in m then Get(m[i], p) else "") + Piece(ev, i, p)
  {
  }

  lemma {:induction false} HeadRecovers(evs: seq<Event>, i: int)
    requires evs != [] && i in Blocks(evs)
    requires i in Blocks(DropLast(evs)) <==> TouchedIndex(DropLast(evs), i)
    requires i in Blocks(DropLast(evs)) ==> HasHead(Blocks(DropLast(evs))[i], DropLast(evs), i)
    ensures HasHead(Blocks(evs)[i], evs, i)
  {
    if i !in Blocks(DropLast(evs)) {
      UntouchedHasNoHead(DropLast(evs), i);
    }
    AccumulateHead(Blocks(DropLast(evs)), Last(evs), i);
  }

  ghost predicate HasHead(b: Block, evs: seq<Event>, i: int) {
    b.index == i && (b.toolId, b.toolName) == ToolHead(evs, i)
  }

  lemma {:induction false} AccumulateHead(m: map<int, Block>, ev: Event, i: int)
    requires i in Accumulate(m, ev) && (i in m ==> m[i].index == i)
    ensures var b := Accumulate(m, ev)[i];
      && b.index == i
      && (b.toolId, b.toolName) == (if ev.ToolCallStart? && ev.index == i then (ev.id, ev.name)
                                    else if i in m then (m[i].toolId, m[i].toolName) else ("", ""))
  {
  }

  // ---------------------------------------------------------------- the theorems

  /** The outcome every stream decodes to, whatever the event sequence. */
  ghost predicate RoundTrips(d: State, evs: seq<Event>) {
    && (forall i :: i in d.blocks <==> TouchedIndex(evs, i))
    && (forall i :: i in d.blocks ==> Recovers(d.blocks[i], evs, i))
    && d.completed == Opened(evs)
    && (d.completed ==> InAnthropicWords(if FirstFinish(evs).Some? then FirstFinish(evs).value else "", d.stopReason))
    && d.error == LastError(evs)
  }

  lemma {:induction false} CloseTells(e: Enc, d: State, evs: seq<Event>)
    requires Told(e, d, evs)
    ensures var d' := HandleFrames(d, CloseStep(e).frames);
            && d'.blocks == d.blocks && d'.error == d.error && d'.completed == e.started
            && (d'.completed ==> d'.stopReason == MapStopReason(if e.stopped then FirstFinish(evs).value else ""))
  {
    if !e.stopped {
      var b := StopOpen(e);
      StopOpenKeeps(e, d);
      if e.started {
        var c := EndMessage(b.enc, "end_turn");
        HandleFramesConcat(d, b.frames, c.frames);
        EndFrames(b.enc, HandleFrames(d, b.frames), "end_turn");
      }
    }
  }

  lemma {:induction false} FramesRoundTrip(id: string, model: string, evs: seq<Event>)
    ensures RoundTrips(HandleFrames(FRESH_STATE, EncodeAll(NewEnc(id, model), evs).frames), evs)
  {
    var e0 := NewEnc(id, model);
    var a := EncodeRun(e0, evs);
    RunTells(e0, evs);
    HandleFramesConcat(FRESH_STATE, a.frames, CloseStep(a.enc).frames);
    CloseTells(a.enc, HandleFrames(FRESH_STATE, a.frames), evs);
    forall i ensures i in Blocks(evs) <==> TouchedIndex(evs, i)
             ensures i in Blocks(evs) ==> Recovers(Blocks(evs)[i], evs, i) {
      BlocksRecover(evs, i);
    }
  }

  /** Encode, write, read, decode: for every event sequence. */
  lemma {:induction false} StreamRoundTrip(marshal: Frame -> string, unmarshal: string -> Option<Raw>,
                                           id: string, model: string, evs: seq<Event>)
    requires JsonContract(marshal, unmarshal)
    ensures var r := DecodeText(unmarshal, RenderAll(marshal, EncodeAll(NewEnc(id, model), evs).frames));
            r.Decoded? && RoundTrips(r.state, evs)
  {
    BytesToFrames(marshal, unmarshal, EncodeAll(NewEnc(id, model), evs).frames);
    FramesRoundTrip(id, model, evs);
  }

  method EncodeToText(marshal: Frame -> string, id: string, model: string, evs: seq<Event>) returns (text: string)
    ensures text == RenderAll(marshal, EncodeAll(NewEnc(id, model), evs).frames)
  {
    var encoder := new AnthropicStreamEncoder(model, id);
    encoder.EncodeStream(evs);
    ghost var out := EncodeAll(NewEnc(id, model), evs);
    assert encoder.w == [] + out.frames == out.frames;
    text := RenderAll(marshal, encoder.w);
  }

  /** The same through the two objects: one encodes the events, the other reads the text that was written. */
  method Relay(marshal: Frame -> string, unmarshal: string -> Option<Raw>, id: string, model: string, evs: seq<Event>)
    returns (r: Result)
    requires JsonContract(marshal, unmarshal)
    ensures r.Decoded? && RoundTrips(r.state, evs)
  {
    var text := EncodeToText(marshal, id, model, evs);
    StreamRoundTrip(marshal, unmarshal, id, model, evs);
    var decoder := new Decoder(unmarshal);
    r := decoder.Decode(text);
  }

  // ---------------------------------------------------------------- when nothing is lost

  // The part of the sequence before the last tool start on i (empty when there is none).
  function BeforeToolStart(evs: seq<Event>, i: int): seq<Event> {
    if evs == [] then []
    else if Last(evs).ToolCallStart? && Last(evs).index == i then DropLast(evs)
    else BeforeToolStart(DropLast(evs), i)
  }

  lemma {:induction false} SplitAtToolStart(evs: seq<Event>, i: int, p: Part)
    ensures Sent(evs, i, p) == Sent(BeforeToolStart(evs, i), i, p) + Sent(SinceToolStart(evs, i), i, p)
    decreases |evs|
  {
    if evs != [] {
      if Last(evs).ToolCallStart? && Last(evs).index == i {
        assert DropLast([Last(evs)]) == [];
      } else {
        SplitAtToolStart(DropLast(evs), i, p);
        SinceStep(evs, i, p);
        AppendAssoc(Sent(BeforeToolStart(evs, i), i, p), Sent(SinceToolStart(DropLast(evs), i), i, p),
                    Piece(Last(evs), i, p));
      }
    }
  }

  ghost predicate RecoversAll(b: Block, evs: seq<Event>, i: int) {
    forall p :: Get(b, p) == Sent(evs, i, p)
  }

  /** A decoded block holds the whole concatenation of its index's deltas exactly when every delta on that
      index before its last ToolCallStart was empty. */
  lemma {:induction false} NothingLostIff(d: State, evs: seq<Event>, i: int)
    requires RoundTrips(d, evs) && i in d.blocks
    ensures RecoversAll(d.blocks[i], evs, i) <==> (forall p :: Sent(BeforeToolStart(evs, i), i, p) == "")
  {
    var b := d.blocks[i];
    assert Recovers(b, evs, i);
    forall p ensures Get(b, p) == Sent(evs, i, p) <==> Sent(BeforeToolStart(evs, i), i, p) == "" {
      SplitAtToolStart(evs, i, p);
      assert Get(b, p) == Sent(SinceToolStart(evs, i), i, p);
    }
    if RecoversAll(b, evs, i) {
      forall p ensures Sent(BeforeToolStart(evs, i), i, p) == "" {
        assert Get(b, p) == Sent(evs, i, p);
      }
    } else {
      var p :| Get(b, p) != Sent(evs, i, p);
      assert Sent(BeforeToolStart(evs, i), i, p) != "";
    }
  }

  lemma {:induction false} BeforeIsPrefix(evs: seq<Event>, i: int)
    ensures var b := BeforeToolStart(evs, i);
            b <= evs && (b != [] ==> |b| < |evs| && evs[|b|].ToolCallStart? && evs[|b|].index == i)
    decreases |evs|
  {
    if evs != [] && !(Last(evs).ToolCallStart? && Last(evs).index == i) {
      BeforeIsPrefix(DropLast(evs), i);
    }
  }

  /** Under the providers' index discipline nothing is lost, on any index. */
  lemma {:induction false} DisciplinedStreamsLoseNothing(d: State, evs: seq<Event>, i: int)
    requires RoundTrips(d, evs) && i in d.blocks && ToolStartsAreFirst(evs)
    ensures RecoversAll(d.blocks[i], evs, i)
  {
    var b := BeforeToolStart(evs, i);
    BeforeIsPrefix(evs, i);
    if b != [] {
      forall k | 0 <= k < |b| ensures !b[k].TouchesIndex(i) {
        assert b[k] == evs[k];
      }
    }
    forall p ensures Sent(b, i, p) == "" {
      UntouchedSendsNothing(b, i, p);
    }
    NothingLostIff(d, evs, i);
  }

  /** Without the discipline text really is lost: a tool start on an index that already carried text. */
  lemma {:induction false} UndisciplinedStreamLosesText(d: State)
    requires RoundTrips(d, [TextDelta(0, "a"), ToolCallStart(0, "t", "f")])
    ensures 0 in d.blocks && d.blocks[0].text == "" && Sent([TextDelta(0, "a"), ToolCallStart(0, "t", "f")], 0, PText) == "a"
  {
    var evs := [TextDelta(0, "a"), ToolCallStart(0, "t", "f")];
    assert evs[0].TouchesIndex(0);
    assert TouchedIndex(evs, 0);
    assert DropLast(evs) == [evs[0]] && DropLast([evs[0]]) == [] && DropLast([evs[1]]) == [];
    assert SinceToolStart(evs, 0) == [evs[1]];
    assert Get(d.blocks[0], PText) == Sent([evs[1]], 0, PText);
    assert Sent([evs[0]], 0, PText) == Sent([], 0, PText) + "a";
  }
}
