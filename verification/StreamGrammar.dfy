/** The shape of an Anthropic stream.  Two results about every event sequence with indices >= 0:
    a weak shape that always holds, and the full grammar

      message_start (start(i) delta(i)* stop(i))* message_delta message_stop,  all i distinct,

    (error frames aside) that holds exactly for sequences with index discipline. */
module StreamGrammar {
  import opened Common
  import opened Events
  import opened AnthropicEncoder

  // ---------------------------------------------------------------- the grammar

  // One content block: its start, its deltas, its stop.
  datatype Segment = Segment(index: int, start: StartKind, deltas: seq<Delta>)

  datatype Transcript = Transcript(id: string, model: string, usage: Usage, blocks: seq<Segment>,
                                   stopReason: string, tokens: int)

  function DeltaFrames(i: int, ds: seq<Delta>): seq<Frame> {
    if ds == [] then [] else [FBlockDelta(i, ds[0])] + DeltaFrames(i, ds[1..])
  }

  function SegmentFrames(s: Segment): seq<Frame> {
    [FBlockStart(s.index, s.start)] + (DeltaFrames(s.index, s.deltas) + [FBlockStop(s.index)])
  }

  function BlockFrames(bs: seq<Segment>): seq<Frame> {
    if bs == [] then [] else SegmentFrames(bs[0]) + BlockFrames(bs[1..])
  }

  function TailFrames(reason: string, tokens: int): seq<Frame> {
    [FMessageDelta(reason, tokens), FMessageStop]
  }

  function TranscriptFrames(t: Transcript): seq<Frame> {
    [FMessageStart(t.id, t.model, t.usage)] + (BlockFrames(t.blocks) + TailFrames(t.stopReason, t.tokens))
  }

  // Block indices are pairwise distinct and avoid `used`.
  ghost predicate FreshIndices(bs: seq<Segment>, used: set<int>) {
    bs == [] || (bs[0].index !in used && FreshIndices(bs[1..], used + {bs[0].index}))
  }

  function WithoutErrors(fs: seq<Frame>): seq<Frame> {
    if fs == [] then [] else (if fs[0].FError? then [] else [fs[0]]) + WithoutErrors(fs[1..])
  }

  /** fs is one complete message. */
  ghost predicate Grammatical(fs: seq<Frame>) {
    exists t :: WithoutErrors(fs) == TranscriptFrames(t) && FreshIndices(t.blocks, {})
  }

  // ---------------------------------------------------------------- an acceptor for it

  datatype Acceptor = Start | Body(open: Option<int>, used: set<int>) | Tail | Ended | Bad

  function Accept(g: Acceptor, f: Frame): Acceptor {
    match (g, f)
    case (_, FError(_, _)) => g
    case (Start, FMessageStart(_, _, _)) => Body(None, {})
    case (Body(None, used), FBlockStart(i, _)) => if i in used then Bad else Body(Some(i), used + {i})
    case (Body(Some(j), used), FBlockDelta(i, _)) => if i == j then g else Bad
    case (Body(Some(j), used), FBlockStop(i)) => if i == j then Body(None, used) else Bad
    case (Body(None, used), FMessageDelta(_, _)) => Tail
    case (Tail, FMessageStop) => Ended
    case _ => Bad
  }

  function AcceptAll(g: Acceptor, fs: seq<Frame>): Acceptor
    decreases |fs|
  {
    if fs == [] then g else AcceptAll(Accept(g, fs[0]), fs[1..])
  }

  lemma {:induction false} AcceptConcat(g: Acceptor, a: seq<Frame>, b: seq<Frame>)
    ensures AcceptAll(g, a + b) == AcceptAll(AcceptAll(g, a), b)
    decreases |a|
  {
    if a == [] {
      assert a + b == b;
    } else {
      assert (a + b)[0] == a[0] && (a + b)[1..] == a[1..] + b;
      AcceptConcat(Accept(g, a[0]), a[1..], b);
    }
  }

  lemma {:induction false} BadStays(fs: seq<Frame>)
    ensures AcceptAll(Bad, fs) == Bad
    decreases |fs|
  {
    if fs != [] {
      BadStays(fs[1..]);
    }
  }

  lemma {:induction false} EndedStays(fs: seq<Frame>)
    requires AcceptAll(Ended, fs) == Ended
    ensures WithoutErrors(fs) == []
    decreases |fs|
  {
    if fs != [] {
      if fs[0].FError? {
        EndedStays(fs[1..]);
      } else {
        BadStays(fs[1..]);
      }
    }
  }

  lemma {:induction false} TailParses(fs: seq<Frame>)
    requires AcceptAll(Tail, fs) == Ended
    ensures WithoutErrors(fs) == [FMessageStop]
    decreases |fs|
  {
    if fs != [] {
      if fs[0].FError? {
        TailParses(fs[1..]);
      } else if fs[0] == FMessageStop {
        EndedStays(fs[1..]);
      } else {
        BadStays(fs[1..]);
      }
    }
  }

  // What is still to come, with no block open.
  lemma {:induction false} BodyParses(fs: seq<Frame>, used: set<int>)
      returns (bs: seq<Segment>, reason: string, tokens: int)
    requires AcceptAll(Body(None, used), fs) == Ended
    ensures WithoutErrors(fs) == BlockFrames(bs) + TailFrames(reason, tokens)
    ensures FreshIndices(bs, used)
    decreases |fs|
  {
    bs, reason, tokens := [], "", 0;
    var f, rest := fs[0], fs[1..];
    match f {
      case FError(_, _) =>
        bs, reason, tokens := BodyParses(rest, used);
      case FMessageDelta(r, t) =>
        TailParses(rest);
        reason, tokens := r, t;
      case FBlockStart(i, start) =>
        if i in used {
          BadStays(rest);
        } else {
          var ds;
          ds, bs, reason, tokens := BlockParses(rest, i, used + {i});
          var s := Segment(i, start, ds);
          bs := [s] + bs;
          assert bs[1..] == bs[1..] && bs[0] == s;
          AppendAssoc([f], DeltaFrames(i, ds) + [FBlockStop(i)], BlockFrames(bs[1..]) + TailFrames(reason, tokens));
          AppendAssoc(SegmentFrames(s), BlockFrames(bs[1..]), TailFrames(reason, tokens));
        }
      case _ =>
        BadStays(rest);
    }
  }

  // What is still to come, inside block i.
  lemma {:induction false} BlockParses(fs: seq<Frame>, i: int, used: set<int>)
      returns (ds: seq<Delta>, bs: seq<Segment>, reason: string, tokens: int)
    requires AcceptAll(Body(Some(i), used), fs) == Ended
    ensures WithoutErrors(fs)
         == DeltaFrames(i, ds) + [FBlockStop(i)] + (BlockFrames(bs) + TailFrames(reason, tokens))
    ensures FreshIndices(bs, used)
    decreases |fs|
  {
    ds, bs, reason, tokens := [], [], "", 0;
    var f, rest := fs[0], fs[1..];
    if f.FError? {
      ds, bs, reason, tokens := BlockParses(rest, i, used);
    } else if f.FBlockDelta? && f.index == i {
      ds, bs, reason, tokens := BlockParses(rest, i, used);
      var tail := BlockFrames(bs) + TailFrames(reason, tokens);
      var all := [f.delta] + ds;
      assert all[1..] == ds;
      AppendAssoc([f], DeltaFrames(i, ds), [FBlockStop(i)]);
      AppendAssoc([f], DeltaFrames(i, ds) + [FBlockStop(i)], tail);
      ds := all;
    } else if f == FBlockStop(i) {
      bs, reason, tokens := BodyParses(rest, used);
      assert DeltaFrames(i, []) + [f] == [f];
    } else {
      BadStays(rest);
    }
  }

  lemma {:induction false} AcceptedIsGrammatical(fs: seq<Frame>)
    requires AcceptAll(Start, fs) == Ended
    ensures Grammatical(fs)
    decreases |fs|
  {
    var f, rest := fs[0], fs[1..];
    match f {
      case FError(_, _) =>
        AcceptedIsGrammatical(rest);
      case FMessageStart(id, model, usage) =>
        var bs, reason, tokens := BodyParses(rest, {});
        var t := Transcript(id, model, usage, bs, reason, tokens);
        assert WithoutErrors(fs) == TranscriptFrames(t);
      case _ =>
        BadStays(rest);
    }
  }

  lemma {:induction false} ErrorsDoNotMatter(g: Acceptor, fs: seq<Frame>)
    ensures AcceptAll(g, WithoutErrors(fs)) == AcceptAll(g, fs)
    decreases |fs|
  {
    if fs != [] {
      if fs[0].FError? {
        assert [] + WithoutErrors(fs[1..]) == WithoutErrors(fs[1..]);
        ErrorsDoNotMatter(g, fs[1..]);
      } else {
        assert ([fs[0]] + WithoutErrors(fs[1..]))[1..] == WithoutErrors(fs[1..]);
        ErrorsDoNotMatter(Accept(g, fs[0]), fs[1..]);
      }
    }
  }

  lemma {:induction false} DeltasAccepted(i: int, ds: seq<Delta>, used: set<int>)
    ensures AcceptAll(Body(Some(i), used), DeltaFrames(i, ds)) == Body(Some(i), used)
    decreases |ds|
  {
    if ds != [] {
      assert ([FBlockDelta(i, ds[0])] + DeltaFrames(i, ds[1..]))[1..] == DeltaFrames(i, ds[1..]);
      DeltasAccepted(i, ds[1..], used);
    }
  }

  lemma {:induction false} SegmentAccepted(s: Segment, used: set<int>)
    requires s.index !in used
    ensures AcceptAll(Body(None, used), SegmentFrames(s)) == Body(None, used + {s.index})
  {
    var ds, stop := DeltaFrames(s.index, s.deltas), [FBlockStop(s.index)];
    assert SegmentFrames(s)[1..] == ds + stop;
    DeltasAccepted(s.index, s.deltas, used + {s.index});
    AcceptConcat(Body(Some(s.index), used + {s.index}), ds, stop);
    assert stop[1..] == [];
  }

  lemma {:induction false} BlocksAccepted(bs: seq<Segment>, used: set<int>, reason: string, tokens: int)
    requires FreshIndices(bs, used)
    ensures AcceptAll(Body(None, used), BlockFrames(bs) + TailFrames(reason, tokens)) == Ended
    decreases |bs|
  {
    var tail := TailFrames(reason, tokens);
    if bs == [] {
      assert [] + tail == tail;
      assert tail[1..] == [FMessageStop] && [FMessageStop][1..] == [];
    } else {
      SegmentAccepted(bs[0], used);
      BlocksAccepted(bs[1..], used + {bs[0].index}, reason, tokens);
      AppendAssoc(SegmentFrames(bs[0]), BlockFrames(bs[1..]), tail);
      AcceptConcat(Body(None, used), SegmentFrames(bs[0]), BlockFrames(bs[1..]) + tail);
    }
  }

  /** The acceptor recognises the grammar. */
  lemma {:induction false} AcceptorIsGrammar(fs: seq<Frame>)
    ensures AcceptAll(Start, fs) == Ended <==> Grammatical(fs)
  {
    if AcceptAll(Start, fs) == Ended {
      AcceptedIsGrammatical(fs);
    }
    if Grammatical(fs) {
      var t :| WithoutErrors(fs) == TranscriptFrames(t) && FreshIndices(t.blocks, {});
      var rest := BlockFrames(t.blocks) + TailFrames(t.stopReason, t.tokens);
      assert TranscriptFrames(t)[1..] == rest;
      BlocksAccepted(t.blocks, {}, t.stopReason, t.tokens);
      ErrorsDoNotMatter(Start, fs);
    }
  }

  // ---------------------------------------------------------------- index discipline

  ghost predicate Stopped(evs: seq<Event>) {
    exists k :: 0 <= k < |evs| && evs[k].MessageStop?
  }

  // The block an event sequence leaves open.
  ghost function OpenIndex(evs: seq<Event>): Option<int> {
    if evs == [] then None
    else
      var before, ev := DropLast(evs), Last(evs);
      var open := OpenIndex(before);
      if ev.ToolCallStart? then Some(ev.index)
      else if ev.IsContent() then (if TouchedIndex(before, ev.index) && open != Some(ev.index) then None else Some(ev.index))
      else if ev.ToolCallStop? && open == Some(ev.index) then None
      else if ev.MessageStop? && !Stopped(before) then None
      else open
  }

  /** Event ev may follow `before`: a tool start needs a fresh index, a delta the open block or a fresh index,
      and after MessageStop only a redundant block start is harmless. */
  ghost predicate MayFollow(before: seq<Event>, ev: Event) {
    if !ev.IsContent() then true
    else if Stopped(before) then ev.BlockStart? && TouchedIndex(before, ev.index)
    else if ev.BlockStart? then true
    else if ev.ToolCallStart? then !TouchedIndex(before, ev.index)
    else OpenIndex(before) == Some(ev.index) || !TouchedIndex(before, ev.index)
  }

  ghost predicate Disciplined(evs: seq<Event>) {
    evs == [] || (Disciplined(DropLast(evs)) && MayFollow(DropLast(evs), Last(evs)))
  }

  ghost predicate NonNegative(evs: seq<Event>) {
    forall k :: 0 <= k < |evs| && (evs[k].IsContent() || evs[k].ToolCallStop?) ==> evs[k].index >= 0
  }

  // ---------------------------------------------------------------- the encoder follows both

  function OpenOf(e: Enc): Option<int> {
    if e.activeIndex == -1 then None else Some(e.activeIndex)
  }

  // The encoder's fields, read off the events.
  ghost predicate Fields(e: Enc, evs: seq<Event>) {
    && e.started == Opened(evs)
    && e.stopped == Stopped(evs)
    && OpenOf(e) == OpenIndex(evs)
    && (forall i :: i in e.startedBlocks <==> TouchedIndex(evs, i))
    && (e.stopped ==> e.started)
    && (e.activeIndex != -1 ==> e.started && e.activeIndex >= 0)
  }

  // Where the acceptor stands while the events are disciplined.
  function Position(e: Enc): Acceptor {
    if e.stopped then Ended
    else if e.started then Body(OpenOf(e), e.startedBlocks)
    else Start
  }

  ghost predicate Follows(e: Enc, g: Acceptor, evs: seq<Event>) {
    if Disciplined(evs) then
      && g == Position(e)
      && (e.stopped ==> e.activeIndex == -1)
      && (!e.started ==> e.startedBlocks == {} && e.activeIndex == -1)
    else g == Bad
  }

  lemma {:induction false} HistoryLast(evs: seq<Event>, i: int)
    requires evs != []
    ensures Opened(evs) == (Opened(DropLast(evs)) || Last(evs).OpensMessage())
    ensures Stopped(evs) == (Stopped(DropLast(evs)) || Last(evs).MessageStop?)
    ensures TouchedIndex(evs, i) == (TouchedIndex(DropLast(evs), i) || Last(evs).TouchesIndex(i))
  {
    var before := DropLast(evs);
    assert forall k :: 0 <= k < |before| ==> before[k] == evs[k];
    assert evs[|evs| - 1] == Last(evs);
    OpenedLast(evs);
    TouchedLast(evs, i);
    if Stopped(before) {
      var k :| 0 <= k < |before| && before[k].MessageStop?;
      assert evs[k].MessageStop?;
    }
  }

  lemma {:induction false} FieldsStep(e: Enc, evs: seq<Event>)
    requires evs != [] && NonNegative(evs) && Fields(e, DropLast(evs))
    ensures Fields(Step(e, Last(evs)).enc, evs)
  {
    var before, ev := DropLast(evs), Last(evs);
    assert evs[|evs| - 1] == ev;
    forall i ensures TouchedIndex(evs, i) == (TouchedIndex(before, i) || ev.TouchesIndex(i)) {
      HistoryLast(evs, i);
    }
    HistoryLast(evs, 0);
    FieldsAfter(e, ev);
  }

  // What one event does to the fields the grammar depends on.
  lemma {:induction false} FieldsAfter(e: Enc, ev: Event)
    requires (ev.IsContent() || ev.ToolCallStop?) ==> ev.index >= 0
    requires e.stopped ==> e.started
    ensures var e' := Step(e, ev).enc;
      && e'.started == (e.started || ev.OpensMessage())
      && e'.stopped == (e.stopped || ev.MessageStop?)
      && e'.startedBlocks == (if ev.IsContent() then e.startedBlocks + {ev.index} else e.startedBlocks)
      && OpenOf(e') == (if ev.ToolCallStart? then Some(ev.index)
                        else if ev.IsContent() then
                          (if ev.index in e.startedBlocks && OpenOf(e) != Some(ev.index) then None else Some(ev.index))
                        else if ev.ToolCallStop? && OpenOf(e) == Some(ev.index) then None
                        else if ev.MessageStop? && !e.stopped then None
                        else OpenOf(e))
  {
    if ev.IsContent() {
      FieldsAfterContent(e, ev);
    }
  }

  lemma {:induction false} FieldsAfterContent(e: Enc, ev: Event)
    requires ev.IsContent() && ev.index >= 0
    ensures var e' := Step(e, ev).enc;
      && e'.started && e'.stopped == e.stopped && e'.startedBlocks == e.startedBlocks + {ev.index}
      && OpenOf(e') == (if ev.ToolCallStart? || ev.index !in e.startedBlocks || OpenOf(e) == Some(ev.index) then Some(ev.index)
                        else None)
  {
  }

  lemma {:induction false} AcceptPrepare(e: Enc, g: Acceptor, i: int)
    requires g == Position(e) && i >= 0
    requires e.stopped ==> e.activeIndex == -1 && e.started
    requires !e.started ==> e.startedBlocks == {} && e.activeIndex == -1
    ensures AcceptAll(g, Prepare(e, i).frames) == Position(Prepare(e, i).enc)
  {
    var a := EnsureStart(e);
    var b := StopOther(a.enc, i);
    AcceptConcat(g, a.frames, b.frames);
    AcceptStart(e);
    AcceptStopOther(a.enc, i);
  }

  lemma {:induction false} AcceptStart(e: Enc)
    requires e.stopped ==> e.started
    requires !e.started ==> e.startedBlocks == {} && e.activeIndex == -1
    ensures AcceptAll(Position(e), EnsureStart(e).frames) == Position(EnsureStart(e).enc)
  {
    var f := FMessageStart(e.id, e.model, e.usage);
    assert [f][1..] == [];
  }

  lemma {:induction false} AcceptStopOther(e: Enc, i: int)
    requires e.started && (e.stopped ==> e.activeIndex == -1)
    ensures AcceptAll(Position(e), StopOther(e, i).frames) == Position(StopOther(e, i).enc)
  {
    assert [FBlockStop(e.activeIndex)][1..] == [];
  }

  // A content event with its blocks already prepared: opening frames, then the delta.
  lemma {:induction false} AcceptOpenIfNew(e: Enc, i: int, start: StartKind)
    requires e.started && i >= 0
    requires e.activeIndex == -1 || e.activeIndex == i
    requires e.stopped ==> e.activeIndex == -1
    requires e.activeIndex != -1 ==> e.activeIndex in e.startedBlocks
    ensures AcceptAll(Position(e), OpenIfNew(e, i, start).frames)
         == if e.stopped && i !in e.startedBlocks then Bad else Position(OpenIfNew(e, i, start).enc)
  {
    assert [FBlockStart(i, start)][1..] == [];
  }

  lemma {:induction false} AcceptDelta(e: Enc, i: int, delta: Delta)
    requires e.started && i >= 0
    ensures AcceptAll(Position(e), [FBlockDelta(i, delta)])
         == if !e.stopped && e.activeIndex == i then Position(e) else Bad
  {
    assert [FBlockDelta(i, delta)][1..] == [];
  }

  lemma {:induction false} FollowsDelta(e: Enc, i: int, start: StartKind, delta: Delta)
    requires i >= 0 && (e.activeIndex != -1 ==> e.activeIndex in e.startedBlocks)
    requires e.stopped ==> e.activeIndex == -1 && e.started
    requires !e.started ==> e.startedBlocks == {} && e.activeIndex == -1
    ensures var o := EncodeDelta(e, i, start, delta);
            AcceptAll(Position(e), o.frames) ==
            if !e.stopped && (e.activeIndex == i || i !in e.startedBlocks) then Position(o.enc) else Bad
  {
    var a := Prepare(e, i);
    var b := OpenIfNew(a.enc, i, start);
    AcceptPrepare(e, Position(e), i);
    AcceptOpenIfNew(a.enc, i, start);
    AcceptDelta(b.enc, i, delta);
    AcceptConcat(Position(e), a.frames, b.frames);
    AcceptConcat(Position(e), a.frames + b.frames, [FBlockDelta(i, delta)]);
    BadStays([FBlockDelta(i, delta)]);
  }

  lemma {:induction false} FollowsBlockStart(e: Enc, i: int, kind: string)
    requires i >= 0 && (e.activeIndex != -1 ==> e.activeIndex in e.startedBlocks)
    requires e.stopped ==> e.activeIndex == -1 && e.started
    requires !e.started ==> e.startedBlocks == {} && e.activeIndex == -1
    ensures var o := Step(e, BlockStart(i, kind));
            AcceptAll(Position(e), o.frames) ==
            if e.stopped && i !in e.startedBlocks then Bad else Position(o.enc)
  {
    var a := Prepare(e, i);
    AcceptPrepare(e, Position(e), i);
    AcceptOpenIfNew(a.enc, i, StartFor(kind));
    AcceptConcat(Position(e), a.frames, OpenIfNew(a.enc, i, StartFor(kind)).frames);
  }

  lemma {:induction false} FollowsToolStart(e: Enc, i: int, id: string, name: string)
    requires i >= 0 && (e.activeIndex != -1 ==> e.activeIndex in e.startedBlocks)
    requires e.stopped ==> e.activeIndex == -1 && e.started
    requires !e.started ==> e.startedBlocks == {} && e.activeIndex == -1
    ensures var o := Step(e, ToolCallStart(i, id, name));
            AcceptAll(Position(e), o.frames) ==
            if e.stopped || i in e.startedBlocks then Bad else Position(o.enc)
  {
    var a := Prepare(e, i);
    var f := FBlockStart(i, StartToolUse(id, name));
    AcceptPrepare(e, Position(e), i);
    AcceptConcat(Position(e), a.frames, [f]);
    assert [f][1..] == [];
  }

  lemma {:induction false} FollowsStop(e: Enc, finish: string)
    requires !e.stopped
    requires !e.started ==> e.startedBlocks == {} && e.activeIndex == -1
    ensures AcceptAll(Position(e), Step(e, MessageStop(finish)).frames) == Ended
  {
    var a := EnsureStart(e);
    var b := StopOpen(a.enc);
    var c := EndMessage(b.enc, MapStopReason(finish));
    AcceptStart(e);
    AcceptEnd(a.enc, MapStopReason(finish));
    AppendAssoc(a.frames, b.frames, c.frames);
    AcceptConcat(Position(e), a.frames, b.frames + c.frames);
  }

  lemma {:induction false} AcceptEnd(e: Enc, reason: string)
    requires e.started && !e.stopped
    ensures AcceptAll(Position(e), StopOpen(e).frames + EndMessage(StopOpen(e).enc, reason).frames) == Ended
  {
    var b := StopOpen(e);
    var c := EndMessage(b.enc, reason);
    AcceptConcat(Position(e), b.frames, c.frames);
    assert [FBlockStop(e.activeIndex)][1..] == [];
    assert c.frames[1..] == [FMessageStop] && [FMessageStop][1..] == [];
  }

  // Events that are not content and do not end the message.
  lemma {:induction false} FollowsQuiet(e: Enc, ev: Event)
    requires !ev.IsContent() && (ev.MessageStop? ==> e.stopped) && (ev.ToolCallStop? ==> ev.index >= 0)
    requires e.stopped ==> e.activeIndex == -1 && e.started
    requires !e.started ==> e.startedBlocks == {} && e.activeIndex == -1
    ensures AcceptAll(Position(e), Step(e, ev).frames) == Position(Step(e, ev).enc)
  {
    if ev.ToolCallStop? {
      assert [FBlockStop(ev.index)][1..] == [];
    }
    if ev.MessageStart? {
      AcceptStart(if ev.id != "" then e.(id := ev.id) else e);
    }
    if ev.UpstreamError? {
      assert [FError(ev.kind, ev.message)][1..] == [];
    }
  }

  lemma {:induction false} FollowsStep(e: Enc, evs: seq<Event>)
    requires evs != [] && NonNegative(evs) && Fields(e, DropLast(evs)) && Disciplined(DropLast(evs))
    requires e.stopped ==> e.activeIndex == -1
    requires !e.started ==> e.startedBlocks == {} && e.activeIndex == -1
    requires e.activeIndex != -1 ==> e.activeIndex in e.startedBlocks
    ensures var o := Step(e, Last(evs));
            AcceptAll(Position(e), o.frames) == if Disciplined(evs) then Position(o.enc) else Bad
  {
    var ev := Last(evs);
    assert evs[|evs| - 1] == ev;
    match ev {
      case TextDelta(i, s) => FollowsDelta(e, i, StartText, Text(s));
      case ReasoningDelta(i, s) => FollowsDelta(e, i, StartThinking, Thinking(s));
      case ReasoningSignature(i, s) => FollowsDelta(e, i, StartThinking, Signature(s));
      case ToolArgumentsDelta(i, s) => FollowsDelta(e, i, StartToolUse("", ""), InputJson(s));
      case BlockStart(i, kind) => FollowsBlockStart(e, i, kind);
      case ToolCallStart(i, id, name) => FollowsToolStart(e, i, id, name);
      case MessageStop(finish) =>
        if !e.stopped {
          FollowsStop(e, finish);
        } else {
          FollowsQuiet(e, ev);
        }
      case _ => FollowsQuiet(e, ev);
    }
  }

  lemma {:induction false} OpenIsTouched(evs: seq<Event>)
    ensures OpenIndex(evs).Some? ==> TouchedIndex(evs, OpenIndex(evs).value)
    decreases |evs|
  {
    if evs != [] {
      OpenIsTouched(DropLast(evs));
      if OpenIndex(evs).Some? {
        HistoryLast(evs, OpenIndex(evs).value);
      }
    }
  }

  lemma {:induction false} DisciplinedStopsClosed(evs: seq<Event>)
    requires Disciplined(evs)
    ensures Stopped(evs) ==> OpenIndex(evs) == None
    decreases |evs|
  {
    if evs != [] {
      DisciplinedStopsClosed(DropLast(evs));
      HistoryLast(evs, 0);
    }
  }

  lemma {:induction false} RunFollows(id: string, model: string, evs: seq<Event>)
    requires NonNegative(evs)
    ensures var a := EncodeRun(NewEnc(id, model), evs);
            Fields(a.enc, evs) && Follows(a.enc, AcceptAll(Start, a.frames), evs)
    decreases |evs|
  {
    var e0 := NewEnc(id, model);
    if evs != [] {
      var before := DropLast(evs);
      assert forall k :: 0 <= k < |before| ==> before[k] == evs[k];
      RunFollows(id, model, before);
      var a := EncodeRun(e0, before);
      var o := Step(a.enc, Last(evs));
      FieldsStep(a.enc, evs);
      AcceptConcat(Start, a.frames, o.frames);
      if Disciplined(before) {
        OpenIsTouched(before);
        FollowsStep(a.enc, evs);
        if Disciplined(evs) {
          StillFollows(o.enc, evs);
        }
      } else {
        BadStays(o.frames);
      }
    }
  }

  lemma {:induction false} StillFollows(e: Enc, evs: seq<Event>)
    requires Fields(e, evs) && Disciplined(evs)
    ensures Follows(e, Position(e), evs)
  {
    DisciplinedStopsClosed(evs);
    if !e.started {
      assert forall k, i :: 0 <= k < |evs| && evs[k].TouchesIndex(i) ==> evs[k].OpensMessage();
      assert forall i :: !TouchedIndex(evs, i);
      assert forall i :: i !in e.startedBlocks;
    }
  }

  /** A closed stream is one grammatical message exactly when its events keep the index discipline; a stream
      whose events never open a message carries nothing but errors. */
  lemma {:induction false} GrammarIff(id: string, model: string, evs: seq<Event>)
    requires NonNegative(evs)
    ensures var fs := EncodeAll(NewEnc(id, model), evs).frames;
            && (Opened(evs) ==> (Grammatical(fs) <==> Disciplined(evs)))
            && (!Opened(evs) ==> WithoutErrors(fs) == [])
  {
    var a := EncodeRun(NewEnc(id, model), evs);
    var c := CloseStep(a.enc);
    RunFollows(id, model, evs);
    AcceptConcat(Start, a.frames, c.frames);
    AcceptorIsGrammar(a.frames + c.frames);
    if Disciplined(evs) {
      if a.enc.started && !a.enc.stopped {
        AcceptEnd(a.enc, "end_turn");
      }
      if !a.enc.started {
        StartMeansNothing(a.frames + c.frames);
      }
    } else {
      BadStays(c.frames);
      UndisciplinedIsOpened(evs);
    }
  }

  lemma {:induction false} StartMeansNothing(fs: seq<Frame>)
    requires AcceptAll(Start, fs) == Start
    ensures WithoutErrors(fs) == []
    decreases |fs|
  {
    if fs != [] {
      if fs[0].FError? {
        StartMeansNothing(fs[1..]);
      } else {
        LeavesStart(Accept(Start, fs[0]), fs[1..]);
      }
    }
  }

  lemma {:induction false} LeavesStart(g: Acceptor, fs: seq<Frame>)
    requires g != Start
    ensures AcceptAll(g, fs) != Start
    decreases |fs|
  {
    if fs != [] {
      LeavesStart(Accept(g, fs[0]), fs[1..]);
    }
  }

  lemma {:induction false} UndisciplinedIsOpened(evs: seq<Event>)
    requires !Disciplined(evs)
    ensures Opened(evs)
    decreases |evs|
  {
    HistoryLast(evs, 0);
    if !Disciplined(DropLast(evs)) {
      UndisciplinedIsOpened(DropLast(evs));
    }
  }

  // A tool start, and an event after it that breaks the discipline.
  lemma {:induction false} BadAfterStart(id: string, model: string, ev: Event)
    requires !MayFollow([ToolCallStart(0, "t", "f")], ev) && ev.IsContent() && ev.index >= 0
    ensures !Grammatical(EncodeAll(NewEnc(id, model), [ToolCallStart(0, "t", "f"), ev]).frames)
  {
    var evs := [ToolCallStart(0, "t", "f"), ev];
    assert evs[0].OpensMessage();
    assert DropLast(evs) == [evs[0]] && Last(evs) == ev;
    GrammarIff(id, model, evs);
  }

  /** Starting a tool again on the index that is open escapes the grammar. */
  lemma {:induction false} RepeatedToolStartEscapes(id: string, model: string)
    ensures !Grammatical(EncodeAll(NewEnc(id, model), [ToolCallStart(0, "t", "f"), ToolCallStart(0, "u", "g")]).frames)
  {
    var first := [ToolCallStart(0, "t", "f")];
    assert first[0].TouchesIndex(0);
    BadAfterStart(id, model, ToolCallStart(0, "u", "g"));
  }

  // ---------------------------------------------------------------- what holds without discipline

  /** A reader of the frames: whether the message has started, the latest start not yet stopped, how much of
      the end pair has been seen, and whether every frame so far was in its place. */
  datatype Reader = Reader(started: bool, open: Option<int>, ending: nat, ok: bool)

  function Read(r: Reader, f: Frame): Reader {
    match f
    case FError(_, _) => r
    // at most one message_start
    case FMessageStart(_, _, _) => r.(started := true, ok := r.ok && !r.started)
    // blocks only after message_start
    case FBlockStart(i, _) => r.(open := Some(i), ok := r.ok && r.started)
    case FBlockDelta(_, _) => r.(ok := r.ok && r.started)
    // a stop closes the latest start that is still open
    case FBlockStop(i) => r.(open := None, ok := r.ok && r.started && r.open == Some(i))
    // message_delta and message_stop at most once, in this order, after message_start
    case FMessageDelta(_, _) => r.(ending := 1, ok := r.ok && r.started && r.ending == 0)
    case FMessageStop => r.(ending := 2, ok := r.ok && r.ending == 1)
  }

  function ReadAll(r: Reader, fs: seq<Frame>): Reader
    decreases |fs|
  {
    if fs == [] then r else ReadAll(Read(r, fs[0]), fs[1..])
  }

  lemma {:induction false} ReadConcat(r: Reader, a: seq<Frame>, b: seq<Frame>)
    ensures ReadAll(r, a + b) == ReadAll(ReadAll(r, a), b)
    decreases |a|
  {
    if a == [] {
      assert a + b == b;
    } else {
      assert (a + b)[0] == a[0] && (a + b)[1..] == a[1..] + b;
      ReadConcat(Read(r, a[0]), a[1..], b);
    }
  }

  const UNREAD := Reader(false, None, 0, true)

  function ReaderOf(e: Enc): Reader {
    Reader(e.started, OpenOf(e), if e.stopped then 2 else 0, true)
  }

  ghost predicate Sane(e: Enc) {
    (e.activeIndex != -1 ==> e.started && e.activeIndex >= 0) && (e.stopped ==> e.started)
  }

  lemma {:induction false} ReadPrepare(e: Enc, i: int)
    requires Sane(e)
    ensures ReadAll(ReaderOf(e), Prepare(e, i).frames) == ReaderOf(Prepare(e, i).enc)
  {
    var a := EnsureStart(e);
    ReadConcat(ReaderOf(e), a.frames, StopOther(a.enc, i).frames);
    assert [FMessageStart(e.id, e.model, e.usage)][1..] == [];
    assert [FBlockStop(e.activeIndex)][1..] == [];
  }

  lemma {:induction false} ReadOpen(e: Enc, i: int, start: StartKind)
    requires e.started && i >= 0
    ensures ReadAll(ReaderOf(e), Open(e, i, start).frames) == ReaderOf(Open(e, i, start).enc)
  {
    assert [FBlockStart(i, start)][1..] == [];
  }

  lemma {:induction false} ReadDelta(e: Enc, i: int, start: StartKind, delta: Delta)
    requires Sane(e) && i >= 0
    ensures var o := EncodeDelta(e, i, start, delta);
            ReadAll(ReaderOf(e), o.frames) == ReaderOf(o.enc) && Sane(o.enc)
  {
    var a := Prepare(e, i);
    var b := OpenIfNew(a.enc, i, start);
    ReadPrepare(e, i);
    ReadOpen(a.enc, i, start);
    ReadConcat(ReaderOf(e), a.frames, b.frames);
    ReadConcat(ReaderOf(e), a.frames + b.frames, [FBlockDelta(i, delta)]);
    assert [FBlockDelta(i, delta)][1..] == [];
  }

  lemma {:induction false} ReadEnd(e: Enc, reason: string)
    requires Sane(e) && e.started && !e.stopped
    ensures var o := EndMessage(StopOpen(e).enc, reason);
            ReadAll(ReaderOf(e), StopOpen(e).frames + o.frames) == ReaderOf(o.enc) && Sane(o.enc)
  {
    var b := StopOpen(e);
    var c := EndMessage(b.enc, reason);
    ReadConcat(ReaderOf(e), b.frames, c.frames);
    assert [FBlockStop(e.activeIndex)][1..] == [];
    assert c.frames[1..] == [FMessageStop] && [FMessageStop][1..] == [];
  }

  lemma {:induction false} ReadOther(e: Enc, ev: Event)
    requires Sane(e) && (ev.ToolCallStop? ==> ev.index >= 0)
    requires ev.MessageStart? || ev.ToolCallStop? || ev.UsageUpdate? || ev.UpstreamError? || (ev.MessageStop? && e.stopped)
    ensures var o := Step(e, ev); ReadAll(ReaderOf(e), o.frames) == ReaderOf(o.enc) && Sane(o.enc)
  {
  }

  lemma {:induction false} ReadDeltaStep(e: Enc, ev: Event)
    requires Sane(e) && ev.IsContent() && !ev.BlockStart? && !ev.ToolCallStart? && ev.index >= 0
    ensures var o := Step(e, ev); ReadAll(ReaderOf(e), o.frames) == ReaderOf(o.enc) && Sane(o.enc)
  {
    match ev {
      case TextDelta(i, s) => ReadDelta(e, i, StartText, Text(s));
      case ReasoningDelta(i, s) => ReadDelta(e, i, StartThinking, Thinking(s));
      case ReasoningSignature(i, s) => ReadDelta(e, i, StartThinking, Signature(s));
      case ToolArgumentsDelta(i, s) => ReadDelta(e, i, StartToolUse("", ""), InputJson(s));
    }
  }

  lemma {:induction false} ReadStep(e: Enc, ev: Event)
    requires Sane(e) && ((ev.IsContent() || ev.ToolCallStop?) ==> ev.index >= 0)
    ensures var o := Step(e, ev); ReadAll(ReaderOf(e), o.frames) == ReaderOf(o.enc) && Sane(o.enc)
  {
    if ev.IsContent() && !ev.BlockStart? && !ev.ToolCallStart? {
      ReadDeltaStep(e, ev);
      return;
    }
    match ev {
      case BlockStart(i, kind) =>
        var a := Prepare(e, i);
        ReadPrepare(e, i);
        ReadOpen(a.enc, i, StartFor(kind));
        ReadConcat(ReaderOf(e), a.frames, OpenIfNew(a.enc, i, StartFor(kind)).frames);
      case ToolCallStart(i, id, name) =>
        var a := Prepare(e, i);
        ReadPrepare(e, i);
        ReadOpen(a.enc, i, StartToolUse(id, name));
        ReadConcat(ReaderOf(e), a.frames, Open(a.enc, i, StartToolUse(id, name)).frames);
      case MessageStop(finish) =>
        if !e.stopped {
          var a := EnsureStart(e);
          assert [FMessageStart(e.id, e.model, e.usage)][1..] == [];
          ReadEnd(a.enc, MapStopReason(finish));
          var b := StopOpen(a.enc);
          var c := EndMessage(b.enc, MapStopReason(finish));
          AppendAssoc(a.frames, b.frames, c.frames);
          ReadConcat(ReaderOf(e), a.frames, b.frames + c.frames);
        }
      case _ => ReadOther(e, ev);
    }
  }

  lemma {:induction false} RunReads(id: string, model: string, evs: seq<Event>)
    requires NonNegative(evs)
    ensures var a := EncodeRun(NewEnc(id, model), evs);
            ReadAll(UNREAD, a.frames) == ReaderOf(a.enc) && Sane(a.enc)
    decreases |evs|
  {
    if evs != [] {
      var before := DropLast(evs);
      assert forall k :: 0 <= k < |before| ==> before[k] == evs[k];
      assert evs[|evs| - 1] == Last(evs);
      RunReads(id, model, before);
      var a := EncodeRun(NewEnc(id, model), before);
      ReadConcat(UNREAD, a.frames, Step(a.enc, Last(evs)).frames);
      ReadStep(a.enc, Last(evs));
    }
  }

  /** Whatever the events: message_start comes at most once and first, the end pair at most once, and every
      content_block_stop closes the latest start still open.  A started message is always ended. */
  lemma {:induction false} EveryStreamReadsWell(id: string, model: string, evs: seq<Event>)
    requires NonNegative(evs)
    ensures var r := ReadAll(UNREAD, EncodeAll(NewEnc(id, model), evs).frames);
            r.ok && (r.started ==> r.ending == 2)
  {
    var a := EncodeRun(NewEnc(id, model), evs);
    var c := CloseStep(a.enc);
    RunReads(id, model, evs);
    ReadConcat(UNREAD, a.frames, c.frames);
    if !a.enc.stopped && a.enc.started {
      ReadEnd(a.enc, "end_turn");
    }
  }
}
