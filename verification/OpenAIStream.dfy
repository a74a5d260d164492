/** The shape of an OpenAI stream (OpenAIStreamEncoder in pkg/codec/openai.go): how it begins and ends, whose id its chunks
    carry, and the usage and the errors it reports. */
module OpenAIStream {
  import opened Common
  import opened Events
  import opened OpenAIEncoder
  import F = FinishReasons

  // ---------------------------------------------------------------- what the events say

  // The id last given by a MessageStart.
  function IdOf(id: string, evs: seq<Event>): string {
    if evs == [] then id
    else if Last(evs).MessageStart? && Last(evs).id != "" then Last(evs).id
    else IdOf(id, DropLast(evs))
  }

  // The usage last reported.
  function UsageOf(evs: seq<Event>): Option<Usage> {
    if evs == [] then None
    else if Last(evs).UsageUpdate? then Some(Usage(Last(evs).prompt, Last(evs).completion, Last(evs).total))
    else UsageOf(DropLast(evs))
  }

  function ErrorsSent(evs: seq<Event>): seq<Chunk> {
    if evs == [] then []
    else ErrorsSent(DropLast(evs)) + if Last(evs).UpstreamError? then [ErrorChunk(Last(evs).kind, Last(evs).message)] else []
  }

  // Events before which the assistant's role is announced.
  predicate Speaks(ev: Event) {
    ev.MessageStart? || ev.TextDelta? || ev.ReasoningDelta? || ev.ToolCallStart?
  }

  ghost predicate HasSpoken(evs: seq<Event>) {
    exists k :: 0 <= k < |evs| && Speaks(evs[k])
  }

  lemma {:induction false} SpokenLast(evs: seq<Event>)
    requires evs != []
    ensures HasSpoken(evs) <==> HasSpoken(DropLast(evs)) || Speaks(Last(evs))
  {
    var front := DropLast(evs);
    assert forall k :: 0 <= k < |front| ==> front[k] == evs[k];
    assert evs[|evs| - 1] == Last(evs);
  }

  // ---------------------------------------------------------------- what the chunks say

  /** A reader of chunks: how many announce the role and how many finish, the errors, and whether any text, reasoning or tool
      call came before the role. */
  datatype Shape = Shape(roles: nat, finishes: nat, errors: seq<Chunk>, early: bool)

  const NO_SHAPE := Shape(0, 0, [], false)

  predicate Announces(c: Chunk) {
    c.Delta? && c.role == "assistant"
  }

  // Text, reasoning, or the start of a tool call, which has a name or an id.
  predicate Tells(c: Chunk) {
    c.Delta? && (c.content != "" || c.reasoning != "" || (c.tools != [] && (c.tools[0].id != "" || c.tools[0].name != "")))
  }

  function Read(s: Shape, c: Chunk): Shape {
    Shape(s.roles + (if Announces(c) then 1 else 0), s.finishes + (if c.Delta? && c.finish.Some? then 1 else 0),
          s.errors + (if c.ErrorChunk? then [c] else []), s.early || (Tells(c) && s.roles == 0))
  }

  function ReadAll(s: Shape, cs: seq<Chunk>): Shape
    decreases |cs|
  {
    if cs == [] then s else ReadAll(Read(s, cs[0]), cs[1..])
  }

  lemma {:induction false} ReadConcat(s: Shape, a: seq<Chunk>, b: seq<Chunk>)
    ensures ReadAll(s, a + b) == ReadAll(ReadAll(s, a), b)
    decreases |a|
  {
    if a == [] {
      assert a + b == b;
    } else {
      assert (a + b)[0] == a[0] && (a + b)[1..] == a[1..] + b;
      ReadConcat(Read(s, a[0]), a[1..], b);
    }
  }

  lemma {:induction false} ReadOne(s: Shape, c: Chunk)
    ensures ReadAll(s, [c]) == Read(s, c)
  {
    assert [c][1..] == [];
  }

  // ---------------------------------------------------------------- one event

  lemma {:induction false} ReadStart(s: Shape, e: Enc)
    ensures ReadAll(s, EnsureStart(e).chunks) == if e.started then s else s.(roles := s.roles + 1)
  {
    ReadOne(s, RoleChunk(e.id));
    assert s.errors + [] == s.errors;
  }

  lemma {:induction false} ReadStartThen(s: Shape, e: Enc, c: Chunk)
    requires c.Delta? && c.role == "" && c.finish.None? && (e.started ==> s.roles > 0)
    ensures ReadAll(s, StartThen(e, c).chunks) == if e.started then s else s.(roles := s.roles + 1)
  {
    var a := EnsureStart(e);
    ReadConcat(s, a.chunks, [c]);
    ReadStart(s, e);
    ReadOne(ReadAll(s, a.chunks), c);
    assert s.errors + [] == s.errors;
  }

  lemma {:induction false} ReadSilent(s: Shape, c: Chunk)
    requires c.Delta? && c.role == "" && !Tells(c)
    ensures ReadAll(s, [c]) == if c.finish.Some? then s.(finishes := s.finishes + 1) else s
  {
    ReadOne(s, c);
    assert s.errors + [] == s.errors;
  }

  lemma {:induction false} StepShape(s: Shape, e: Enc, ev: Event)
    requires e.started ==> s.roles > 0
    ensures ReadAll(s, Step(e, ev).chunks)
         == Shape(s.roles + (if Speaks(ev) && !e.started then 1 else 0), s.finishes + (if ev.MessageStop? && !e.stopped then 1 else 0),
                  s.errors + (if ev.UpstreamError? then [ErrorChunk(ev.kind, ev.message)] else []), s.early)
  {
    assert s.errors + [] == s.errors;
    match ev
    case MessageStart(id) => ReadStart(s, if id != "" then e.(id := id) else e);
    case TextDelta(_, t) => ReadStartThen(s, e, Delta(e.id, "", t, "", [], None));
    case ReasoningDelta(_, t) => ReadStartThen(s, e, Delta(e.id, "", "", t, [], None));
    case ToolCallStart(i, id, name) =>
      ReadStartThen(s, e.(sawToolCalls := true), Delta(e.id, "", "", "", [ToolDelta(i, id, name, "")], None));
    case ToolArgumentsDelta(i, args) => ReadSilent(s, Delta(e.id, "", "", "", [ToolDelta(i, "", "", args)], None));
    case MessageStop(finish) =>
      if !e.stopped {
        ReadSilent(s, Delta(e.id, "", "", "", [], Some(FinishReason(e.sawToolCalls, finish))));
      }
    case UpstreamError(kind, message) => ReadOne(s, ErrorChunk(kind, message));
    case _ =>
  }

  // The chunks of a step carry the id as it is after the step, and none of them ends the stream.
  predicate Carries(c: Chunk, id: string) {
    match c
    case Delta(i, role, _, _, _, _) => i == id && (role == "" || role == "assistant")
    case ErrorChunk(_, _) => true
    case _ => false
  }

  lemma {:induction false} StepCarries(e: Enc, ev: Event)
    ensures forall c :: c in Step(e, ev).chunks ==> Carries(c, Step(e, ev).enc.id)
  {
  }

  lemma {:induction false} StepFields(e: Enc, ev: Event)
    ensures var e' := Step(e, ev).enc;
      && e'.id == (if ev.MessageStart? && ev.id != "" then ev.id else e.id)
      && e'.lastUsage == (if ev.UsageUpdate? then Some(Usage(ev.prompt, ev.completion, ev.total)) else e.lastUsage)
      && e'.started == (e.started || Speaks(ev)) && e'.includeUsage == e.includeUsage && e'.closed == e.closed
  {
  }

  // ---------------------------------------------------------------- runs

  ghost predicate Fields(e: Enc, id: string, includeUsage: bool, evs: seq<Event>) {
    && e.id == IdOf(id, evs) && e.lastUsage == UsageOf(evs) && (e.started <==> HasSpoken(evs))
    && (e.stopped <==> F.StopAt(evs) < |evs|) && e.includeUsage == includeUsage && !e.closed
  }

  ghost predicate Shaped(s: Shape, evs: seq<Event>) {
    s == Shape(if HasSpoken(evs) then 1 else 0, if F.StopAt(evs) < |evs| then 1 else 0, ErrorsSent(evs), false)
  }

  lemma {:induction false} RunShape(id: string, includeUsage: bool, evs: seq<Event>)
    ensures var r := EncodeRun(NewEnc(id, includeUsage), evs);
      Fields(r.enc, id, includeUsage, evs) && Shaped(ReadAll(NO_SHAPE, r.chunks), evs)
    decreases |evs|
  {
    if evs != [] {
      var r, ev := EncodeRun(NewEnc(id, includeUsage), DropLast(evs)), Last(evs);
      RunShape(id, includeUsage, DropLast(evs));
      ReadConcat(NO_SHAPE, r.chunks, Step(r.enc, ev).chunks);
      StepShape(ReadAll(NO_SHAPE, r.chunks), r.enc, ev);
      NextFields(r.enc, id, includeUsage, evs);
      SpokenLast(evs);
    }
  }

  lemma {:induction false} NextFields(e: Enc, id: string, includeUsage: bool, evs: seq<Event>)
    requires evs != [] && Fields(e, id, includeUsage, DropLast(evs))
    ensures Fields(Step(e, Last(evs)).enc, id, includeUsage, evs)
  {
    StepFields(e, Last(evs));
    F.OpenAIFlags(e, Last(evs));
    SpokenLast(evs);
  }

  // Chunk j was written by event k, and carries the id last given up to it.
  ghost predicate Ids(id: string, cs: seq<Chunk>, evs: seq<Event>) {
    forall c :: c in cs ==> exists k :: 0 <= k <= |evs| && Carries(c, IdOf(id, evs[..k]))
  }

  lemma {:induction false} RunIds(id: string, includeUsage: bool, evs: seq<Event>)
    ensures Ids(id, EncodeRun(NewEnc(id, includeUsage), evs).chunks, evs)
    decreases |evs|
  {
    if evs != [] {
      var front := DropLast(evs);
      var r := EncodeRun(NewEnc(id, includeUsage), front);
      RunIds(id, includeUsage, front);
      RunShape(id, includeUsage, evs);
      StepCarries(r.enc, Last(evs));
      forall c | c in EncodeRun(NewEnc(id, includeUsage), evs).chunks
        ensures exists k :: 0 <= k <= |evs| && Carries(c, IdOf(id, evs[..k]))
      {
        if c in r.chunks {
          var k :| 0 <= k <= |front| && Carries(c, IdOf(id, front[..k]));
          assert front[..k] == evs[..k];
        } else {
          assert evs[..|evs|] == evs;
          assert Carries(c, IdOf(id, evs[..|evs|]));
        }
      }
    }
  }

  // How a stream ends: with the usage last reported, if it is wanted and known, and the end mark.
  function Ending(id: string, includeUsage: bool, evs: seq<Event>): seq<Chunk> {
    (if includeUsage && UsageOf(evs).Some? then [UsageChunk(IdOf(id, evs), UsageOf(evs).value)] else []) + [Done]
  }

  /** Every closed stream is chunks that carry the id last given, followed by the usage last reported (if it was asked for, and
      any was) and one end mark.  The role is announced once, before any text, reasoning or tool call, and exactly if there is
      one or a MessageStart; the stream finishes once, exactly if there is a MessageStop; and it has the upstream errors,
      each once and in order. */
  lemma {:induction false} StreamShape(id: string, includeUsage: bool, evs: seq<Event>) returns (body: seq<Chunk>)
    ensures EncodeAll(NewEnc(id, includeUsage), evs).chunks == body + Ending(id, includeUsage, evs)
    ensures Ids(id, body, evs) && Shaped(ReadAll(NO_SHAPE, body), evs)
  {
    RunShape(id, includeUsage, evs);
    RunIds(id, includeUsage, evs);
    body := EncodeRun(NewEnc(id, includeUsage), evs).chunks;
  }
}
