/** The client's reading of a stream's text (ObserveStream in pkg/contract/opencode/harness.go), and the comparison of the
    two encoders through it: from events to bytes to what a client has seen. */
module StreamTexts {
  import opened Common
  import opened Events
  import opened SseText
  import opened ClientObservation
  import A = AnthropicEncoder
  import O = OpenAIEncoder
  import F = FinishReasons
  import D = AnthropicDecoder

  // ---------------------------------------------------------------- the line loop

  // curEvent, curDataLines and the events read so far
  datatype ObserveAcc = ObserveAcc(event: string, data: seq<string>, out: seq<Dispatched>)

  const UNREAD := ObserveAcc("", [], [])

  function Dispatch(acc: ObserveAcc): ObserveAcc {
    if acc.data != [] || acc.event != "" then ObserveAcc("", [], acc.out + [Dispatched(acc.event, Join(acc.data))]) else acc
  }

  function ObserveLine(acc: ObserveAcc, line: string): ObserveAcc {
    if line == "" then Dispatch(acc)
    else if line[0] == ':' then acc
    else if HasPrefix(line, "event:") then acc.(event := TrimSpace(line[6..]))
    else if HasPrefix(line, "data:") then acc.(data := acc.data + [TrimOneSpace(line[5..])])
    else acc
  }

  function ObserveLines(acc: ObserveAcc, lines: seq<string>): ObserveAcc
    decreases |lines|
  {
    if lines == [] then acc else ObserveLines(ObserveLine(acc, lines[0]), lines[1..])
  }

  function ObservedEvents(text: string): seq<Dispatched> {
    Dispatch(ObserveLines(UNREAD, Lines(text))).out
  }

  // ---------------------------------------------------------------- what an event adds

  // A parsed payload of either wire format.
  datatype Payload = OfFrame(frame: A.Frame) | OfChunk(chunk: O.Chunk)

  type Parse = string -> Option<Payload>

  function SeePayload(o: Observed, p: Payload): Observed {
    match p
    case OfFrame(f) => SeeFrame(o, f)
    case OfChunk(c) => SeeChunk(o, c)
  }

  // An empty payload, the end mark and one that does not parse add nothing.
  function SeeEvent(parse: Parse, o: Observed, e: Dispatched): Observed {
    if e.data == "" || e.data == "[DONE]" then o
    else
      match parse(e.data)
      case None => o
      case Some(p) => SeePayload(o, p)
  }

  function SeeEvents(parse: Parse, o: Observed, es: seq<Dispatched>): Observed {
    if es == [] then o else SeeEvent(parse, SeeEvents(parse, o, DropLast(es)), Last(es))
  }

  function SeeText(parse: Parse, text: string): Observed {
    SeeEvents(parse, NOTHING, ObservedEvents(text))
  }

  /** ObserveStream: reads the lines and updates the observation as events are complete. */
  method ObserveStream(parse: Parse, text: string) returns (obs: StreamObservation)
    ensures fresh(obs) && obs.State() == SeeText(parse, text)
  {
    obs := new StreamObservation();
    var lines := Lines(text);
    var event: string, data: seq<string> := "", [];
    ghost var acc := UNREAD;
    var k := 0;
    while k < |lines|
      invariant 0 <= k <= |lines| && fresh(obs)
      invariant acc.event == event && acc.data == data
      invariant ObserveLines(acc, lines[k..]) == ObserveLines(UNREAD, lines)
      invariant obs.State() == SeeEvents(parse, NOTHING, acc.out)
    {
      var line := lines[k];
      ghost var before := acc;
      acc := ObserveLine(acc, line);
      assert lines[k..][1..] == lines[k + 1..];
      k := k + 1;
      if line == "" {
        if data != [] || event != "" {
          ghost var e := Dispatched(event, Join(data));
          SeeOneMore(parse, before.out, e);
          Process(parse, obs, event, Join(data));
          event, data := "", [];
        }
      } else if line[0] == ':' {
      } else if HasPrefix(line, "event:") {
        event := TrimSpace(line[6..]);
      } else if HasPrefix(line, "data:") {
        data := data + [TrimOneSpace(line[5..])];
      }
    }
    assert lines[k..] == [];
    if data != [] || event != "" {
      SeeOneMore(parse, acc.out, Dispatched(event, Join(data)));
      Process(parse, obs, event, Join(data));
    }
  }

  method Process(parse: Parse, obs: StreamObservation, event: string, data: string)
    modifies obs
    ensures obs.State() == SeeEvent(parse, old(obs.State()), Dispatched(event, data))
  {
    if data != "" && data != "[DONE]" {
      var p := parse(data);
      if p.Some? {
        match p.value {
          case OfFrame(f) => obs.ProcessFrame(f);
          case OfChunk(c) => obs.ProcessChunk(c);
        }
      }
    }
  }

  lemma {:induction false} SeeOneMore(parse: Parse, es: seq<Dispatched>, e: Dispatched)
    ensures SeeEvents(parse, NOTHING, es + [e]) == SeeEvent(parse, SeeEvents(parse, NOTHING, es), e)
  {
    assert DropLast(es + [e]) == es;
  }

  // ---------------------------------------------------------------- reading back what was written

  lemma {:induction false} ObserveCons(acc: ObserveAcc, line: string, lines: seq<string>)
    ensures ObserveLines(acc, [line] + lines) == ObserveLines(ObserveLine(acc, line), lines)
  {
    assert ([line] + lines)[1..] == lines;
  }

  lemma {:induction false} ObserveDataLine(event: string, data: string, out: seq<Dispatched>)
    ensures OneLine(data) ==> OneLine("data: " + data)
    ensures ObserveLine(ObserveAcc(event, [], out), "data: " + data) == ObserveAcc(event, [data], out)
  {
    var dl := "data: " + data;
    assert dl[..5] == "data:" && dl[0] == 'd';
    assert dl[5..] == " " + data;
    assert (" " + data)[1..] == data;
  }

  lemma {:induction false} ObserveEventLine(event: string, out: seq<Dispatched>)
    requires forall k :: 0 <= k < |event| ==> !IsSpace(event[k])
    ensures OneLine("event: " + event)
    ensures ObserveLine(ObserveAcc("", [], out), "event: " + event) == ObserveAcc(event, [], out)
  {
    var el := "event: " + event;
    assert el[..6] == "event:" && el[0] == 'e';
    assert el[6..] == " " + event;
    TrimRightKeeps(event);
  }

  lemma {:induction false} ObserveOne(d: Dispatched, out: seq<Dispatched>, rest: string)
    requires Writable(d)
    ensures ObserveLines(ObserveAcc("", [], out), Lines(Write(d) + rest))
         == ObserveLines(ObserveAcc("", [], out + [d]), Lines(rest))
  {
    var mid := ObserveAcc(d.event, [], out);
    var full := ObserveAcc(d.event, [d.data], out);
    var dl, tail := "data: " + d.data, [""] + Lines(rest);
    ObserveDataLine(d.event, d.data, out);
    assert [dl, ""] + Lines(rest) == [dl] + tail;
    if d.event != "" {
      var el := "event: " + d.event;
      ObserveEventLine(d.event, out);
      LinesOfThree(el, dl, rest);
      ObserveCons(ObserveAcc("", [], out), el, [dl] + tail);
    } else {
      LinesOfTwo(dl, rest);
    }
    ObserveCons(mid, dl, tail);
    ObserveCons(full, "", Lines(rest));
  }

  lemma {:induction false} ObserveFrom(out: seq<Dispatched>, ds: seq<Dispatched>)
    requires forall d :: d in ds ==> Writable(d)
    ensures ObserveLines(ObserveAcc("", [], out), Lines(WriteAll(ds))) == ObserveAcc("", [], out + ds)
    decreases |ds|
  {
    if ds == [] {
      assert out + ds == out;
    } else {
      var head, rest := ds[0], ds[1..];
      assert ds == [head] + rest;
      ObserveOne(head, out, WriteAll(rest));
      ObserveFrom(out + [head], rest);
      AppendAssoc(out, [head], rest);
    }
  }

  /** The client reads back exactly the events that were written, as the decoder and the scanner do. */
  lemma {:induction false} ObserverReadsBack(ds: seq<Dispatched>)
    requires forall d :: d in ds ==> Writable(d)
    ensures ObservedEvents(WriteAll(ds)) == ds
  {
    ObserveFrom([], ds);
    assert [] + ds == ds;
  }

  // ---------------------------------------------------------------- the two texts of one event sequence

  /** What is assumed of JSON: frames and chunks print as one non-empty line that is not the end mark, and parse back. */
  ghost predicate Contract(frame: A.Frame -> string, chunk: O.Chunk -> string, parse: Parse) {
    && (forall f: A.Frame :: Printed(frame(f)) && parse(frame(f)) == Some(OfFrame(f)))
    && (forall c: O.Chunk :: Printed(chunk(c)) && parse(chunk(c)) == Some(OfChunk(c)))
  }

  predicate Printed(s: string) {
    OneLine(s) && s != "" && s != "[DONE]"
  }

  // A chunk has no event line; Close's last line is the end mark.
  function ChunkEvents(chunk: O.Chunk -> string, cs: seq<O.Chunk>): seq<Dispatched> {
    if cs == [] then []
    else ChunkEvents(chunk, DropLast(cs)) + [Dispatched("", if Last(cs).Done? then "[DONE]" else chunk(Last(cs)))]
  }

  function AnthropicText(frame: A.Frame -> string, fs: seq<A.Frame>): string {
    D.RenderAll(frame, fs)
  }

  function OpenAIText(chunk: O.Chunk -> string, cs: seq<O.Chunk>): string {
    WriteAll(ChunkEvents(chunk, cs))
  }

  lemma {:induction false} NameIsWord(f: A.Frame)
    ensures forall k :: 0 <= k < |f.Name()| ==> !IsSpace(f.Name()[k])
  {
  }

  lemma {:induction false} WrittenLast(frame: A.Frame -> string, fs: seq<A.Frame>)
    requires fs != []
    ensures D.Written(frame, fs) == D.Written(frame, DropLast(fs)) + [Dispatched(Last(fs).Name(), frame(Last(fs)))]
    decreases |fs|
  {
    if |fs| > 1 {
      WrittenLast(frame, fs[1..]);
      assert DropLast(fs)[1..] == DropLast(fs[1..]);
    } else {
      assert fs[1..] == [] && DropLast(fs) == [];
    }
  }

  lemma {:induction false} FrameEventsWritable(frame: A.Frame -> string, fs: seq<A.Frame>)
    requires forall f: A.Frame :: Printed(frame(f))
    ensures forall d :: d in D.Written(frame, fs) ==> Writable(d)
    decreases |fs|
  {
    if fs != [] {
      FrameEventsWritable(frame, DropLast(fs));
      WrittenLast(frame, fs);
      NameIsWord(Last(fs));
    }
  }

  lemma {:induction false} ChunkEventsWritable(chunk: O.Chunk -> string, cs: seq<O.Chunk>)
    requires forall c: O.Chunk :: Printed(chunk(c))
    ensures forall d :: d in ChunkEvents(chunk, cs) ==> Writable(d)
    decreases |cs|
  {
    if cs != [] {
      ChunkEventsWritable(chunk, DropLast(cs));
    }
  }

  lemma {:induction false} SeeFramesLast(o: Observed, fs: seq<A.Frame>)
    requires fs != []
    ensures SeeFrames(o, fs) == SeeFrame(SeeFrames(o, DropLast(fs)), Last(fs))
  {
    assert fs == DropLast(fs) + [Last(fs)];
    SeeFramesConcat(o, DropLast(fs), [Last(fs)]);
  }

  lemma {:induction false} SeeChunksLast(o: Observed, cs: seq<O.Chunk>)
    requires cs != []
    ensures SeeChunks(o, cs) == SeeChunk(SeeChunks(o, DropLast(cs)), Last(cs))
  {
    assert cs == DropLast(cs) + [Last(cs)];
    SeeChunksConcat(o, DropLast(cs), [Last(cs)]);
  }

  lemma {:induction false} SeeFrameEvents(frame: A.Frame -> string, parse: Parse, fs: seq<A.Frame>)
    requires forall f: A.Frame :: Printed(frame(f)) && parse(frame(f)) == Some(OfFrame(f))
    ensures SeeEvents(parse, NOTHING, D.Written(frame, fs)) == SeeFrames(NOTHING, fs)
    decreases |fs|
  {
    if fs != [] {
      SeeFrameEvents(frame, parse, DropLast(fs));
      WrittenLast(frame, fs);
      SeeOneMore(parse, D.Written(frame, DropLast(fs)), Dispatched(Last(fs).Name(), frame(Last(fs))));
      SeeFramesLast(NOTHING, fs);
    }
  }

  lemma {:induction false} SeeChunkEvents(chunk: O.Chunk -> string, parse: Parse, cs: seq<O.Chunk>)
    requires forall c: O.Chunk :: Printed(chunk(c)) && parse(chunk(c)) == Some(OfChunk(c))
    ensures SeeEvents(parse, NOTHING, ChunkEvents(chunk, cs)) == SeeChunks(NOTHING, cs)
    decreases |cs|
  {
    if cs != [] {
      SeeChunkEvents(chunk, parse, DropLast(cs));
      SeeOneMore(parse, ChunkEvents(chunk, DropLast(cs)), Dispatched("", if Last(cs).Done? then "[DONE]" else chunk(Last(cs))));
      SeeChunksLast(NOTHING, cs);
    }
  }

  // What the client has seen of either text is what it would make of the frames or chunks themselves.
  lemma {:induction false} SeeTexts(frame: A.Frame -> string, chunk: O.Chunk -> string, parse: Parse, fs: seq<A.Frame>, cs: seq<O.Chunk>)
    requires Contract(frame, chunk, parse)
    ensures SeeText(parse, AnthropicText(frame, fs)) == SeeFrames(NOTHING, fs)
    ensures SeeText(parse, OpenAIText(chunk, cs)) == SeeChunks(NOTHING, cs)
  {
    FrameEventsWritable(frame, fs);
    ObserverReadsBack(D.Written(frame, fs));
    SeeFrameEvents(frame, parse, fs);
    ChunkEventsWritable(chunk, cs);
    ObserverReadsBack(ChunkEvents(chunk, cs));
    SeeChunkEvents(chunk, parse, cs);
  }

  // The text each encoder has written after some events.
  function AnthropicSoFar(frame: A.Frame -> string, id: string, model: string, evs: seq<Event>): string {
    AnthropicText(frame, A.EncodeRun(A.NewEnc(id, model), evs).frames)
  }

  function OpenAISoFar(chunk: O.Chunk -> string, id: string, includeUsage: bool, evs: seq<Event>): string {
    OpenAIText(chunk, O.EncodeRun(O.NewEnc(id, includeUsage), evs).chunks)
  }

  /** The bytes the two encoders have written so far show a client the same, at every point of the stream, exactly when
      tools are announced in order; and then so do the bytes of the two closed streams. */
  lemma {:induction false} TextsMeanTheSame(frame: A.Frame -> string, chunk: O.Chunk -> string, parse: Parse,
                                            idA: string, model: string, idO: string, includeUsage: bool, evs: seq<Event>)
    requires Contract(frame, chunk, parse)
    ensures (forall k :: 0 <= k <= |evs| ==>
               Same(SeeText(parse, AnthropicSoFar(frame, idA, model, evs[..k])),
                    SeeText(parse, OpenAISoFar(chunk, idO, includeUsage, evs[..k])))) <==> Paired(evs)
    ensures Paired(evs) ==>
      Same(SeeText(parse, AnthropicText(frame, A.EncodeAll(A.NewEnc(idA, model), evs).frames)),
           SeeText(parse, OpenAIText(chunk, O.EncodeAll(O.NewEnc(idO, includeUsage), evs).chunks)))
  {
    EncodersMeanTheSame(idA, model, idO, includeUsage, evs);
    SeeTexts(frame, chunk, parse, A.EncodeAll(A.NewEnc(idA, model), evs).frames, O.EncodeAll(O.NewEnc(idO, includeUsage), evs).chunks);
    forall k | 0 <= k <= |evs|
      ensures SeeText(parse, AnthropicSoFar(frame, idA, model, evs[..k])) == AnthropicView(idA, model, evs[..k])
      ensures SeeText(parse, OpenAISoFar(chunk, idO, includeUsage, evs[..k])) == OpenAIView(idO, includeUsage, evs[..k])
    {
      SeeTexts(frame, chunk, parse, A.EncodeRun(A.NewEnc(idA, model), evs[..k]).frames,
               O.EncodeRun(O.NewEnc(idO, includeUsage), evs[..k]).chunks);
    }
  }

  /** And the bytes of the two closed streams tell a client corresponding finish reasons exactly when the reasons fit. */
  lemma {:induction false} TextsTellReasonsIff(frame: A.Frame -> string, chunk: O.Chunk -> string, parse: Parse,
                                               idA: string, model: string, idO: string, includeUsage: bool, evs: seq<Event>)
    requires Contract(frame, chunk, parse)
    ensures var a := SeeText(parse, AnthropicText(frame, A.EncodeAll(A.NewEnc(idA, model), evs).frames)).finish;
            var o := SeeText(parse, OpenAIText(chunk, O.EncodeAll(O.NewEnc(idO, includeUsage), evs).chunks)).finish;
      F.Correspond(a, o) <==> F.ReasonsFit(evs)
  {
    F.ReasonsCorrespondIff(idA, model, idO, includeUsage, evs);
    SeeTexts(frame, chunk, parse, A.EncodeAll(A.NewEnc(idA, model), evs).frames, O.EncodeAll(O.NewEnc(idO, includeUsage), evs).chunks);
  }
}
