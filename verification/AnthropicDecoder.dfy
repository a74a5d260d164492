/** The accumulating Anthropic decoder (pkg/spikes/anthropic/decoder.go), and that decoding the text of frames is handling
    the frames. */
module AnthropicDecoder {
  import opened Common
  import opened Events
  import opened AnthropicEncoder
  import opened SseText

  datatype BlockType = BText | BThinking | BRedactedThinking | BToolUse | BOther(name: string)

  datatype DeltaType = DText | DThinking | DSignature | DInputJson | DOther(name: string)

  // ContentBlock
  datatype Block = Block(index: int, kind: BlockType, text: string, thinking: string, signature: string,
                         redacted: string, toolId: string, toolName: string, toolInput: string)

  // StreamState
  datatype State = State(messageId: string, model: string, role: string, blocks: map<int, Block>, usage: Usage,
                         stopReason: string, stopSequence: string, error: Option<(string, string)>,
                         completed: bool, pings: nat)

  const FRESH_STATE := State("", "", "", map[], NO_USAGE, "", "", None, false, 0)

  // rawEvent: every field a payload may carry; absent fields are zero.
  datatype Raw = Raw(kind: string, index: int,
                     msgId: string, msgRole: string, msgModel: string, msgUsage: Usage,
                     blockType: BlockType, blockId: string, blockName: string, blockData: string, blockText: string,
                     deltaType: DeltaType, deltaText: string, deltaThinking: string, deltaSignature: string,
                     deltaPartial: string, stopReason: string, stopSequence: string,
                     usage: Usage, errType: string, errMessage: string)

  const ZERO_RAW := Raw("", 0, "", "", "", NO_USAGE, BOther(""), "", "", "", "", DOther(""), "", "", "", "", "", "",
                        NO_USAGE, "", "")

  // The payload the encoder marshals for a frame, as the decoder's struct sees it.
  function RawOf(f: Frame): Raw {
    var z := ZERO_RAW.(kind := f.Name());
    match f
    case FMessageStart(id, model, usage) => z.(msgId := id, msgRole := "assistant", msgModel := model, msgUsage := usage)
    case FBlockStart(i, StartText) => z.(index := i, blockType := BText)
    case FBlockStart(i, StartThinking) => z.(index := i, blockType := BThinking)
    case FBlockStart(i, StartToolUse(id, name)) => z.(index := i, blockType := BToolUse, blockId := id, blockName := name)
    case FBlockDelta(i, Text(s)) => z.(index := i, deltaType := DText, deltaText := s)
    case FBlockDelta(i, Thinking(s)) => z.(index := i, deltaType := DThinking, deltaThinking := s)
    case FBlockDelta(i, Signature(s)) => z.(index := i, deltaType := DSignature, deltaSignature := s)
    case FBlockDelta(i, InputJson(s)) => z.(index := i, deltaType := DInputJson, deltaPartial := s)
    case FBlockStop(i) => z.(index := i)
    case FMessageDelta(reason, output) => z.(stopReason := reason, usage := Usage(0, output, 0, 0))
    case FMessageStop => z
    case FError(kind, message) => z.(errType := kind, errMessage := message)
  }

  // ---------------------------------------------------------------- HandleEvent

  function AddUsage(a: Usage, b: Usage): Usage {
    Usage(a.input + b.input, a.output + b.output, a.cacheCreation + b.cacheCreation, a.cacheRead + b.cacheRead)
  }

  function EmptyBlock(index: int, kind: BlockType): Block {
    Block(index, kind, "", "", "", "", "", "", "")
  }

  function StartBlock(raw: Raw): Block {
    var b := EmptyBlock(raw.index, raw.blockType);
    if b.kind == BToolUse then b.(toolId := raw.blockId, toolName := raw.blockName)
    else if b.kind == BRedactedThinking then b.(redacted := raw.blockData)
    else if b.kind == BText then b.(text := raw.blockText)
    else b
  }

  function AddDelta(b: Block, raw: Raw): Block {
    match raw.deltaType
    case DText => b.(kind := BText, text := b.text + raw.deltaText)
    case DThinking => b.(kind := BThinking, thinking := b.thinking + raw.deltaThinking)
    case DSignature => b.(signature := b.signature + raw.deltaSignature)
    case DInputJson => b.(kind := BToolUse, toolInput := b.toolInput + raw.deltaPartial)
    case DOther(_) => b
  }

  datatype EventKind = KMessageStart | KBlockStart | KBlockDelta | KBlockStop | KMessageDelta | KMessageStop
                     | KPing | KError | KOther

  function Classify(name: string): EventKind {
    if name == "message_start" then KMessageStart
    else if name == "content_block_start" then KBlockStart
    else if name == "content_block_delta" then KBlockDelta
    else if name == "content_block_stop" then KBlockStop
    else if name == "message_delta" then KMessageDelta
    else if name == "message_stop" then KMessageStop
    else if name == "ping" then KPing
    else if name == "error" then KError
    else KOther
  }

  function EffectiveType(eventType: string, raw: Raw): string {
    if eventType == "" || eventType == "message" then raw.kind else eventType
  }

  function Handle(d: State, kind: EventKind, raw: Raw): State {
    match kind
    case KMessageStart =>
      d.(messageId := raw.msgId, model := raw.msgModel, role := raw.msgRole, usage := AddUsage(d.usage, raw.msgUsage))
    case KBlockStart => d.(blocks := d.blocks[raw.index := StartBlock(raw)])
    case KBlockDelta =>
      var b := if raw.index in d.blocks then d.blocks[raw.index] else EmptyBlock(raw.index, BOther(""));
      d.(blocks := d.blocks[raw.index := AddDelta(b, raw)])
    case KBlockStop => d
    case KMessageDelta =>
      d.(stopReason := if raw.stopReason != "" then raw.stopReason else d.stopReason,
         stopSequence := if raw.stopSequence != "" then raw.stopSequence else d.stopSequence,
         usage := AddUsage(d.usage, raw.usage))
    case KMessageStop => d.(completed := true)
    case KPing => d.(pings := d.pings + 1)
    case KError => d.(error := Some((raw.errType, raw.errMessage)))
    case KOther => d
  }

  // Decode's result: the state, or a payload that did not unmarshal.
  datatype Result = Decoded(state: State) | BadPayload

  function HandleEvent(unmarshal: string -> Option<Raw>, d: State, e: Dispatched): Result {
    if e.data == "" then Decoded(d)
    else
      match unmarshal(e.data)
      case None => BadPayload
      case Some(raw) => Decoded(Handle(d, Classify(EffectiveType(e.event, raw)), raw))
  }

  function HandleAll(unmarshal: string -> Option<Raw>, d: State, es: seq<Dispatched>): Result
    decreases |es|
  {
    if es == [] then Decoded(d)
    else
      match HandleEvent(unmarshal, d, es[0])
      case BadPayload => BadPayload
      case Decoded(d') => HandleAll(unmarshal, d', es[1..])
  }

  function DecodeText(unmarshal: string -> Option<Raw>, text: string): Result {
    HandleAll(unmarshal, FRESH_STATE, DecodeEvents(text))
  }

  lemma {:induction false} HandleAllConcat(unmarshal: string -> Option<Raw>, d: State, a: seq<Dispatched>, b: seq<Dispatched>)
    ensures HandleAll(unmarshal, d, a + b)
         == match HandleAll(unmarshal, d, a) case BadPayload => BadPayload case Decoded(m) => HandleAll(unmarshal, m, b)
    decreases |a|
  {
    if a == [] {
      assert a + b == b;
    } else {
      assert (a + b)[0] == a[0] && (a + b)[1..] == a[1..] + b;
      var r := HandleEvent(unmarshal, d, a[0]);
      if r.Decoded? {
        HandleAllConcat(unmarshal, r.state, a[1..], b);
      }
    }
  }

  class Decoder {
    const unmarshal: string -> Option<Raw>
    var state: State

    constructor (unmarshal: string -> Option<Raw>)
      ensures this.unmarshal == unmarshal && state == FRESH_STATE
    {
      this.unmarshal, state := unmarshal, FRESH_STATE;
    }

    /** The state is untouched when the payload does not unmarshal. */
    method HandleOne(e: Dispatched) returns (ok: bool)
      modifies this
      ensures HandleEvent(unmarshal, old(state), e) == if ok then Decoded(state) else BadPayload
      ensures !ok ==> state == old(state)
    {
      if e.data == "" {
        return true;
      }
      var parsed := unmarshal(e.data);
      if parsed.None? {
        return false;
      }
      var raw := parsed.value;
      var kind := Classify(EffectiveType(e.event, raw));
      match kind {
        case KBlockStart =>
          state := state.(blocks := state.blocks[raw.index := StartBlock(raw)]);
        case KBlockDelta =>
          if raw.index !in state.blocks {
            state := state.(blocks := state.blocks[raw.index := EmptyBlock(raw.index, BOther(""))]);
          }
          ghost var before := old(state).blocks;
          var blk := AddDelta(state.blocks[raw.index], raw);
          state := state.(blocks := state.blocks[raw.index := blk]);
          assert state.blocks == before[raw.index := blk];
        case _ =>
          state := Handle(state, kind, raw);
      }
      return true;
    }

    /** Reads a whole stream line by line. */
    method Decode(text: string) returns (r: Result)
      requires state == FRESH_STATE
      modifies this
      ensures r == DecodeText(unmarshal, text)
    {
      var lines := Lines(text);
      var event, data := "", "";
      ghost var acc := SseText.FRESH;
      var k := 0;
      while k < |lines|
        invariant 0 <= k <= |lines|
        invariant acc.event == event && acc.data == data
        invariant LinesFrom(acc, lines[k..]) == LinesFrom(SseText.FRESH, lines)
        invariant HandleAll(unmarshal, FRESH_STATE, acc.out) == Decoded(state)
      {
        var line := lines[k];
        ghost var before := acc;
        acc := LineStep(acc, line);
        assert lines[k..][1..] == lines[k + 1..];
        k := k + 1;
        if line == "" {
          if data != "" || event != "" {
            var e := Dispatched(event, data);
            HandleAllConcat(unmarshal, FRESH_STATE, before.out, [e]);
            var ok := HandleOne(e);
            if !ok {
              OutGrows(acc, lines[k..]);
              BadStays(unmarshal, FRESH_STATE, acc.out, DecodeEvents(text));
              return BadPayload;
            }
            event, data := "", "";
          }
        } else if line[0] == ':' {
        } else if HasPrefix(line, "event:") {
          event := TrimSpace(line[6..]);
        } else if HasPrefix(line, "data:") {
          data := data + (if data != "" then "\n" else "") + TrimOneSpace(line[5..]);
        }
      }
      assert lines[k..] == [];
      if data != "" || event != "" {
        var e := Dispatched(event, data);
        HandleAllConcat(unmarshal, FRESH_STATE, acc.out, [e]);
        var ok := HandleOne(e);
        if !ok {
          return BadPayload;
        }
      }
      return Decoded(state);
    }
  }

  lemma {:induction false} OutGrows(acc: LineAcc, lines: seq<string>)
    ensures acc.out <= LinesFrom(acc, lines).out && acc.out <= Flush(LinesFrom(acc, lines)).out
    decreases |lines|
  {
    if lines != [] {
      OutGrows(LineStep(acc, lines[0]), lines[1..]);
    }
  }

  lemma {:induction false} BadStays(unmarshal: string -> Option<Raw>, d: State, a: seq<Dispatched>, b: seq<Dispatched>)
    requires a <= b && HandleAll(unmarshal, d, a) == BadPayload
    ensures HandleAll(unmarshal, d, b) == BadPayload
  {
    assert b == a + b[|a|..];
    HandleAllConcat(unmarshal, d, a, b[|a|..]);
  }

  // ---------------------------------------------------------------- the text of frames

  /** What is assumed of JSON: a frame's payload prints as one non-empty line and parses back. */
  ghost predicate JsonContract(marshal: Frame -> string, unmarshal: string -> Option<Raw>) {
    forall f: Frame :: OneLine(marshal(f)) && marshal(f) != "" && unmarshal(marshal(f)) == Some(RawOf(f))
  }

  function Written(marshal: Frame -> string, fs: seq<Frame>): seq<Dispatched> {
    if fs == [] then [] else [Dispatched(fs[0].Name(), marshal(fs[0]))] + Written(marshal, fs[1..])
  }

  // The bytes of a frame sequence.
  function RenderAll(marshal: Frame -> string, fs: seq<Frame>): string {
    WriteAll(Written(marshal, fs))
  }

  function HandleFrame(d: State, f: Frame): State {
    Handle(d, KindOf(f), RawOf(f))
  }

  function KindOf(f: Frame): EventKind {
    match f
    case FMessageStart(_, _, _) => KMessageStart
    case FBlockStart(_, _) => KBlockStart
    case FBlockDelta(_, _) => KBlockDelta
    case FBlockStop(_) => KBlockStop
    case FMessageDelta(_, _) => KMessageDelta
    case FMessageStop => KMessageStop
    case FError(_, _) => KError
  }

  lemma {:induction false} ClassifyName(f: Frame)
    ensures Classify(f.Name()) == KindOf(f) && f.Name() != "" && f.Name() != "message"
    ensures forall k :: 0 <= k < |f.Name()| ==> !IsSpace(f.Name()[k])
  {
  }

  lemma {:induction false} HandleWritten(marshal: Frame -> string, unmarshal: string -> Option<Raw>, d: State, f: Frame)
    requires JsonContract(marshal, unmarshal)
    ensures HandleEvent(unmarshal, d, Dispatched(f.Name(), marshal(f))) == Decoded(HandleFrame(d, f))
  {
    ClassifyName(f);
    assert unmarshal(marshal(f)) == Some(RawOf(f)) && marshal(f) != "";
  }

  // A frame sequence handled directly.
  function HandleFrames(d: State, fs: seq<Frame>): State
    decreases |fs|
  {
    if fs == [] then d else HandleFrames(HandleFrame(d, fs[0]), fs[1..])
  }

  lemma {:induction false} WrittenIsWritable(marshal: Frame -> string, unmarshal: string -> Option<Raw>, fs: seq<Frame>)
    requires JsonContract(marshal, unmarshal)
    ensures forall e :: e in Written(marshal, fs) ==> Writable(e)
    decreases |fs|
  {
    if fs != [] {
      ClassifyName(fs[0]);
      assert OneLine(marshal(fs[0])) && marshal(fs[0]) != "";
      WrittenIsWritable(marshal, unmarshal, fs[1..]);
    }
  }

  lemma {:induction false} HandleAllWritten(marshal: Frame -> string, unmarshal: string -> Option<Raw>, d: State, fs: seq<Frame>)
    requires JsonContract(marshal, unmarshal)
    ensures HandleAll(unmarshal, d, Written(marshal, fs)) == Decoded(HandleFrames(d, fs))
    decreases |fs|
  {
    if fs != [] {
      var e, rest := Dispatched(fs[0].Name(), marshal(fs[0])), Written(marshal, fs[1..]);
      HandleWritten(marshal, unmarshal, d, fs[0]);
      HandleAllWritten(marshal, unmarshal, HandleFrame(d, fs[0]), fs[1..]);
      assert ([e] + rest)[1..] == rest;
    }
  }

  /** Decoding written frames through their bytes is handling them directly. */
  lemma {:induction false} BytesToFrames(marshal: Frame -> string, unmarshal: string -> Option<Raw>, fs: seq<Frame>)
    requires JsonContract(marshal, unmarshal)
    ensures DecodeText(unmarshal, RenderAll(marshal, fs)) == Decoded(HandleFrames(FRESH_STATE, fs))
  {
    WrittenIsWritable(marshal, unmarshal, fs);
    DecodeReadsBack(Written(marshal, fs));
    HandleAllWritten(marshal, unmarshal, FRESH_STATE, fs);
  }

  lemma {:induction false} HandleFramesConcat(d: State, a: seq<Frame>, b: seq<Frame>)
    ensures HandleFrames(d, a + b) == HandleFrames(HandleFrames(d, a), b)
    decreases |a|
  {
    if a == [] {
      assert a + b == b;
    } else {
      assert (a + b)[0] == a[0] && (a + b)[1..] == a[1..] + b;
      HandleFramesConcat(HandleFrame(d, a[0]), a[1..], b);
    }
  }

  // ---------------------------------------------------------------- what this encoder does not write

  datatype Payload = Payload(kind: EventKind, raw: Raw)

  // The decoder's state after these payloads.
  function After(ps: seq<Payload>): State {
    if ps == [] then FRESH_STATE else Handle(After(DropLast(ps)), Last(ps).kind, Last(ps).raw)
  }

  function Pings(ps: seq<Payload>): nat {
    if ps == [] then 0 else Pings(DropLast(ps)) + if Last(ps).kind.KPing? then 1 else 0
  }

  // The stop sequence last named.
  function StopSequence(ps: seq<Payload>): string {
    if ps == [] then ""
    else if Last(ps).kind.KMessageDelta? && Last(ps).raw.stopSequence != "" then Last(ps).raw.stopSequence
    else StopSequence(DropLast(ps))
  }

  predicate StartsBlock(p: Payload, i: int) {
    p.kind.KBlockStart? && p.raw.index == i
  }

  // What a payload adds to the text of block i.
  function TextPiece(p: Payload, i: int): string {
    if p.kind.KBlockDelta? && p.raw.index == i && p.raw.deltaType.DText? then p.raw.deltaText else ""
  }

  function TextAdded(ps: seq<Payload>, i: int): string {
    if ps == [] then "" else TextAdded(DropLast(ps), i) + TextPiece(Last(ps), i)
  }

  lemma {:induction false} NextPayload(d: State, p: Payload, i: int)
    requires i in d.blocks && !StartsBlock(p, i)
    ensures var d' := Handle(d, p.kind, p.raw);
      i in d'.blocks && d'.blocks[i].redacted == d.blocks[i].redacted && d'.blocks[i].text == d.blocks[i].text + TextPiece(p, i)
  {
  }

  lemma {:induction false} AfterNext(ps: seq<Payload>, p: Payload)
    ensures After(ps + [p]) == Handle(After(ps), p.kind, p.raw)
  {
    assert DropLast(ps + [p]) == ps;
  }

  // What block i was started with.
  function FirstText(start: Payload): string {
    if start.raw.blockType.BText? then start.raw.blockText else ""
  }

  function FirstData(start: Payload): string {
    if start.raw.blockType.BRedactedThinking? then start.raw.blockData else ""
  }

  /** On the payloads of any provider: from a block's last start on, a redacted block has the data it was started with, and a
      block the text it was started with and then that of its deltas. */
  lemma {:induction false} BlockSince(before: seq<Payload>, start: Payload, more: seq<Payload>, i: int)
    requires StartsBlock(start, i) && forall p :: p in more ==> !StartsBlock(p, i)
    ensures var d := After(before + [start] + more);
      && i in d.blocks && d.blocks[i].redacted == FirstData(start) && d.blocks[i].text == FirstText(start) + TextAdded(more, i)
    decreases |more|
  {
    if more == [] {
      AfterNext(before, start);
      assert before + [start] + more == before + [start] && FirstText(start) + "" == FirstText(start);
    } else {
      var front, p := DropLast(more), Last(more);
      BlockSince(before, start, front, i);
      AfterNext(before + [start] + front, p);
      NextPayload(After(before + [start] + front), p, i);
      assert before + [start] + more == before + [start] + front + [p];
      AppendAssoc(FirstText(start), TextAdded(front, i), TextPiece(p, i));
    }
  }

  /** Pings are counted and otherwise ignored, and the last stop sequence is kept. */
  lemma {:induction false} PingsAndStops(ps: seq<Payload>)
    ensures After(ps).pings == Pings(ps) && After(ps).stopSequence == StopSequence(ps)
    ensures ps != [] && Last(ps).kind.KPing? ==> After(ps) == After(DropLast(ps)).(pings := Pings(ps))
    decreases |ps|
  {
    if ps != [] {
      PingsAndStops(DropLast(ps));
    }
  }
}
