/** The provider-neutral stream events (pkg/ir/events.go) and the per-index views of an event
    sequence that the codec theorems talk about.  Sequences are consumed left to right, so every
    view is defined by its last event. */
module Events {
  import opened Common

  datatype Event =
    | MessageStart(id: string)
    | BlockStart(index: int, kind: string)
    | TextDelta(index: int, text: string)
    | ReasoningDelta(index: int, text: string)
    | ReasoningSignature(index: int, signature: string)
    | ToolCallStart(index: int, id: string, name: string)
    | ToolArgumentsDelta(index: int, arguments: string)
    | ToolCallStop(index: int)
    | UsageUpdate(prompt: int, completion: int, total: int, cacheCreation: int, cacheRead: int)
    | MessageStop(finishReason: string)
    | UpstreamError(kind: string, message: string)
  {
    // Events that open a content block or add to one.
    predicate IsContent() {
      BlockStart? || TextDelta? || ReasoningDelta? || ReasoningSignature? || ToolCallStart? || ToolArgumentsDelta?
    }

    predicate TouchesIndex(i: int) {
      IsContent() && index == i
    }

    // Events that make an Anthropic stream emit message_start.
    predicate OpensMessage() {
      IsContent() || this.MessageStart? || MessageStop?
    }
  }

  // The four kinds of payload a content block accumulates.
  datatype Part = PText | PThinking | PSignature | PArguments

  // What one event sends for index i and one kind of payload ("" for nothing).
  function Piece(ev: Event, i: int, p: Part): string {
    match ev
    case TextDelta(j, s) => if j == i && p == PText then s else ""
    case ReasoningDelta(j, s) => if j == i && p == PThinking then s else ""
    case ReasoningSignature(j, s) => if j == i && p == PSignature then s else ""
    case ToolArgumentsDelta(j, s) => if j == i && p == PArguments then s else ""
    case _ => ""
  }

  // The exact concatenation of everything sent for index i.
  function Sent(evs: seq<Event>, i: int, p: Part): string {
    if evs == [] then "" else Sent(DropLast(evs), i, p) + Piece(Last(evs), i, p)
  }

  // The part of the sequence from the last ToolCallStart on index i onwards (all of it when there is none).
  function SinceToolStart(evs: seq<Event>, i: int): seq<Event> {
    if evs == [] then []
    else if Last(evs).ToolCallStart? && Last(evs).index == i then [Last(evs)]
    else SinceToolStart(DropLast(evs), i) + [Last(evs)]
  }

  ghost predicate TouchedIndex(evs: seq<Event>, i: int) {
    exists k :: 0 <= k < |evs| && evs[k].TouchesIndex(i)
  }

  ghost predicate Opened(evs: seq<Event>) {
    exists k :: 0 <= k < |evs| && evs[k].OpensMessage()
  }

  /** Index discipline for tool calls: a ToolCallStart is the first content event on its index.  It
      then occurs at most once per index. */
  ghost predicate ToolStartsAreFirst(evs: seq<Event>) {
    forall j, k :: 0 <= j < k < |evs| && evs[k].ToolCallStart? ==> !evs[j].TouchesIndex(evs[k].index)
  }

  // ---------------------------------------------------------------- finish reasons

  // The words of either vocabulary that have a counterpart in the other.
  predicate KnownReason(reason: string) {
    || reason == "" || reason == "stop" || reason == "end_turn" || reason == "tool_calls" || reason == "tool_use"
    || reason == "length" || reason == "max_tokens"
  }

  /** The reason a stop gives, in Anthropic's words. */
  predicate InAnthropicWords(reason: string, word: string) {
    || (word == "end_turn" && (reason == "" || reason == "stop" || reason == "end_turn"))
    || (word == "tool_use" && (reason == "tool_calls" || reason == "tool_use"))
    || (word == "max_tokens" && (reason == "length" || reason == "max_tokens"))
    || (word == reason && !KnownReason(reason))
  }

  /** And in OpenAI's. */
  predicate InOpenAIWords(reason: string, word: string) {
    || (word == "stop" && (reason == "" || reason == "stop" || reason == "end_turn"))
    || (word == "tool_calls" && (reason == "tool_calls" || reason == "tool_use"))
    || (word == "length" && (reason == "length" || reason == "max_tokens"))
    || (word == reason && !KnownReason(reason))
  }

  // ---------------------------------------------------------------- by the last event

  lemma {:induction false} TouchedLast(evs: seq<Event>, i: int)
    requires evs != []
    ensures TouchedIndex(evs, i) == (TouchedIndex(DropLast(evs), i) || Last(evs).TouchesIndex(i))
  {
    if TouchedIndex(evs, i) && !Last(evs).TouchesIndex(i) {
      var k :| 0 <= k < |evs| && evs[k].TouchesIndex(i);
      assert DropLast(evs)[k].TouchesIndex(i);
    }
    if TouchedIndex(DropLast(evs), i) {
      var k :| 0 <= k < |DropLast(evs)| && DropLast(evs)[k].TouchesIndex(i);
      assert evs[k].TouchesIndex(i);
    }
    assert evs[|evs| - 1] == Last(evs);
  }

  lemma {:induction false} OpenedLast(evs: seq<Event>)
    requires evs != []
    ensures Opened(evs) == (Opened(DropLast(evs)) || Last(evs).OpensMessage())
  {
    if Opened(evs) && !Last(evs).OpensMessage() {
      var k :| 0 <= k < |evs| && evs[k].OpensMessage();
      assert DropLast(evs)[k].OpensMessage();
    }
    if Opened(DropLast(evs)) {
      var k :| 0 <= k < |DropLast(evs)| && DropLast(evs)[k].OpensMessage();
      assert evs[k].OpensMessage();
    }
    assert evs[|evs| - 1] == Last(evs);
  }
}
