/** Request dispatch (pkg/server/handlers.go): the failover loop over Route, the commit point, the streaming loop and the
    telemetry rows.  What the outside world does (the lane's answers, encoding, the client leaving) is part of the input;
    what dispatch does is a list of effects. */
module Dispatch {
  import opened Common
  import opened Events
  import opened Router

  datatype Tokens = Tokens(prompt: int, completion: int, total: int, cacheCreation: int, cacheRead: int)

  datatype Fault = NoFault | Unrouted(r: Routed) | CallError(text: string) | UpstreamFault(kind: string)

  // The HTTP status and the error class of a failure.
  datatype Class = Class(status: nat, kind: string)

  // The lane's answer to Stream: the first receive finds an event, a closed channel, or a client that left.
  datatype Streamed = SyncError(text: string) | ClientLeft | NoEvents | Flow(first: Event, rest: seq<Event>)

  datatype Generated = GenerateError(text: string) | Response(finish: string, usage: Option<Tokens>)

  // A registered bundle: whether it has an inference provider, and whether that takes tools.
  datatype Bundle = Bundle(inference: bool, tools: bool)

  /** One dispatch.  Lanes answer by attempt number; encodes(k) and gone(k) are about the k-th event of the stream; sniff
      reads a status out of an error's text. */
  datatype Input = Input(
    table: Table, bundles: Option<map<string, Bundle>>, model: string, stream: bool, toolsRequested: bool, writer: bool,
    sniff: Fault -> Class, streams: nat -> Streamed, generates: nat -> Generated,
    encodes: nat -> bool, gone: nat -> bool, closes: bool, serializes: bool, writes: bool)

  datatype Effect =
    | Call(provider: string, attempt: nat)
    | Status(code: nat)
    | OpenRow(provider: string)
    | AttemptRow(attempt: nat, provider: string, status: nat, reason: string)
    | UsageRow(tokens: Tokens)
    | TerminalRow(provider: string, finish: string, reason: string, complete: bool)
    | Encode(event: Event, ok: bool)
    | CloseStream(ok: bool)

  const ENCODE_FAILED := "stream_encode_failed"
  const CLOSE_FAILED := "stream_encode_close_failed"
  const CLIENT_GONE := "client_disconnected"

  function Classify(inp: Input, f: Fault): Class {
    match f
    case NoFault => Class(502, "bad_gateway")
    case Unrouted(UnknownModel) => Class(404, "unknown_model")
    case Unrouted(Disabled) => Class(404, "unknown_model")
    case _ => inp.sniff(f)
  }

  // ---------------------------------------------------------------- streaming to the client

  // The variables of the streaming loop; ended is the break on an upstream error.
  datatype Delivery = Delivery(out: seq<Effect>, finish: string, reason: string, failed: bool, usage: Option<Tokens>, ended: bool)

  function OrElse(reason: string, other: string): string {
    if reason == "" then other else reason
  }

  function FirstEvent(inp: Input, ev: Event): Delivery {
    var ok := inp.encodes(0);
    Delivery([Encode(ev, ok)], if ev.MessageStop? then ev.finishReason else "", if ok then "" else ENCODE_FAILED, !ok, None, false)
  }

  function NextEvent(inp: Input, d: Delivery, k: nat, ev: Event): Delivery {
    if d.ended then d
    else if ev.UpstreamError? then
      d.(reason := ev.kind, out := d.out + [Encode(ev, inp.encodes(k))], failed := d.failed || !inp.encodes(k), ended := true)
    else
      var noted := d.(usage := if ev.UsageUpdate? then Some(TokensOf(ev)) else d.usage,
                      finish := if ev.MessageStop? then ev.finishReason else d.finish);
      if d.failed then noted
      else if inp.gone(k) then noted.(failed := true, reason := OrElse(d.reason, CLIENT_GONE))
      else if inp.encodes(k) then noted.(out := d.out + [Encode(ev, true)])
      else noted.(out := d.out + [Encode(ev, false)], failed := true, reason := OrElse(d.reason, ENCODE_FAILED))
  }

  function TokensOf(ev: Event): Tokens
    requires ev.UsageUpdate?
  {
    Tokens(ev.prompt, ev.completion, ev.total, ev.cacheCreation, ev.cacheRead)
  }

  function Deliver(inp: Input, first: Event, rest: seq<Event>): Delivery {
    if rest == [] then FirstEvent(inp, first)
    else NextEvent(inp, Deliver(inp, first, DropLast(rest)), |rest|, Last(rest))
  }

  // After encoder.Close.
  function Closed(inp: Input, d: Delivery): Delivery {
    if inp.closes then d.(out := d.out + [CloseStream(true)])
    else d.(out := d.out + [CloseStream(false)], failed := true, reason := OrElse(d.reason, CLOSE_FAILED))
  }

  function Complete(d: Delivery): bool {
    d.reason == "" && !d.failed
  }

  // ---------------------------------------------------------------- one dispatch, without a loop

  function If(b: bool, rows: seq<Effect>): seq<Effect> {
    if b then rows else []
  }

  function Attempted(inp: Input, p: string, n: nat, status: nat, reason: string): seq<Effect> {
    If(inp.writer, [OpenRow(p), AttemptRow(n, p, status, reason)])
  }

  // A failure before anything was committed: its class for the attempt row, and the error kept for the client.
  datatype Failure = Failure(reason: string, fault: Fault)

  function StreamFailure(inp: Input, n: nat): Option<Failure> {
    match inp.streams(n)
    case SyncError(text) => Some(Failure("stream_sync_error", CallError(text)))
    case NoEvents => Some(Failure("stream_empty", NoFault))
    case ClientLeft => None
    case Flow(first, _) => if first.UpstreamError? then Some(Failure(first.kind, UpstreamFault(first.kind))) else None
  }

  function GenerateFailure(inp: Input, n: nat): Option<Failure> {
    match inp.generates(n)
    case GenerateError(text) => Some(Failure("generate_error", CallError(text)))
    case Response(_, _) => None
  }

  function CallFailure(inp: Input, n: nat): Option<Failure> {
    if inp.stream then StreamFailure(inp, n) else GenerateFailure(inp, n)
  }

  function UsageRows(inp: Input, usage: Option<Tokens>): seq<Effect> {
    match usage
    case None => []
    case Some(tokens) => If(inp.writer, [UsageRow(tokens)])
  }

  function StreamCommit(inp: Input, p: string, n: nat): seq<Effect>
    requires StreamFailure(inp, n).None?
  {
    match inp.streams(n)
    case ClientLeft => If(inp.writer, [OpenRow(p)]) + If(inp.writer, [TerminalRow(p, "", CLIENT_GONE, false)])
    case Flow(first, rest) =>
      var d := Closed(inp, Deliver(inp, first, rest));
      [Status(200)] + Attempted(inp, p, n, 200, "") + d.out + UsageRows(inp, d.usage)
      + If(inp.writer, [TerminalRow(p, d.finish, d.reason, Complete(d))])
  }

  function GenerateCommit(inp: Input, p: string, n: nat): seq<Effect>
    requires GenerateFailure(inp, n).None?
  {
    var resp := inp.generates(n);
    Attempted(inp, p, n, 200, "") + UsageRows(inp, resp.usage) + Responded(inp, p, resp.finish)
  }

  function Responded(inp: Input, p: string, finish: string): seq<Effect> {
    if !inp.serializes then If(inp.writer, [TerminalRow(p, "", "response_encode_failed", false)]) + [Status(500)]
    else if !inp.writes then [Status(200)] + If(inp.writer, [TerminalRow(p, finish, "client_write_failed", false)])
    else [Status(200)] + If(inp.writer, [TerminalRow(p, finish, "", true)])
  }

  // A call that fails records its attempt; one that does not commits and finishes the request.
  function CallEffects(inp: Input, p: string, n: nat): seq<Effect> {
    var failure := CallFailure(inp, n);
    [Call(p, n)] + if failure.Some? then Attempted(inp, p, n, 502, failure.value.reason)
                   else if inp.stream then StreamCommit(inp, p, n) else GenerateCommit(inp, p, n)
  }

  // The second pass, which finds the only lane excluded.
  function GiveUp(inp: Input, p: string, fault: Fault): seq<Effect> {
    If(inp.writer, [TerminalRow(p, "", Classify(inp, Unrouted(Unavailable(p))).kind, false)])
    + [Status(Classify(inp, fault).status)]
  }

  /** What dispatch amounts to: one routing decision and at most one call. */
  function Effects(inp: Input): seq<Effect> {
    var r := Route(inp.table, {}, inp.model);
    if r.UnknownModel? || r.Disabled? then [Status(Classify(inp, Unrouted(r)).status)]
    else if !r.Lane? then [Status(Classify(inp, NoFault).status)]
    else if inp.bundles.None? then [Status(502)]
    else if !Callable(inp, r.name) then [Status(Classify(inp, NoFault).status)]
    else if inp.toolsRequested && !inp.bundles.value[r.name].tools then [Status(409)]
    else
      var failure := CallFailure(inp, 1);
      CallEffects(inp, r.name, 1) + if failure.Some? then GiveUp(inp, r.name, failure.value.fault) else []
  }

  predicate Callable(inp: Input, p: string) {
    inp.bundles.Some? && p in inp.bundles.value && inp.bundles.value[p].inference
  }

  // ---------------------------------------------------------------- the loop

  // How one pass of the failover loop ends.
  datatype Pass = Finished | Failover(lastErr: Fault)

  /** The variables of dispatchRequest that its closures share. */
  class Dispatcher {
    const inp: Input
    var trace: seq<Effect>
    var requestOpened: bool
    var requestTracked: bool
    var lastProvider: string
    // of the streaming loop
    var finishReason: string
    var errorClass: string
    var deliveryFailed: bool
    var lastUsage: Option<Tokens>

    constructor (inp: Input)
      ensures this.inp == inp && trace == [] && !requestOpened && !requestTracked && lastProvider == ""
    {
      this.inp, trace, requestOpened, requestTracked, lastProvider := inp, [], false, false, "";
      finishReason, errorClass, deliveryFailed, lastUsage := "", "", false, None;
    }

    method Emit(e: Effect)
      modifies this`trace
      ensures trace == old(trace) + [e]
    {
      trace := trace + [e];
    }

    method OpenRequestRow()
      modifies this`trace, this`requestOpened
      ensures requestOpened == (old(requestOpened) || inp.writer)
      ensures trace == old(trace) + If(inp.writer && !old(requestOpened), [OpenRow(lastProvider)])
    {
      if !inp.writer || requestOpened {
        return;
      }
      requestOpened := true;
      Emit(OpenRow(lastProvider));
    }

    method TrackAttempt(attempt: nat, status: nat, reason: string)
      modifies this`trace, this`requestOpened
      ensures requestOpened == (old(requestOpened) || inp.writer)
      ensures trace == old(trace) + if old(requestOpened) then If(inp.writer, [AttemptRow(attempt, lastProvider, status, reason)])
                                    else Attempted(inp, lastProvider, attempt, status, reason)
    {
      if !inp.writer {
        return;
      }
      OpenRequestRow();
      Emit(AttemptRow(attempt, lastProvider, status, reason));
    }

    method TrackUsage(usage: Option<Tokens>)
      modifies this`trace
      ensures trace == old(trace) + UsageRows(inp, usage)
    {
      if !inp.writer || usage.None? {
        return;
      }
      Emit(UsageRow(usage.value));
    }

    method RecordRequest(finish: string, reason: string, complete: bool)
      modifies this`trace, this`requestOpened, this`requestTracked
      ensures requestOpened == (old(requestOpened) || (inp.writer && !old(requestTracked)))
      ensures trace == old(trace) + If(inp.writer && !old(requestTracked) && !old(requestOpened), [OpenRow(lastProvider)])
                       + If(inp.writer && !old(requestTracked), [TerminalRow(lastProvider, finish, reason, complete)])
      ensures !old(requestTracked) && (inp.writer ==> old(requestOpened)) ==>
                trace == old(trace) + If(inp.writer, [TerminalRow(lastProvider, finish, reason, complete)])
    {
      if !inp.writer || requestTracked {
        return;
      }
      requestTracked := true;
      OpenRequestRow();
      Emit(TerminalRow(lastProvider, finish, reason, complete));
    }

    ghost predicate Mirrors(start: seq<Effect>, d: Delivery)
      reads this
    {
      && trace == start + d.out && finishReason == d.finish && errorClass == d.reason && deliveryFailed == d.failed
      && lastUsage == d.usage
    }

    method EncodeFirst(ev: Event)
      modifies this`trace, this`finishReason, this`errorClass, this`deliveryFailed, this`lastUsage
      ensures Mirrors(old(trace), FirstEvent(inp, ev))
    {
      finishReason, errorClass, deliveryFailed, lastUsage := "", "", false, None;
      var ok := inp.encodes(0);
      Emit(Encode(ev, ok));
      if !ok {
        deliveryFailed, errorClass := true, ENCODE_FAILED;
      }
      if ev.MessageStop? {
        finishReason := ev.finishReason;
      }
    }

    method ForwardError(k: nat, ev: Event, ghost start: seq<Effect>, ghost d: Delivery)
      requires Mirrors(start, d) && !d.ended && ev.UpstreamError?
      modifies this`trace, this`errorClass, this`deliveryFailed
      ensures Mirrors(start, NextEvent(inp, d, k, ev))
    {
      errorClass := ev.kind;
      var ok := inp.encodes(k);
      AppendAssoc(start, d.out, [Encode(ev, ok)]);
      Emit(Encode(ev, ok));
      if !ok {
        deliveryFailed := true;
      }
    }

    method ForwardEvent(k: nat, ev: Event, ghost start: seq<Effect>, ghost d: Delivery)
      requires Mirrors(start, d) && !d.ended && !ev.UpstreamError?
      modifies this`trace, this`finishReason, this`errorClass, this`deliveryFailed, this`lastUsage
      ensures Mirrors(start, NextEvent(inp, d, k, ev))
    {
      if ev.UsageUpdate? {
        lastUsage := Some(TokensOf(ev));
      }
      if ev.MessageStop? {
        finishReason := ev.finishReason;
      }
      if deliveryFailed {
        return;
      }
      if inp.gone(k) {
        deliveryFailed, errorClass := true, OrElse(errorClass, CLIENT_GONE);
        return;
      }
      var ok := inp.encodes(k);
      AppendAssoc(start, d.out, [Encode(ev, ok)]);
      Emit(Encode(ev, ok));
      if !ok {
        deliveryFailed, errorClass := true, OrElse(errorClass, ENCODE_FAILED);
      }
    }

    // The body of the loop over the channel, for its k-th event.
    method ForwardNext(first: Event, rest: seq<Event>, k: nat, ghost start: seq<Effect>) returns (upstreamFailed: bool)
      requires 0 < k <= |rest|
      requires var d := Deliver(inp, first, rest[..k - 1]); Mirrors(start, d) && !d.ended
      modifies this`trace, this`finishReason, this`errorClass, this`deliveryFailed, this`lastUsage
      ensures var d := Deliver(inp, first, rest[..k]); Mirrors(start, d) && upstreamFailed == d.ended
    {
      DeliverNext(inp, first, rest, k);
      upstreamFailed := rest[k - 1].UpstreamError?;
      if upstreamFailed {
        ForwardError(k, rest[k - 1], start, Deliver(inp, first, rest[..k - 1]));
      } else {
        ForwardEvent(k, rest[k - 1], start, Deliver(inp, first, rest[..k - 1]));
      }
    }

    // The loop over the channel after the first event, and encoder.Close.
    method StreamRest(first: Event, rest: seq<Event>)
      modifies this`trace, this`finishReason, this`errorClass, this`deliveryFailed, this`lastUsage
      ensures Mirrors(old(trace), Closed(inp, Deliver(inp, first, rest)))
    {
      ghost var start := trace;
      EncodeFirst(first);
      assert rest[..0] == [];
      var k := 0;
      var upstreamFailed := false;
      while k < |rest| && !upstreamFailed
        invariant 0 <= k <= |rest| && Mirrors(start, Deliver(inp, first, rest[..k]))
        invariant upstreamFailed == Deliver(inp, first, rest[..k]).ended
        decreases |rest| - k
      {
        k := k + 1;
        upstreamFailed := ForwardNext(first, rest, k, start);
      }
      if upstreamFailed {
        DeliverEnded(inp, first, rest, k);
      }
      assert rest[..|rest|] == rest;
      CloseEncoder(start, Deliver(inp, first, rest));
    }

    method CloseEncoder(ghost start: seq<Effect>, ghost d: Delivery)
      requires Mirrors(start, d)
      modifies this`trace, this`errorClass, this`deliveryFailed
      ensures Mirrors(start, Closed(inp, d))
    {
      AppendAssoc(start, d.out, [CloseStream(inp.closes)]);
      Emit(CloseStream(inp.closes));
      if !inp.closes {
        deliveryFailed, errorClass := true, OrElse(errorClass, CLOSE_FAILED);
      }
    }

    // Nothing has been recorded for this request yet.
    ghost predicate Unrecorded()
      reads this
    {
      !requestOpened && !requestTracked
    }

    method CallStream(n: nat) returns (pass: Pass)
      requires Unrecorded()
      modifies this
      ensures lastProvider == old(lastProvider)
      ensures var failure := StreamFailure(inp, n);
        if failure.Some? then
          && pass == Failover(failure.value.fault) && requestOpened == inp.writer && !requestTracked
          && trace == old(trace) + Attempted(inp, lastProvider, n, 502, failure.value.reason)
        else pass == Finished && trace == old(trace) + StreamCommit(inp, lastProvider, n)
    {
      match inp.streams(n) {
        case SyncError(text) =>
          TrackAttempt(n, 502, "stream_sync_error");
          return Failover(CallError(text));
        case NoEvents =>
          TrackAttempt(n, 502, "stream_empty");
          return Failover(NoFault);
        case ClientLeft =>
          RecordRequest("", CLIENT_GONE, false);
          return Finished;
        case Flow(first, rest) =>
          if first.UpstreamError? {
            TrackAttempt(n, 502, first.kind);
            return Failover(UpstreamFault(first.kind));
          }
          CommitStream(n, first, rest);
          return Finished;
      }
    }

    method CommitStream(n: nat, first: Event, rest: seq<Event>)
      requires Unrecorded()
      modifies this
      ensures lastProvider == old(lastProvider)
      ensures var d := Closed(inp, Deliver(inp, first, rest));
        trace == old(trace) + ([Status(200)] + Attempted(inp, lastProvider, n, 200, "") + d.out + UsageRows(inp, d.usage)
                               + If(inp.writer, [TerminalRow(lastProvider, d.finish, d.reason, Complete(d))]))
    {
      ghost var start, p, d := trace, lastProvider, Closed(inp, Deliver(inp, first, rest));
      Emit(Status(200));
      TrackAttempt(n, 200, "");
      StreamRest(first, rest);
      TrackUsage(lastUsage);
      RecordRequest(finishReason, errorClass, errorClass == "" && !deliveryFailed);
      AppendFive(start, [Status(200)], Attempted(inp, p, n, 200, ""), d.out, UsageRows(inp, d.usage),
                 If(inp.writer, [TerminalRow(p, d.finish, d.reason, Complete(d))]));
    }

    method CallGenerate(n: nat) returns (pass: Pass)
      requires Unrecorded()
      modifies this
      ensures lastProvider == old(lastProvider)
      ensures var failure := GenerateFailure(inp, n);
        if failure.Some? then
          && pass == Failover(failure.value.fault) && requestOpened == inp.writer && !requestTracked
          && trace == old(trace) + Attempted(inp, lastProvider, n, 502, failure.value.reason)
        else pass == Finished && trace == old(trace) + GenerateCommit(inp, lastProvider, n)
    {
      match inp.generates(n) {
        case GenerateError(text) =>
          TrackAttempt(n, 502, "generate_error");
          return Failover(CallError(text));
        case Response(finish, usage) =>
          ghost var start := trace;
          TrackAttempt(n, 200, "");
          TrackUsage(usage);
          Respond(finish);
          AppendThree(start, Attempted(inp, lastProvider, n, 200, ""), UsageRows(inp, usage), Responded(inp, lastProvider, finish));
          return Finished;
      }
    }

    // Serializes the response, answers, and closes the request row.
    method Respond(finish: string)
      requires !requestTracked && (inp.writer ==> requestOpened)
      modifies this
      ensures lastProvider == old(lastProvider) && trace == old(trace) + Responded(inp, lastProvider, finish)
    {
      if !inp.serializes {
        RecordRequest("", "response_encode_failed", false);
        Emit(Status(500));
        return;
      }
      Emit(Status(200));
      if !inp.writes {
        RecordRequest(finish, "client_write_failed", false);
        return;
      }
      RecordRequest(finish, "", true);
    }

    method CallLane(n: nat) returns (pass: Pass)
      requires Unrecorded()
      modifies this
      ensures lastProvider == old(lastProvider) && trace == old(trace) + CallEffects(inp, lastProvider, n)
      ensures var failure := CallFailure(inp, n);
        if failure.Some? then pass == Failover(failure.value.fault) && requestOpened == inp.writer && !requestTracked
        else pass == Finished
    {
      ghost var start := trace;
      Emit(Call(lastProvider, n));
      if inp.stream {
        pass := CallStream(n);
      } else {
        pass := CallGenerate(n);
      }
      ghost var effects := CallEffects(inp, lastProvider, n);
      AppendAssoc(start, [Call(lastProvider, n)], effects[1..]);
      assert effects == [Call(lastProvider, n)] + effects[1..];
    }

    // No lane is left to try.
    method NoLane(r: Routed, lastErr: Fault)
      requires !requestTracked
      modifies this
      ensures !old(requestOpened) ==> trace == old(trace) + [Status(Classify(inp, lastErr).status)]
      ensures old(requestOpened) == inp.writer && r == Unavailable(old(lastProvider)) ==>
                trace == old(trace) + GiveUp(inp, old(lastProvider), lastErr)
    {
      if requestOpened {
        RecordRequest("", Classify(inp, Unrouted(r)).kind, false);
      }
      Emit(Status(Classify(inp, lastErr).status));
    }

    /** dispatchRequest.  The failover loop does what Effects says: its second pass never reaches a lane. */
    method Dispatch()
      requires Unrecorded() && trace == []
      modifies this
      ensures trace == Effects(inp)
    {
      var failedProviders: set<string> := {};
      var lastErr := NoFault;
      var maxAttempts := if inp.bundles.Some? && |inp.bundles.value| > 3 then |inp.bundles.value| else 3;
      var attempts := 0;
      ghost var routed := Route(inp.table, {}, inp.model);
      while attempts < maxAttempts
        invariant attempts <= 1
        invariant attempts == 0 ==> failedProviders == {} && lastErr == NoFault && trace == [] && Unrecorded()
        invariant attempts == 1 ==> routed.Lane? && failedProviders == {routed.name} && !requestTracked && inp.bundles.Some?
        invariant attempts == 1 && !Callable(inp, routed.name) ==> lastErr == NoFault && trace == [] && !requestOpened
        invariant attempts == 1 && Callable(inp, routed.name) ==>
          && lastProvider == routed.name && requestOpened == inp.writer
          && !(inp.toolsRequested && !inp.bundles.value[routed.name].tools)
          && CallFailure(inp, 1).Some? && lastErr == CallFailure(inp, 1).value.fault
          && trace == CallEffects(inp, routed.name, 1)
        decreases maxAttempts - attempts
      {
        attempts := attempts + 1;
        ExclusionNeverDetours(inp.table, failedProviders, inp.model);
        var r := Route(inp.table, failedProviders, inp.model);
        if r.UnknownModel? || r.Disabled? {
          Emit(Status(Classify(inp, Unrouted(r)).status));
          return;
        }
        if !r.Lane? {
          NoLane(r, lastErr);
          assert attempts == 2 ==> r == Unavailable(routed.name);
          return;
        }
        if inp.bundles.None? {
          Emit(Status(502));
          return;
        }
        if !Callable(inp, r.name) {
          failedProviders := failedProviders + {r.name};
          continue;
        }
        lastProvider := r.name;
        if inp.toolsRequested && !inp.bundles.value[r.name].tools {
          Emit(Status(409));
          return;
        }
        var pass := CallLane(attempts);
        if pass.Finished? {
          return;
        }
        failedProviders := failedProviders + {r.name};
        lastErr := pass.lastErr;
      }
      // The source's last resort, all candidates having failed, is unreachable: two passes settle it.
      assert false;
    }
  }

  lemma {:induction false} AppendThree<T>(t: seq<T>, a: seq<T>, b: seq<T>, c: seq<T>)
    ensures ((t + a) + b) + c == t + (a + b + c)
  {
  }

  lemma {:induction false} AppendFive<T>(t: seq<T>, a: seq<T>, b: seq<T>, c: seq<T>, d: seq<T>, e: seq<T>)
    ensures ((((t + a) + b) + c) + d) + e == t + (a + b + c + d + e)
  {
    AppendThree(t, a, b, c);
    AppendThree(t, a + b + c, d, e);
  }

  lemma {:induction false} DeliverNext(inp: Input, first: Event, rest: seq<Event>, k: nat)
    requires 0 < k <= |rest|
    ensures Deliver(inp, first, rest[..k]) == NextEvent(inp, Deliver(inp, first, rest[..k - 1]), k, rest[k - 1])
  {
    assert DropLast(rest[..k]) == rest[..k - 1];
  }

  lemma {:induction false} DeliverEnded(inp: Input, first: Event, rest: seq<Event>, k: nat)
    requires k <= |rest| && Deliver(inp, first, rest[..k]).ended
    ensures Deliver(inp, first, rest) == Deliver(inp, first, rest[..k])
    decreases |rest|
  {
    if k == |rest| {
      assert rest[..k] == rest;
    } else {
      assert DropLast(rest)[..k] == rest[..k];
      DeliverEnded(inp, first, DropLast(rest), k);
    }
  }

  // ---------------------------------------------------------------- what every dispatch keeps

  /** A monitor reading the effects one by one; ok turns false at the first effect out of turn. */
  datatype Tally = Tally(calls: nat, statuses: nat, opens: nat, attempts: nat, terminals: nat, ok: bool)

  const START := Tally(0, 0, 0, 0, 0, true)

  /** Out of turn: a call after the status is sent, a body before it or after a second one, a row before the request row is
      opened, a second opening, and any row after the terminal one. */
  function Tick(t: Tally, e: Effect): Tally {
    match e
    case Call(_, _) => t.(calls := t.calls + 1, ok := t.ok && t.statuses == 0)
    case Status(_) => t.(statuses := t.statuses + 1)
    case OpenRow(_) => t.(opens := t.opens + 1, ok := t.ok && t.opens == 0)
    case AttemptRow(_, _, _, _) => t.(attempts := t.attempts + 1, ok := t.ok && t.opens == 1 && t.terminals == 0)
    case UsageRow(_) => t.(ok := t.ok && t.opens == 1 && t.terminals == 0)
    case TerminalRow(_, _, _, _) => t.(terminals := t.terminals + 1, ok := t.ok && t.opens == 1 && t.terminals == 0)
    case Encode(_, _) => t.(ok := t.ok && t.statuses == 1)
    case CloseStream(_) => t.(ok := t.ok && t.statuses == 1)
  }

  function Scan(t: Tally, effects: seq<Effect>): Tally
    decreases |effects|
  {
    if effects == [] then t else Scan(Tick(t, effects[0]), effects[1..])
  }

  lemma {:induction false} ScanAppend(t: Tally, a: seq<Effect>, b: seq<Effect>)
    ensures Scan(t, a + b) == Scan(Scan(t, a), b)
    decreases |a|
  {
    if a == [] {
      assert a + b == b;
    } else {
      assert (a + b)[1..] == a[1..] + b;
      ScanAppend(Tick(t, a[0]), a[1..], b);
    }
  }

  ghost predicate BodyOnly(effects: seq<Effect>) {
    forall i :: 0 <= i < |effects| ==> effects[i].Encode? || effects[i].CloseStream?
  }

  lemma {:induction false} ScanBody(t: Tally, effects: seq<Effect>)
    requires BodyOnly(effects) && t.statuses == 1
    ensures Scan(t, effects) == t
    decreases |effects|
  {
    if effects != [] {
      assert Tick(t, effects[0]) == t;
      ScanBody(t, effects[1..]);
    }
  }

  lemma {:induction false} DeliverIsBody(inp: Input, first: Event, rest: seq<Event>)
    ensures BodyOnly(Deliver(inp, first, rest).out)
    decreases |rest|
  {
    if rest != [] {
      DeliverIsBody(inp, first, DropLast(rest));
    }
  }

  // One or two effects.
  lemma {:induction false} ScanShort(t: Tally, a: Effect, b: Effect)
    ensures Scan(t, []) == t && Scan(t, [a]) == Tick(t, a) && Scan(t, [a, b]) == Tick(Tick(t, a), b)
  {
    assert [a, b][1..] == [b] && [a][1..] == [] && [b][1..] == [];
    assert Scan(Tick(t, a), [b]) == Tick(Tick(t, a), b);
  }

  lemma {:induction false} ScanAttempted(t: Tally, inp: Input, p: string, n: nat, status: nat, reason: string)
    requires t.ok && t.opens == 0 && t.terminals == 0
    ensures Scan(t, Attempted(inp, p, n, status, reason))
            == if inp.writer then t.(opens := 1, attempts := t.attempts + 1) else t
  {
    ScanShort(t, OpenRow(p), AttemptRow(n, p, status, reason));
  }

  lemma {:induction false} ScanTerminal(t: Tally, inp: Input, e: Effect)
    requires t.ok && t.terminals == 0 && (inp.writer ==> t.opens == 1) && e.TerminalRow?
    ensures Scan(t, If(inp.writer, [e])) == if inp.writer then t.(terminals := 1) else t
  {
    ScanShort(t, e, e);
  }

  lemma {:induction false} ScanUsage(t: Tally, inp: Input, usage: Option<Tokens>)
    requires t.ok && t.terminals == 0 && (inp.writer ==> t.opens == 1)
    ensures Scan(t, UsageRows(inp, usage)) == t
  {
    if usage.Some? {
      ScanShort(t, UsageRow(usage.value), UsageRow(usage.value));
    }
  }

  // The tally of a dispatch that recorded what it should.
  function Recorded(inp: Input, calls: nat, statuses: nat, attempts: nat): Tally {
    if inp.writer then Tally(calls, statuses, 1, attempts, 1, true) else Tally(calls, statuses, 0, 0, 0, true)
  }

  const CALLED := Tally(1, 0, 0, 0, 0, true)

  lemma {:induction false} ScanGiveUp(inp: Input, p: string, reason: string, fault: Fault)
    ensures Scan(CALLED, Attempted(inp, p, 1, 502, reason) + GiveUp(inp, p, fault)) == Recorded(inp, 1, 1, 1)
  {
    var a := Attempted(inp, p, 1, 502, reason);
    var terminal := TerminalRow(p, "", Classify(inp, Unrouted(Unavailable(p))).kind, false);
    var status := Status(Classify(inp, fault).status);
    ScanAppend(CALLED, a, GiveUp(inp, p, fault));
    ScanAttempted(CALLED, inp, p, 1, 502, reason);
    var t := Scan(CALLED, a);
    ScanAppend(t, If(inp.writer, [terminal]), [status]);
    ScanTerminal(t, inp, terminal);
    ScanShort(Scan(t, If(inp.writer, [terminal])), status, status);
  }

  lemma {:induction false} ScanFlow(inp: Input, p: string, first: Event, rest: seq<Event>)
    ensures var d := Closed(inp, Deliver(inp, first, rest));
      Scan(CALLED, [Status(200)] + Attempted(inp, p, 1, 200, "") + d.out + UsageRows(inp, d.usage)
                   + If(inp.writer, [TerminalRow(p, d.finish, d.reason, Complete(d))])) == Recorded(inp, 1, 1, 1)
  {
    var d := Closed(inp, Deliver(inp, first, rest));
    DeliverIsBody(inp, first, rest);
    var status, a, u, terminal := [Status(200)], Attempted(inp, p, 1, 200, ""), UsageRows(inp, d.usage), TerminalRow(p, d.finish, d.reason, Complete(d));
    ScanFive(CALLED, status, a, d.out, u, If(inp.writer, [terminal]));
    ScanShort(CALLED, Status(200), Status(200));
    var t1 := CALLED.(statuses := 1);
    ScanAttempted(t1, inp, p, 1, 200, "");
    var t2 := Scan(t1, a);
    ScanBody(t2, d.out);
    ScanUsage(t2, inp, d.usage);
    ScanTerminal(t2, inp, terminal);
  }

  lemma {:induction false} ScanFive(t: Tally, a: seq<Effect>, b: seq<Effect>, c: seq<Effect>, d: seq<Effect>, e: seq<Effect>)
    ensures Scan(t, a + b + c + d + e) == Scan(Scan(Scan(Scan(Scan(t, a), b), c), d), e)
  {
    ScanAppend(t, a + b + c + d, e);
    ScanAppend(t, a + b + c, d);
    ScanAppend(t, a + b, c);
    ScanAppend(t, a, b);
  }

  lemma {:induction false} ScanClientLeft(inp: Input, p: string)
    ensures Scan(CALLED, If(inp.writer, [OpenRow(p)]) + If(inp.writer, [TerminalRow(p, "", CLIENT_GONE, false)]))
            == Recorded(inp, 1, 0, 0)
  {
    ScanAppend(CALLED, If(inp.writer, [OpenRow(p)]), If(inp.writer, [TerminalRow(p, "", CLIENT_GONE, false)]));
    ScanShort(CALLED, OpenRow(p), OpenRow(p));
    ScanTerminal(Scan(CALLED, If(inp.writer, [OpenRow(p)])), inp, TerminalRow(p, "", CLIENT_GONE, false));
  }

  lemma {:induction false} ScanResponded(t: Tally, inp: Input, p: string, finish: string)
    requires t.ok && t.terminals == 0 && (inp.writer ==> t.opens == 1)
    ensures Scan(t, Responded(inp, p, finish))
            == if inp.writer then t.(statuses := t.statuses + 1, terminals := 1) else t.(statuses := t.statuses + 1)
  {
    var e := if !inp.serializes then TerminalRow(p, "", "response_encode_failed", false)
             else if !inp.writes then TerminalRow(p, finish, "client_write_failed", false)
             else TerminalRow(p, finish, "", true);
    var status := Status(if inp.serializes then 200 else 500);
    var after := t.(statuses := t.statuses + 1);
    ScanShort(t, status, status);
    ScanTerminal(t, inp, e);
    ScanTerminal(after, inp, e);
    ScanShort(Scan(t, If(inp.writer, [e])), status, status);
    ScanAppend(t, If(inp.writer, [e]), [status]);
    ScanAppend(t, [status], If(inp.writer, [e]));
  }

  lemma {:induction false} ScanResponse(inp: Input, p: string, finish: string, usage: Option<Tokens>)
    ensures Scan(CALLED, Attempted(inp, p, 1, 200, "") + UsageRows(inp, usage) + Responded(inp, p, finish)) == Recorded(inp, 1, 1, 1)
  {
    var a, u, r := Attempted(inp, p, 1, 200, ""), UsageRows(inp, usage), Responded(inp, p, finish);
    ScanAppend(CALLED, a + u, r);
    ScanAppend(CALLED, a, u);
    ScanAttempted(CALLED, inp, p, 1, 200, "");
    ScanUsage(Scan(CALLED, a), inp, usage);
    ScanResponded(Scan(CALLED, a), inp, p, finish);
  }

  // The lane that is called, if any.
  function Called(inp: Input): Option<string> {
    var r := Route(inp.table, {}, inp.model);
    if r.Lane? && Callable(inp, r.name) && (inp.toolsRequested ==> inp.bundles.value[r.name].tools) then Some(r.name) else None
  }

  /** The lane that a dispatch calls: the one its model belongs to, if that is registered with an inference provider which takes
      tools when the request has some, and the model is not disabled. */
  ghost predicate Calls(inp: Input, p: string) {
    && Serves(inp, p) && p in inp.bundles.value && inp.bundles.value[p].inference
    && (inp.toolsRequested ==> inp.bundles.value[p].tools)
  }

  // The model is not disabled, and belongs to the registered lane p.
  ghost predicate Serves(inp: Input, p: string) {
    !Killed(inp.table, inp.model) && Belongs(inp.table, inp.model, p) && p in inp.table.names && inp.bundles.Some?
  }

  lemma {:induction false} CalledIff(inp: Input, p: string)
    ensures Called(inp) == Some(p) <==> Calls(inp, p)
  {
    RoutesIff(inp.table, {}, inp.model, p);
  }

  lemma {:induction false} NobodyCalled(inp: Input)
    ensures Called(inp).None? <==> forall p :: !Calls(inp, p)
  {
    if Called(inp).Some? {
      CalledIff(inp, Called(inp).value);
    } else {
      forall p ensures !Calls(inp, p) {
        CalledIff(inp, p);
      }
    }
  }

  // The client leaves before the first event of a stream.
  predicate LeftEarly(inp: Input) {
    inp.stream && inp.streams(1).ClientLeft?
  }

  /** Every dispatch calls one lane at most, the one its model belongs to; sends exactly one status (none only if the client
      left before the first event), never calls after it and writes no body before it; opens the request row before
      any other row; and closes it exactly once whenever a lane was called. */
  lemma {:induction false} DispatchDiscipline(inp: Input)
    ensures (forall p :: !Calls(inp, p)) ==> Scan(START, Effects(inp)) == START.(statuses := 1)
    ensures forall p :: Calls(inp, p) ==>
      && Scan(START, Effects(inp)) == Recorded(inp, 1, if LeftEarly(inp) then 0 else 1, if LeftEarly(inp) then 0 else 1)
      && Effects(inp) != [] && Effects(inp)[0] == Call(p, 1)
  {
    NobodyCalled(inp);
    if Called(inp).None? {
      forall code ensures Scan(START, [Status(code)]) == START.(statuses := 1) {
        ScanShort(START, Status(code), Status(code));
      }
    } else {
      forall p | Calls(inp, p)
        ensures Scan(START, Effects(inp)) == Recorded(inp, 1, if LeftEarly(inp) then 0 else 1, if LeftEarly(inp) then 0 else 1)
        ensures Effects(inp) != [] && Effects(inp)[0] == Call(p, 1)
      {
        CalledIff(inp, p);
        AfterCall(inp, p);
        CallsOnce(inp, p);
        ScanAppend(START, [Call(p, 1)], AfterCallEffects(inp, p));
        ScanShort(START, Call(p, 1), Call(p, 1));
      }
    }
  }

  function AfterCallEffects(inp: Input, p: string): seq<Effect> {
    var failure := CallFailure(inp, 1);
    if failure.Some? then Attempted(inp, p, 1, 502, failure.value.reason) + GiveUp(inp, p, failure.value.fault)
    else if inp.stream then StreamCommit(inp, p, 1)
    else GenerateCommit(inp, p, 1)
  }

  lemma {:induction false} CallsOnce(inp: Input, p: string)
    requires Called(inp) == Some(p)
    ensures Effects(inp) == [Call(p, 1)] + AfterCallEffects(inp, p)
  {
    var failure := CallFailure(inp, 1);
    if failure.Some? {
      AppendAssoc([Call(p, 1)], Attempted(inp, p, 1, 502, failure.value.reason), GiveUp(inp, p, failure.value.fault));
    } else {
      assert Effects(inp) == CallEffects(inp, p, 1) + [];
    }
  }

  lemma {:induction false} AfterCall(inp: Input, p: string)
    requires Called(inp) == Some(p)
    ensures Scan(CALLED, AfterCallEffects(inp, p))
            == Recorded(inp, 1, if LeftEarly(inp) then 0 else 1, if LeftEarly(inp) then 0 else 1)
  {
    var failure := CallFailure(inp, 1);
    if failure.Some? {
      ScanGiveUp(inp, p, failure.value.reason, failure.value.fault);
    } else if inp.stream {
      match inp.streams(1)
      case ClientLeft => ScanClientLeft(inp, p);
      case Flow(first, rest) => ScanFlow(inp, p, first, rest);
      case _ =>
    } else {
      ScanResponse(inp, p, inp.generates(1).finish, inp.generates(1).usage);
    }
  }

  // ---------------------------------------------------------------- what is answered and recorded

  // The model is disabled, or belongs to no lane although some are registered.
  ghost predicate Unknown(inp: Input) {
    Killed(inp.table, inp.model) || (inp.table.names != [] && forall p :: !Belongs(inp.table, inp.model, p))
  }

  // The lane could be called, but the request has tools and the lane takes none.
  ghost predicate LacksTools(inp: Input) {
    && inp.toolsRequested
    && exists p :: Serves(inp, p) && p in inp.bundles.value && inp.bundles.value[p].inference && !inp.bundles.value[p].tools
  }

  // What a call is answered with; no status when the client has left.
  predicate Answers(inp: Input, code: nat) {
    if inp.stream then
      match inp.streams(1)
      case SyncError(text) => code == inp.sniff(CallError(text)).status
      case ClientLeft => false
      case NoEvents => code == 502
      case Flow(first, _) => code == if first.UpstreamError? then inp.sniff(UpstreamFault(first.kind)).status else 200
    else
      match inp.generates(1)
      case GenerateError(text) => code == inp.sniff(CallError(text)).status
      case Response(_, _) => code == if inp.serializes then 200 else 500
  }

  lemma {:induction false} FailedAnswers(inp: Input, p: string, reason: string, fault: Fault, code: nat)
    ensures Status(code) in Attempted(inp, p, 1, 502, reason) + GiveUp(inp, p, fault) <==> code == Classify(inp, fault).status
  {
  }

  lemma {:induction false} StreamAnswers(inp: Input, p: string, code: nat)
    requires StreamFailure(inp, 1).None?
    ensures Status(code) in StreamCommit(inp, p, 1) <==> inp.streams(1).Flow? && code == 200
  {
    if inp.streams(1).Flow? {
      var d := Closed(inp, Deliver(inp, inp.streams(1).first, inp.streams(1).rest));
      DeliverIsBody(inp, inp.streams(1).first, inp.streams(1).rest);
      assert Status(code) !in d.out;
    }
  }

  lemma {:induction false} GenerateAnswers(inp: Input, p: string, code: nat)
    requires GenerateFailure(inp, 1).None?
    ensures Status(code) in GenerateCommit(inp, p, 1) <==> code == if inp.serializes then 200 else 500
  {
  }

  lemma {:induction false} CallAnswers(inp: Input, p: string, code: nat)
    ensures Status(code) in AfterCallEffects(inp, p) <==> Answers(inp, code)
  {
    var failure := CallFailure(inp, 1);
    if failure.Some? {
      FailedAnswers(inp, p, failure.value.reason, failure.value.fault, code);
    } else if inp.stream {
      StreamAnswers(inp, p, code);
    } else {
      GenerateAnswers(inp, p, code);
    }
  }

  /** Which status a dispatch sends: 404 for a disabled model or one that belongs to no lane; what became of the call, if there
      is one (an error's own status, 502 for an empty stream); 409 for a lane that takes no tools; 502 for everything else. */
  lemma {:induction false} DispatchStatusIff(inp: Input, code: nat)
    ensures Status(code) in Effects(inp) <==>
      if Unknown(inp) then code == 404
      else if exists p :: Calls(inp, p) then Answers(inp, code)
      else if LacksTools(inp) then code == 409
      else code == 502
  {
    var r := Route(inp.table, {}, inp.model);
    UnknownIff(inp);
    NobodyCalled(inp);
    if Called(inp).Some? {
      CallsOnce(inp, Called(inp).value);
      CallAnswers(inp, Called(inp).value, code);
    } else {
      LacksToolsIff(inp);
    }
  }

  lemma {:induction false} UnknownIff(inp: Input)
    ensures var r := Route(inp.table, {}, inp.model); Unknown(inp) <==> r.UnknownModel? || r.Disabled?
  {
    RouteErrorsIff(inp.table, {}, inp.model, "");
  }

  lemma {:induction false} LacksToolsIff(inp: Input)
    ensures var r := Route(inp.table, {}, inp.model);
      LacksTools(inp) <==> inp.toolsRequested && r.Lane? && Callable(inp, r.name) && !inp.bundles.value[r.name].tools
  {
    var r := Route(inp.table, {}, inp.model);
    if r.Lane? {
      RoutesIff(inp.table, {}, inp.model, r.name);
    }
    if LacksTools(inp) {
      var p :| Serves(inp, p) && p in inp.bundles.value && inp.bundles.value[p].inference && !inp.bundles.value[p].tools;
      RoutesIff(inp.table, {}, inp.model, p);
    }
  }

  // The attempt row of a call: a failed one is a 502 with the reason it failed for.
  predicate AttemptIs(inp: Input, status: nat, reason: string) {
    if inp.stream then
      match inp.streams(1)
      case SyncError(_) => status == 502 && reason == "stream_sync_error"
      case ClientLeft => false
      case NoEvents => status == 502 && reason == "stream_empty"
      case Flow(first, _) =>
        if first.UpstreamError? then status == 502 && reason == first.kind else status == 200 && reason == ""
    else if inp.generates(1).GenerateError? then status == 502 && reason == "generate_error"
    else status == 200 && reason == ""
  }

  // The terminal row of a call that is no stream of events.
  predicate TerminalIs(inp: Input, p: string, finish: string, reason: string, complete: bool) {
    var gaveUp := finish == "" && reason == inp.sniff(Unrouted(Unavailable(p))).kind && !complete;
    if inp.stream then
      match inp.streams(1)
      case ClientLeft => finish == "" && reason == "client_disconnected" && !complete
      case _ => gaveUp
    else
      match inp.generates(1)
      case GenerateError(_) => gaveUp
      case Response(f, _) =>
        if !inp.serializes then finish == "" && reason == "response_encode_failed" && !complete
        else if !inp.writes then finish == f && reason == "client_write_failed" && !complete
        else finish == f && reason == "" && complete
  }

  // The call turned into a stream of events to the client.
  predicate Streams(inp: Input) {
    inp.stream && inp.streams(1).Flow? && !inp.streams(1).first.UpstreamError?
  }

  // An attempt row or a terminal row among the effects.
  predicate RowIn(e: Effect, effects: seq<Effect>) {
    (e.AttemptRow? || e.TerminalRow?) && e in effects
  }

  lemma {:induction false} FailedRows(inp: Input, p: string, reason: string, fault: Fault, e: Effect)
    ensures RowIn(e, Attempted(inp, p, 1, 502, reason) + GiveUp(inp, p, fault))
            <==> inp.writer && (e == AttemptRow(1, p, 502, reason)
                                || e == TerminalRow(p, "", inp.sniff(Unrouted(Unavailable(p))).kind, false))
  {
  }

  lemma {:induction false} FlowRows(inp: Input, p: string, e: Effect)
    requires Streams(inp) && e.AttemptRow?
    ensures RowIn(e, StreamCommit(inp, p, 1)) <==> inp.writer && e == AttemptRow(1, p, 200, "")
  {
    var d := Closed(inp, Deliver(inp, inp.streams(1).first, inp.streams(1).rest));
    DeliverIsBody(inp, inp.streams(1).first, inp.streams(1).rest);
    assert e !in d.out;
  }

  lemma {:induction false} LeftRows(inp: Input, p: string, e: Effect)
    requires LeftEarly(inp)
    ensures RowIn(e, StreamCommit(inp, p, 1)) <==> inp.writer && e == TerminalRow(p, "", "client_disconnected", false)
  {
  }

  // The terminal row of a response.
  function ResponseRow(inp: Input, p: string, finish: string): Effect {
    if !inp.serializes then TerminalRow(p, "", "response_encode_failed", false)
    else if !inp.writes then TerminalRow(p, finish, "client_write_failed", false)
    else TerminalRow(p, finish, "", true)
  }

  lemma {:induction false} GeneratedRows(inp: Input, p: string, e: Effect)
    requires inp.generates(1).Response?
    ensures RowIn(e, GenerateCommit(inp, p, 1))
            <==> inp.writer && (e == AttemptRow(1, p, 200, "") || e == ResponseRow(inp, p, inp.generates(1).finish))
  {
  }

  lemma {:induction false} AttemptIn(inp: Input, p: string, q: string, n: nat, status: nat, reason: string)
    ensures AttemptRow(n, q, status, reason) in AfterCallEffects(inp, p)
            <==> inp.writer && q == p && n == 1 && AttemptIs(inp, status, reason)
  {
    var e, failure := AttemptRow(n, q, status, reason), CallFailure(inp, 1);
    if failure.Some? {
      FailedRows(inp, p, failure.value.reason, failure.value.fault, e);
    } else if !inp.stream {
      GeneratedRows(inp, p, e);
    } else if Streams(inp) {
      FlowRows(inp, p, e);
    } else {
      LeftRows(inp, p, e);
    }
  }

  lemma {:induction false} TerminalIn(inp: Input, p: string, q: string, finish: string, reason: string, complete: bool)
    requires !Streams(inp)
    ensures TerminalRow(q, finish, reason, complete) in AfterCallEffects(inp, p)
            <==> inp.writer && q == p && TerminalIs(inp, p, finish, reason, complete)
  {
    var e, failure := TerminalRow(q, finish, reason, complete), CallFailure(inp, 1);
    if failure.Some? {
      FailedRows(inp, p, failure.value.reason, failure.value.fault, e);
    } else if !inp.stream {
      GeneratedRows(inp, p, e);
    } else {
      LeftRows(inp, p, e);
    }
  }

  /** Which rows a dispatch records: with a recorder, a call leaves one attempt row, the first, of its lane with what became of
      it, and (for all but streams, whose terminal row StreamCompleteIff is about) one terminal row. */
  lemma {:induction false} DispatchRowsIff(inp: Input, q: string, n: nat, status: nat, finish: string, reason: string, complete: bool)
    ensures AttemptRow(n, q, status, reason) in Effects(inp)
            <==> inp.writer && Calls(inp, q) && n == 1 && AttemptIs(inp, status, reason)
    ensures !Streams(inp) ==> (TerminalRow(q, finish, reason, complete) in Effects(inp)
                               <==> inp.writer && Calls(inp, q) && TerminalIs(inp, q, finish, reason, complete))
  {
    CalledIff(inp, q);
    if Called(inp).Some? {
      CallsOnce(inp, Called(inp).value);
      AttemptIn(inp, Called(inp).value, q, n, status, reason);
      if !Streams(inp) {
        TerminalIn(inp, Called(inp).value, q, finish, reason, complete);
      }
    }
  }

  // ---------------------------------------------------------------- complete streams

  // n is where the loop over rest stops: at the first upstream error, or at the end.
  ghost predicate StopsAt(rest: seq<Event>, n: nat) {
    && n <= |rest| && (n < |rest| ==> rest[n].UpstreamError?)
    && forall j :: 0 <= j < n ==> !rest[j].UpstreamError?
  }

  function Frames(events: seq<Event>): seq<Effect> {
    if events == [] then [] else Frames(DropLast(events)) + [Encode(Last(events), true)]
  }

  function LastUsage(events: seq<Event>): Option<Tokens> {
    if events == [] then None
    else if Last(events).UsageUpdate? then Some(TokensOf(Last(events)))
    else LastUsage(DropLast(events))
  }

  function LastFinish(events: seq<Event>): string {
    if events == [] then "" else if Last(events).MessageStop? then Last(events).finishReason else LastFinish(DropLast(events))
  }

  // Every one of the first n events after the first, and the first, went out with the client there.
  ghost predicate AllSent(inp: Input, n: nat) {
    inp.encodes(0) && forall k :: 1 <= k <= n ==> inp.encodes(k) && !inp.gone(k)
  }

  lemma {:induction false} NextQuiet(inp: Input, d: Delivery, k: nat, ev: Event)
    requires !d.ended && !ev.UpstreamError? && k > 0 && (d.failed <==> !AllSent(inp, k - 1)) && (d.failed <==> d.reason != "")
    ensures var d' := NextEvent(inp, d, k, ev);
      && !d'.ended && (d'.failed <==> !AllSent(inp, k)) && (d'.failed <==> d'.reason != "")
      && (!d'.failed ==> !d.failed && d'.out == d.out + [Encode(ev, true)])
      && d'.usage == (if ev.UsageUpdate? then Some(TokensOf(ev)) else d.usage)
      && d'.finish == (if ev.MessageStop? then ev.finishReason else d.finish)
  {
  }

  lemma {:induction false} DeliverQuiet(inp: Input, first: Event, rest: seq<Event>)
    requires StopsAt(rest, |rest|) && !first.UpstreamError?
    ensures var d := Deliver(inp, first, rest);
      && !d.ended && (d.failed <==> !AllSent(inp, |rest|)) && (d.failed <==> d.reason != "")
      && (!d.failed ==> d.out == Frames([first] + rest))
      && d.usage == LastUsage(rest) && d.finish == LastFinish([first] + rest)
    decreases |rest|
  {
    if rest == [] {
      assert [first] + rest == [first] && DropLast([first]) == [];
    } else {
      var front := DropLast(rest);
      assert StopsAt(front, |front|);
      DeliverQuiet(inp, first, front);
      assert DropLast([first] + rest) == [first] + front && Last([first] + rest) == Last(rest);
      NextQuiet(inp, Deliver(inp, first, front), |rest|, Last(rest));
    }
  }

  /** The terminal row says stream_complete exactly when every event up to the end of the stream, or up to and including
      an upstream error whose kind is empty, was encoded with the client still there, and Close succeeded. */
  lemma {:induction false} StreamCompleteIff(inp: Input, first: Event, rest: seq<Event>, n: nat)
    requires !first.UpstreamError? && StopsAt(rest, n)
    ensures var d := Closed(inp, Deliver(inp, first, rest));
      && (Complete(d) <==> AllSent(inp, n) && inp.closes && (n < |rest| ==> rest[n].kind == "" && inp.encodes(n + 1)))
      && d.usage == LastUsage(rest[..n]) && d.finish == LastFinish([first] + rest[..n])
  {
    DeliverQuiet(inp, first, rest[..n]);
    if n < |rest| {
      DeliverNext(inp, first, rest, n + 1);
      DeliverEnded(inp, first, rest, n + 1);
    } else {
      assert rest[..n] == rest;
    }
  }

  /** A stream recorded as complete sent every one of those events, in order, and nothing else. */
  lemma {:induction false} CompleteStreamsSentAll(inp: Input, first: Event, rest: seq<Event>, n: nat)
    requires !first.UpstreamError? && StopsAt(rest, n) && Complete(Closed(inp, Deliver(inp, first, rest)))
    ensures Closed(inp, Deliver(inp, first, rest)).out
         == Frames([first] + if n < |rest| then rest[..n + 1] else rest) + [CloseStream(true)]
  {
    StreamCompleteIff(inp, first, rest, n);
    DeliverQuiet(inp, first, rest[..n]);
    if n < |rest| {
      DeliverNext(inp, first, rest, n + 1);
      DeliverEnded(inp, first, rest, n + 1);
      var sent := [first] + rest[..n + 1];
      assert DropLast(sent) == [first] + rest[..n] && Last(sent) == rest[n];
    } else {
      assert rest[..n] == rest;
    }
  }

  // What goes wrong with the k-th event of the stream.
  function FaultAt(inp: Input, k: nat): string {
    if k > 0 && inp.gone(k) then "client_disconnected" else if !inp.encodes(k) then "stream_encode_failed" else ""
  }

  // k is the first event up to n with which something goes wrong.
  ghost predicate FirstFault(inp: Input, n: nat, k: nat) {
    k <= n && FaultAt(inp, k) != "" && forall j: nat :: j < k ==> FaultAt(inp, j) == ""
  }

  lemma {:induction false} NoFaultYet(inp: Input, k: nat)
    requires k > 0 && forall j: nat :: j < k ==> FaultAt(inp, j) == ""
    ensures AllSent(inp, k - 1)
  {
    forall j: nat | j < k ensures inp.encodes(j) && (j > 0 ==> !inp.gone(j)) {
      assert FaultAt(inp, j) == "" && "stream_encode_failed" != "" && "client_disconnected" != "";
    }
  }

  lemma {:induction false} QuietReason(inp: Input, first: Event, rest: seq<Event>, k: nat)
    requires StopsAt(rest, |rest|) && !first.UpstreamError? && FirstFault(inp, |rest|, k)
    ensures Deliver(inp, first, rest).reason == FaultAt(inp, k)
    decreases |rest|
  {
    DeliverQuiet(inp, first, rest);
    if rest != [] {
      var front := DropLast(rest);
      assert StopsAt(front, |front|);
      DeliverQuiet(inp, first, front);
      if k < |rest| {
        QuietReason(inp, first, front, k);
      } else {
        NoFaultYet(inp, k);
      }
    }
  }

  /** The reason recorded for a stream: the kind of the upstream error that ended it, even if something went wrong before; and
      without one, the first thing that went wrong, or that Close failed. */
  lemma {:induction false} StreamReasonIs(inp: Input, first: Event, rest: seq<Event>, n: nat, k: nat)
    requires !first.UpstreamError? && StopsAt(rest, n)
    ensures var reason := Closed(inp, Deliver(inp, first, rest)).reason;
      && (n < |rest| && rest[n].kind != "" ==> reason == rest[n].kind)
      && (n == |rest| && FirstFault(inp, n, k) ==> reason == FaultAt(inp, k))
      && ((n < |rest| && rest[n].kind == "") || (n == |rest| && AllSent(inp, n)) ==>
            reason == if inp.closes then "" else "stream_encode_close_failed")
  {
    DeliverQuiet(inp, first, rest[..n]);
    if n < |rest| {
      DeliverNext(inp, first, rest, n + 1);
      DeliverEnded(inp, first, rest, n + 1);
    } else {
      assert rest[..n] == rest;
      if FirstFault(inp, n, k) {
        QuietReason(inp, first, rest, k);
      }
    }
  }

  /** A stream that an upstream error of empty kind ended is recorded as complete, and the usage its first event reported is
      not recorded. */
  lemma {:induction false} CutStreamIsComplete(inp: Input)
    requires (forall k :: inp.encodes(k) && !inp.gone(k)) && inp.closes
    ensures var d := Closed(inp, Deliver(inp, UsageUpdate(1, 1, 2, 0, 0), [UpstreamError("", "overloaded")]));
      Complete(d) && d.usage == None
  {
    StreamCompleteIff(inp, UsageUpdate(1, 1, 2, 0, 0), [UpstreamError("", "overloaded")], 0);
  }
}
