/** Distilling the leaves of a billing message into one quota window (parseGrokCredits and its helpers in
    pkg/provider/openaicompat/quirks_quota.go).  A fixed32 is turned into a rounded percentage by a parameter, None for
    one that is not a number. */
module GrokCredits {
  import opened Common
  import opened State
  import P = Protobuf
  import G = GrpcWebFraming

  // Times are unix seconds; None is the zero time.
  datatype Window = Window(start: Option<int>, reset: Option<int>, active: bool, pct: Option<real>)

  type Percent = seq<byte> -> Option<real>

  const SECOND: Time := 1_000_000_000
  const UNIX_MIN := 1_700_000_000
  const UNIX_MAX := 2_100_000_000

  predicate EndsWith(path: seq<int>, suffix: seq<int>) {
    |path| >= |suffix| && path[|path| - |suffix|..] == suffix
  }

  // What one leaf can contribute.
  predicate IsTime(l: P.Leaf, v: int) {
    l.VarintLeaf? && l.value == v && UNIX_MIN <= v <= UNIX_MAX
  }

  predicate IsStart(l: P.Leaf, now: Time, v: int) {
    IsTime(l, v) && v * SECOND <= now
  }

  predicate IsReset(l: P.Leaf, now: Time, v: int) {
    IsTime(l, v) && v * SECOND > now
  }

  predicate IsUsage(percent: Percent, l: P.Leaf, p: real) {
    l.Fixed32Leaf? && EndsWith(l.path, [1]) && percent(l.bits) == Some(p) && 0.0 <= p <= 100.0
  }

  predicate IsActive(l: P.Leaf) {
    l.VarintLeaf? && EndsWith(l.path, [8, 1]) && l.value == 2
  }

  /** The window a collection of leaves stands for: the least start, reset and percentage there is, if any. */
  ghost predicate Stands(percent: Percent, leaves: seq<P.Leaf>, now: Time, w: Window) {
    && (w.start.Some? ==> exists l :: l in leaves && IsStart(l, now, w.start.value))
    && (forall l, v :: l in leaves && IsStart(l, now, v) ==> w.start.Some? && w.start.value <= v)
    && (w.reset.Some? ==> exists l :: l in leaves && IsReset(l, now, w.reset.value))
    && (forall l, v :: l in leaves && IsReset(l, now, v) ==> w.reset.Some? && w.reset.value <= v)
    && (w.pct.Some? ==> exists l :: l in leaves && IsUsage(percent, l, w.pct.value))
    && (forall l, p :: l in leaves && IsUsage(percent, l, p) ==> w.pct.Some? && w.pct.value <= p)
    && (w.active <==> exists l :: l in leaves && IsActive(l))
  }

  /** The order and repetition of leaves do not matter. */
  lemma {:induction false} WindowIsDetermined(percent: Percent, a: seq<P.Leaf>, b: seq<P.Leaf>, now: Time, w: Window, v: Window)
    requires Stands(percent, a, now, w) && Stands(percent, b, now, v)
    requires forall l :: l in a <==> l in b
    ensures w == v
  {
    if w.start.Some? {
      var l :| l in a && IsStart(l, now, w.start.value);
      assert l in b;
    }
    if v.start.Some? {
      var l :| l in b && IsStart(l, now, v.start.value);
      assert l in a;
    }
    if w.reset.Some? {
      var l :| l in a && IsReset(l, now, w.reset.value);
      assert l in b;
    }
    if v.reset.Some? {
      var l :| l in b && IsReset(l, now, v.reset.value);
      assert l in a;
    }
    if w.pct.Some? {
      var l :| l in a && IsUsage(percent, l, w.pct.value);
      assert l in b;
    }
    if v.pct.Some? {
      var l :| l in b && IsUsage(percent, l, v.pct.value);
      assert l in a;
    }
  }

  // The leaf is a moment, in seconds, of the years in which the service can run.
  predicate Moment(l: P.Leaf, t: int) {
    l.VarintLeaf? && l.value == t && 1_700_000_000 <= t && t <= 2_100_000_000
  }

  lemma {:induction false} Nanoseconds(t: int)
    ensures t * SECOND == 1_000_000_000 * t
  {
  }

  /** The start is the earliest moment that is not in the future, and the reset the earliest that is, to the nanosecond; the
      share used is a percentage. */
  lemma {:induction false} WindowIsCurrent(percent: Percent, leaves: seq<P.Leaf>, now: Time, w: Window, l: P.Leaf, t: int)
    requires Stands(percent, leaves, now, w)
    ensures w.start.Some? ==> 1_000_000_000 * w.start.value <= now && exists l :: l in leaves && Moment(l, w.start.value)
    ensures w.reset.Some? ==> 1_000_000_000 * w.reset.value > now && exists l :: l in leaves && Moment(l, w.reset.value)
    ensures l in leaves && Moment(l, t) && 1_000_000_000 * t <= now ==> w.start.Some? && w.start.value <= t
    ensures l in leaves && Moment(l, t) && 1_000_000_000 * t > now ==> w.reset.Some? && w.reset.value <= t
    ensures w.pct.Some? ==> 0.0 <= w.pct.value <= 100.0
  {
    if w.start.Some? {
      var m :| m in leaves && IsStart(m, now, w.start.value);
      Nanoseconds(w.start.value);
      assert Moment(m, w.start.value);
    }
    if w.reset.Some? {
      var m :| m in leaves && IsReset(m, now, w.reset.value);
      Nanoseconds(w.reset.value);
      assert Moment(m, w.reset.value);
    }
    Nanoseconds(t);
    if l in leaves && Moment(l, t) {
      assert IsStart(l, now, t) || IsReset(l, now, t);
    }
  }

  /** A billing message of a past start, a future end, a percentage under field 1 and the mark of an active window reads as
      exactly that, wherever the two moments are nested. */
  lemma {:induction false} BillingMessageReads(percent: Percent, from: P.Leaf, until: P.Leaf, at: seq<int>, bits: seq<byte>, p: real,
                                               under: seq<int>, now: Time, w: Window, start: int, end: int)
    requires Moment(from, start) && Moment(until, end) && 1_000_000_000 * start <= now < 1_000_000_000 * end
    requires percent(bits) == Some(p) && 0.0 <= p <= 100.0
    requires Stands(percent, [from, until, P.Fixed32Leaf(at + [1], bits), P.VarintLeaf(under + [8, 1], 2)], now, w)
    ensures w == Window(Some(start), Some(end), true, Some(p))
  {
    var share, mark := P.Fixed32Leaf(at + [1], bits), P.VarintLeaf(under + [8, 1], 2);
    var leaves := [from, until, share, mark];
    assert leaves[0] == from && leaves[1] == until && leaves[2] == share && leaves[3] == mark;
    WindowIsCurrent(percent, leaves, now, w, from, start);
    WindowIsCurrent(percent, leaves, now, w, until, end);
    assert (at + [1])[|at|..] == [1] && (under + [8, 1])[|under|..] == [8, 1];
    assert IsUsage(percent, share, p) && IsActive(mark);
  }

  method EarliestTime(times: seq<int>) returns (earliest: Option<int>)
    ensures earliest.None? <==> times == []
    ensures earliest.Some? ==> earliest.value in times && forall t :: t in times ==> earliest.value <= t
  {
    earliest := None;
    var i := 0;
    while i < |times|
      invariant 0 <= i <= |times| && (earliest.None? <==> i == 0)
      invariant earliest.Some? ==> earliest.value in times && forall k :: 0 <= k < i ==> earliest.value <= times[k]
    {
      if earliest.None? || times[i] < earliest.value {
        earliest := Some(times[i]);
      }
      i := i + 1;
    }
  }

  method SplitTimes(leaves: seq<P.Leaf>, now: Time) returns (starts: seq<int>, resets: seq<int>)
    ensures forall v :: v in starts <==> exists l :: l in leaves && IsStart(l, now, v)
    ensures forall v :: v in resets <==> exists l :: l in leaves && IsReset(l, now, v)
  {
    starts, resets := [], [];
    var i := 0;
    while i < |leaves|
      invariant 0 <= i <= |leaves|
      invariant forall v :: v in starts <==> exists k :: 0 <= k < i && IsStart(leaves[k], now, v)
      invariant forall v :: v in resets <==> exists k :: 0 <= k < i && IsReset(leaves[k], now, v)
    {
      var l := leaves[i];
      if l.VarintLeaf? && UNIX_MIN <= l.value <= UNIX_MAX {
        if l.value * SECOND > now {
          resets := resets + [l.value];
        } else {
          starts := starts + [l.value];
        }
      }
      i := i + 1;
    }
  }

  method WindowActive(leaves: seq<P.Leaf>) returns (active: bool)
    ensures active <==> exists l :: l in leaves && IsActive(l)
  {
    var i := 0;
    while i < |leaves|
      invariant 0 <= i <= |leaves| && forall k :: 0 <= k < i ==> !IsActive(leaves[k])
    {
      if IsActive(leaves[i]) {
        return true;
      }
      i := i + 1;
    }
    return false;
  }

  method UsagePercent(percent: Percent, leaves: seq<P.Leaf>) returns (best: Option<real>)
    ensures best.Some? ==> exists l :: l in leaves && IsUsage(percent, l, best.value)
    ensures forall l, p :: l in leaves && IsUsage(percent, l, p) ==> best.Some? && best.value <= p
  {
    best := None;
    var i := 0;
    while i < |leaves|
      invariant 0 <= i <= |leaves|
      invariant best.Some? ==> exists k :: 0 <= k < i && IsUsage(percent, leaves[k], best.value)
      invariant forall k, p :: 0 <= k < i && IsUsage(percent, leaves[k], p) ==> best.Some? && best.value <= p
    {
      var l := leaves[i];
      if l.Fixed32Leaf? && EndsWith(l.path, [1]) {
        var pct := percent(l.bits);
        if pct.Some? && 0.0 <= pct.value <= 100.0 && (best.None? || pct.value < best.value) {
          best := pct;
        }
      }
      i := i + 1;
    }
  }

  method ParseGrokCredits(percent: Percent, payload: seq<byte>, now: Time) returns (w: Window)
    ensures Stands(percent, P.Scan(payload), now, w)
  {
    var scanner := new P.ProtobufScanner();
    scanner.ScanMessage(payload, [], 0);
    assert scanner.fields == P.Scan(payload);
    var starts, resets := SplitTimes(scanner.fields, now);
    var start := EarliestTime(starts);
    var reset := EarliestTime(resets);
    var active := WindowActive(scanner.fields);
    var pct := UsagePercent(percent, scanner.fields);
    w := Window(start, reset, active, pct);
    forall l, v | l in scanner.fields && IsStart(l, now, v) ensures start.Some? && start.value <= v {
      assert v in starts;
    }
    forall l, v | l in scanner.fields && IsReset(l, now, v) ensures reset.Some? && reset.value <= v {
      assert v in resets;
    }
  }

  // A payload with no reset, no percentage and no active window reports no credits.
  predicate Reports(w: Window) {
    w.reset.Some? || w.pct.Some? || w.active
  }

  /** ParseGrokCreditsResponse: the window of the concatenated data frames, None when it reports nothing. */
  method ParseResponse(percent: Percent, data: seq<byte>, now: Time) returns (r: Option<Window>)
    ensures exists w :: Stands(percent, P.Scan(G.Concat(G.Unframe(data))), now, w)
                        && r == if w.reset.None? && w.pct.None? && !w.active then None else Some(w)
  {
    var payloads := G.UnframeGRPCWeb(data);
    var message := Joined(payloads);
    var w := ParseGrokCredits(percent, message, now);
    r := if Reports(w) then Some(w) else None;
  }

  method Joined(payloads: seq<seq<byte>>) returns (message: seq<byte>)
    ensures message == G.Concat(payloads)
  {
    message := [];
    var i := 0;
    while i < |payloads|
      invariant 0 <= i <= |payloads| && message + G.Concat(payloads[i..]) == G.Concat(payloads)
    {
      assert payloads[i..][1..] == payloads[i + 1..];
      AppendAssoc(message, payloads[i], G.Concat(payloads[i + 1..]));
      message := message + payloads[i];
      i := i + 1;
    }
    assert payloads[i..] == [];
  }

  /** However an encoded message tree is framed, the window read off the response is the one its leaves stand for. */
  lemma {:induction false} ResponseStandsForTree(percent: Percent, frames: seq<G.Frame>, tail: seq<byte>, tree: seq<P.Field>, now: Time, w: Window)
    requires (forall f :: f in frames ==> G.Sendable(f)) && G.Cut(tail)
    requires forall t :: t in tree ==> P.WellFormed(t)
    requires G.Concat(G.DataPayloads(frames)) == P.EncodeAll(tree)
    ensures Stands(percent, P.Scan(G.Concat(G.Unframe(G.EncodeAll(frames) + tail))), now, w)
       <==> Stands(percent, P.LeavesOf(tree, [], 0), now, w)
  {
    G.FramingDoesNotMatter(frames, tail, tree);
  }
}
