/** How long a circuit of the state manager stays open and what ends it (pkg/state/state.go), over the committed operations of
    any interleaving. */
module OpenCircuit {
  import opened Common
  import opened State
  import opened SnapshotHeap
  import opened UpdateProtocol
  import opened FailureStreak

  /** The operation, applied to s, opens the circuit of id at reading t (or opens it again). */
  predicate OpensAt(cfg: Config, s: Snapshot, op: Op, id: string, t: Time) {
    match op
    case Exhaust(i, now, _) => i == id && now == t
    case Trip(i, now, _) => i == id && now == t
    case Sync(i, circuit, _, now) => i == id && id in s.providers && circuit == Open && now == t
    case RecordFailure(i, now, _) =>
      && i == id && id in s.providers && now == t
      && (s.providers[id].circuit == HalfOpen
          || (s.providers[id].circuit == Closed && s.providers[id].failures + 1 >= cfg.failureThreshold))
    case _ => false
  }

  /** The operation, applied to s, closes the circuit of id: a recovery, or a success from HalfOpen. */
  predicate Closes(s: Snapshot, op: Op, id: string) {
    && (op.RecoverCircuit? || (op.RecordSuccess? && op.id in s.providers && s.providers[op.id].circuit == HalfOpen))
    && op.id == id && id in s.providers
  }

  // The operation writes the circuit of id whatever it was.
  predicate Rewrites(op: Op, id: string) {
    (op.SetProvider? || op.RecoverCircuit? || op.Sync? || op.Exhaust? || op.Trip?) && op.id == id
  }

  predicate ProbeOf(op: Op, id: string) {
    op.AllowProbe? && op.id == id
  }

  predicate Disabled(s: Snapshot, id: string) {
    id in s.providers && s.providers[id].admin == AdminDisabled
  }

  // The circuit of id is open since reading t.
  predicate OpenSince(s: Snapshot, id: string, t: Time) {
    id in s.providers && s.providers[id].circuit == Open && s.providers[id].openedAt == t
  }

  // ---------------------------------------------------------------- single operations

  lemma {:induction false} OpenNow(cfg: Config, s: Snapshot, op: Op, id: string, t: Time)
    requires OpensAt(cfg, s, op, id, t)
    ensures OpenSince(Publish(cfg, op, s), id, t)
  {
  }

  lemma {:induction false} StillOpen(cfg: Config, s: Snapshot, op: Op, id: string, t: Time)
    requires OpenSince(s, id, t) && !Rewrites(op, id)
    requires ProbeOf(op, id) ==> Disabled(s, id) || op.now < t + cfg.openDuration
    ensures OpenSince(Publish(cfg, op, s), id, t)
  {
  }

  lemma {:induction false} OpenAnswer(cfg: Config, s: Snapshot, op: Op, id: string, t: Time, allowed: bool)
    requires OpenSince(s, id, t) && ProbeOf(op, id) && Computed(cfg, op, s, allowed)
    ensures allowed <==> !Disabled(s, id) && op.now >= t + cfg.openDuration
    ensures allowed ==> UpdateProtocol.Held(Publish(cfg, op, s), id)
  {
  }

  // ---------------------------------------------------------------- runs

  // No operation from lo up to hi writes the circuit of id.
  ghost predicate NoneRewrites(commits: seq<Commit>, lo: nat, hi: nat, id: string) {
    forall m :: lo <= m < hi && m < |commits| ==> !Rewrites(commits[m].op, id)
  }

  ghost predicate NoneReleases(commits: seq<Commit>, lo: nat, hi: nat, id: string) {
    forall m :: lo <= m < hi && m < |commits| ==> !Releases(commits[m].op, id)
  }

  // Every probe of id from lo up to hi was made before reading `until`, or of a disabled provider.
  ghost predicate ProbedTooEarly(cfg: Config, init: Snapshot, commits: seq<Commit>, lo: nat, hi: nat, id: string, until: Time) {
    forall m :: lo <= m < hi && m < |commits| ==> EarlyAt(cfg, init, commits, m, id, until)
  }

  predicate EarlyAt(cfg: Config, init: Snapshot, commits: seq<Commit>, m: nat, id: string, until: Time)
    requires m < |commits|
  {
    ProbeOf(commits[m].op, id) ==> commits[m].op.now < until || Disabled(Before(cfg, init, commits, m), id)
  }

  lemma {:induction false} StaysOpen(cfg: Config, init: Snapshot, commits: seq<Commit>, k: nat, j: nat, id: string, t: Time)
    requires k < j <= |commits| && OpensAt(cfg, Before(cfg, init, commits, k), commits[k].op, id, t)
    requires NoneRewrites(commits, k + 1, j, id) && ProbedTooEarly(cfg, init, commits, k + 1, j, id, t + cfg.openDuration)
    ensures OpenSince(Before(cfg, init, commits, j), id, t)
    decreases j
  {
    FoldNext(cfg, init, commits, j - 1);
    if j == k + 1 {
      OpenNow(cfg, Before(cfg, init, commits, k), commits[k].op, id, t);
    } else {
      StaysOpen(cfg, init, commits, k, j - 1, id, t);
      assert EarlyAt(cfg, init, commits, j - 1, id, t + cfg.openDuration);
      StillOpen(cfg, Before(cfg, init, commits, j - 1), commits[j - 1].op, id, t);
    }
  }

  lemma {:induction false} TimedAnswer(cfg: Config, init: Snapshot, commits: seq<Commit>, k: nat, j: nat, id: string, t: Time)
    requires AnswersComputed(cfg, init, commits) && k < j < |commits| && ProbeOf(commits[j].op, id)
    requires OpensAt(cfg, Before(cfg, init, commits, k), commits[k].op, id, t)
    requires NoneRewrites(commits, k + 1, j, id) && ProbedTooEarly(cfg, init, commits, k + 1, j, id, t + cfg.openDuration)
    ensures commits[j].allowed <==> !Disabled(Before(cfg, init, commits, j), id) && commits[j].op.now >= t + cfg.openDuration
    ensures commits[j].allowed ==> UpdateProtocol.Held(Before(cfg, init, commits, j + 1), id)
  {
    StaysOpen(cfg, init, commits, k, j, id, t);
    assert Computed(cfg, commits[j].op, Before(cfg, init, commits, j), commits[j].allowed);
    OpenAnswer(cfg, Before(cfg, init, commits, j), commits[j].op, id, t, commits[j].allowed);
    FoldNext(cfg, init, commits, j);
  }

  // Until a report the circuit stays open, or a granted probe is in flight.
  lemma {:induction false} OpenOrHeld(cfg: Config, init: Snapshot, commits: seq<Commit>, k: nat, j: nat, id: string, t: Time)
    requires k < j <= |commits| && OpensAt(cfg, Before(cfg, init, commits, k), commits[k].op, id, t)
    requires NoneReleases(commits, k + 1, j, id)
    ensures var s := Before(cfg, init, commits, j); OpenSince(s, id, t) || UpdateProtocol.Held(s, id)
    decreases j
  {
    FoldNext(cfg, init, commits, j - 1);
    if j == k + 1 {
      OpenNow(cfg, Before(cfg, init, commits, k), commits[k].op, id, t);
    } else {
      OpenOrHeld(cfg, init, commits, k, j - 1, id, t);
      OpenOrHeldNext(cfg, Before(cfg, init, commits, j - 1), commits[j - 1].op, id, t);
    }
  }

  lemma {:induction false} OpenOrHeldNext(cfg: Config, s: Snapshot, op: Op, id: string, t: Time)
    requires (OpenSince(s, id, t) || UpdateProtocol.Held(s, id)) && !Releases(op, id)
    ensures OpenSince(Publish(cfg, op, s), id, t) || UpdateProtocol.Held(Publish(cfg, op, s), id)
  {
  }

  lemma {:induction false} EarlyAnswer(cfg: Config, s: Snapshot, op: Op, id: string, t: Time, allowed: bool)
    requires (OpenSince(s, id, t) || UpdateProtocol.Held(s, id)) && ProbeOf(op, id) && Computed(cfg, op, s, allowed)
    requires op.now < t + cfg.openDuration
    ensures !allowed
  {
  }

  lemma {:induction false} EarlyIsRefused(cfg: Config, init: Snapshot, commits: seq<Commit>, k: nat, j: nat, id: string, t: Time)
    requires AnswersComputed(cfg, init, commits) && k < j < |commits| && ProbeOf(commits[j].op, id)
    requires OpensAt(cfg, Before(cfg, init, commits, k), commits[k].op, id, t)
    requires NoneReleases(commits, k + 1, j, id) && commits[j].op.now < t + cfg.openDuration
    ensures !commits[j].allowed
  {
    OpenOrHeld(cfg, init, commits, k, j, id, t);
    assert Computed(cfg, commits[j].op, Before(cfg, init, commits, j), commits[j].allowed);
    EarlyAnswer(cfg, Before(cfg, init, commits, j), commits[j].op, id, t, commits[j].allowed);
  }

  /** In every interleaving, after a commit that opens the circuit at reading t:
      - with no recovery, trip or explicit write after it (reports do not matter), the probes made before t + openDuration are
        refused, and so are those of a disabled provider; the first other one is granted, and leaves HalfOpen with the probe in
        flight;
      - with no report either, a probe made before t + openDuration is refused even if it is committed after that one. */
  lemma {:induction false} OpenUntil(cfg: Config, init: Snapshot, threads: nat, s: Sys, id: string, k: nat, j: nat, t: Time)
    requires Reached(cfg, init, threads, s) && k < j < |s.commits| && ProbeOf(s.commits[j].op, id)
    requires OpensAt(cfg, Before(cfg, init, s.commits, k), s.commits[k].op, id, t)
    ensures NoneRewrites(s.commits, k + 1, j, id) && ProbedTooEarly(cfg, init, s.commits, k + 1, j, id, t + cfg.openDuration) ==>
      && (s.commits[j].allowed
          <==> !Disabled(Before(cfg, init, s.commits, j), id) && s.commits[j].op.now >= t + cfg.openDuration)
      && (s.commits[j].allowed ==> UpdateProtocol.Held(Before(cfg, init, s.commits, j + 1), id))
    ensures NoneReleases(s.commits, k + 1, j, id) && s.commits[j].op.now < t + cfg.openDuration ==> !s.commits[j].allowed
  {
    ReachedInv(cfg, init, threads, s);
    RunAnswers(s, init);
    if NoneRewrites(s.commits, k + 1, j, id) && ProbedTooEarly(cfg, init, s.commits, k + 1, j, id, t + cfg.openDuration) {
      TimedAnswer(cfg, init, s.commits, k, j, id, t);
    }
    if NoneReleases(s.commits, k + 1, j, id) && s.commits[j].op.now < t + cfg.openDuration {
      EarlyIsRefused(cfg, init, s.commits, k, j, id, t);
    }
  }

  // ---------------------------------------------------------------- what ends a probe, and a closed circuit

  predicate ClosedIn(s: Snapshot, id: string) {
    id in s.providers && s.providers[id].circuit == Closed
  }

  // The operation can open the circuit of id, or writes it.
  predicate MayOpen(op: Op, id: string) {
    (op.SetProvider? || op.RecordFailure? || op.Sync? || op.Exhaust? || op.Trip?) && op.id == id
  }

  lemma {:induction false} StillClosed(cfg: Config, s: Snapshot, op: Op, id: string)
    requires ClosedIn(s, id) && !MayOpen(op, id)
    ensures ClosedIn(Publish(cfg, op, s), id)
  {
  }

  lemma {:induction false} ClosedNow(cfg: Config, s: Snapshot, op: Op, id: string)
    requires Closes(s, op, id)
    ensures Registered(Publish(cfg, op, s), id) && !Publish(cfg, op, s).providers[id].probeInFlight
  {
  }

  lemma {:induction false} StaysClosed(cfg: Config, init: Snapshot, commits: seq<Commit>, lo: nat, hi: nat, id: string)
    requires lo <= hi <= |commits| && ClosedIn(Before(cfg, init, commits, lo), id)
    requires forall m :: lo <= m < hi ==> !MayOpen(commits[m].op, id)
    ensures ClosedIn(Before(cfg, init, commits, hi), id)
    decreases hi
  {
    if lo < hi {
      StaysClosed(cfg, init, commits, lo, hi - 1, id);
      FoldNext(cfg, init, commits, hi - 1);
      StillClosed(cfg, Before(cfg, init, commits, hi - 1), commits[hi - 1].op, id);
    }
  }

  lemma {:induction false} ClosedAnswer(cfg: Config, s: Snapshot, op: Op, id: string, allowed: bool)
    requires ClosedIn(s, id) && ProbeOf(op, id) && Computed(cfg, op, s, allowed)
    ensures allowed <==> !Disabled(s, id)
  {
  }

  /** After a recovery or a successful probe every probe of an enabled provider is granted, at any reading, until a failure,
      a trip or an explicit write. */
  lemma {:induction false} ClosedGrants(cfg: Config, init: Snapshot, threads: nat, s: Sys, id: string, k: nat, j: nat)
    requires Reached(cfg, init, threads, s) && k < j < |s.commits| && ProbeOf(s.commits[j].op, id)
    requires Closes(Before(cfg, init, s.commits, k), s.commits[k].op, id)
    requires forall m :: k < m < j ==> !MayOpen(s.commits[m].op, id)
    ensures s.commits[j].allowed <==> !Disabled(Before(cfg, init, s.commits, j), id)
  {
    ReachedInv(cfg, init, threads, s);
    RunAnswers(s, init);
    FoldNext(cfg, init, s.commits, k);
    ClosedNow(cfg, Before(cfg, init, s.commits, k), s.commits[k].op, id);
    StaysClosed(cfg, init, s.commits, k + 1, j, id);
    assert Computed(cfg, s.commits[j].op, Before(cfg, init, s.commits, j), s.commits[j].allowed);
    ClosedAnswer(cfg, Before(cfg, init, s.commits, j), s.commits[j].op, id, s.commits[j].allowed);
  }

  /** The first report after a granted probe decides: a success closes the circuit, and a failure opens it again from its own
      reading on. */
  lemma {:induction false} FirstReportDecides(cfg: Config, init: Snapshot, threads: nat, s: Sys, id: string, k: nat, j: nat)
    requires Reached(cfg, init, threads, s) && k < j < |s.commits| && UpdateProtocol.Granted(cfg, init, s.commits, k, id)
    requires forall m :: k < m < j ==> !Releases(s.commits[m].op, id)
    ensures s.commits[j].op.RecordSuccess? && s.commits[j].op.id == id ==>
              Closes(Before(cfg, init, s.commits, j), s.commits[j].op, id)
              && Registered(Before(cfg, init, s.commits, j + 1), id)
    ensures s.commits[j].op.RecordFailure? && s.commits[j].op.id == id ==>
              OpensAt(cfg, Before(cfg, init, s.commits, j), s.commits[j].op, id, s.commits[j].op.now)
  {
    ReachedInv(cfg, init, threads, s);
    RunAnswers(s, init);
    UpdateProtocol.GrantHolds(cfg, init, s.commits, k, id);
    UpdateProtocol.HeldStays(cfg, init, s.commits, k + 1, j, id);
    FoldNext(cfg, init, s.commits, j);
    var before, op := Before(cfg, init, s.commits, j), s.commits[j].op;
    if Closes(before, op, id) {
      ClosedNow(cfg, before, op, id);
    }
  }

  // ---------------------------------------------------------------- counting starts again

  /** After a recovery or a successful probe the failures are counted from zero again: if only reports follow, the published
      circuit has tripped exactly when the failures since then once came `failureThreshold` in a row. */
  lemma {:induction false} TripsAgainIff(cfg: Config, init: Snapshot, threads: nat, s: Sys, id: string, k: nat)
    requires Reached(cfg, init, threads, s) && cfg.failureThreshold >= 1 && k < |s.commits|
    requires Closes(Before(cfg, init, s.commits, k), s.commits[k].op, id)
    requires forall m :: k < m < |s.commits| ==> IsReport(s.commits[m].op)
    ensures s.current < |s.heap.cells| && id in View(s.heap, s.current).providers
    ensures View(s.heap, s.current).providers[id].circuit == Open <==> HadStreak(s.commits[k + 1..], id, cfg.failureThreshold)
  {
    ReachedIsFold(cfg, init, threads, s);
    FoldNext(cfg, init, s.commits, k);
    ClosedNow(cfg, Before(cfg, init, s.commits, k), s.commits[k].op, id);
    CountSince(cfg, init, s.commits, k + 1, |s.commits|, id);
    assert s.commits[..|s.commits|] == s.commits && s.commits[k + 1..|s.commits|] == s.commits[k + 1..];
  }
}
