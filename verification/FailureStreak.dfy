/** When the manager's circuit trips (pkg/state/state.go): in any interleaving of success and failure reports, exactly
    when some provider's failures come `failureThreshold` in a row. */
module FailureStreak {
  import opened Common
  import opened State
  import opened SnapshotHeap
  import opened UpdateProtocol

  predicate IsReport(op: Op) {
    op.RecordSuccess? || op.RecordFailure?
  }

  // The failures of id committed since its last success.
  function Streak(commits: seq<Commit>, id: string): nat {
    if commits == [] then 0
    else
      var op := Last(commits).op;
      if op.RecordSuccess? && op.id == id then 0
      else Streak(DropLast(commits), id) + if op.RecordFailure? && op.id == id then 1 else 0
  }

  /** At some point the streak has reached n. */
  ghost predicate HadStreak(commits: seq<Commit>, id: string, n: int) {
    exists k :: 0 <= k <= |commits| && Streak(commits[..k], id) >= n
  }

  lemma {:induction false} ReachedLast(commits: seq<Commit>, id: string, n: int)
    requires commits != []
    ensures HadStreak(commits, id, n) <==> HadStreak(DropLast(commits), id, n) || Streak(commits, id) >= n
  {
    var front := DropLast(commits);
    assert forall k :: 0 <= k <= |front| ==> front[..k] == commits[..k];
    assert commits[..|commits|] == commits;
  }

  // A registered provider whose circuit is closed, with no failures counted.
  predicate Registered(s: Snapshot, id: string) {
    id in s.providers && s.providers[id].circuit == Closed && s.providers[id].failures == 0
  }

  lemma {:induction false} ReportTrips(cfg: Config, s: Snapshot, op: Op, id: string)
    requires IsReport(op) && id in s.providers && (s.providers[id].circuit == Closed || s.providers[id].circuit == Open)
    ensures var p := s.providers[id]; var q := Publish(cfg, op, s);
      && id in q.providers
      && q.providers[id].failures == (if op.id != id then p.failures else if op.RecordSuccess? then 0 else p.failures + 1)
      && q.providers[id].circuit == (if op.id == id && op.RecordFailure? && p.failures + 1 >= cfg.failureThreshold then Open
                                     else p.circuit)
  {
  }

  // The failures of id in the commits since a closed circuit are counted, and have tripped it once there were enough in a row.
  ghost predicate CountedSince(cfg: Config, s: Snapshot, since: seq<Commit>, id: string) {
    && id in s.providers && s.providers[id].failures == Streak(since, id)
    && (s.providers[id].circuit == Closed || s.providers[id].circuit == Open)
    && (s.providers[id].circuit == Open <==> HadStreak(since, id, cfg.failureThreshold))
  }

  lemma {:induction false} CountNext(cfg: Config, s: Snapshot, since: seq<Commit>, id: string)
    requires since != [] && CountedSince(cfg, s, DropLast(since), id) && IsReport(Last(since).op) && cfg.failureThreshold >= 1
    ensures CountedSince(cfg, Publish(cfg, Last(since).op, s), since, id)
  {
    var front := DropLast(since);
    assert front[..|front|] == front;
    ReachedLast(since, id, cfg.failureThreshold);
    ReportTrips(cfg, s, Last(since).op, id);
  }

  lemma {:induction false} CountSince(cfg: Config, init: Snapshot, commits: seq<Commit>, lo: nat, hi: nat, id: string)
    requires lo <= hi <= |commits| && Registered(Before(cfg, init, commits, lo), id) && cfg.failureThreshold >= 1
    requires forall m :: lo <= m < hi ==> IsReport(commits[m].op)
    ensures CountedSince(cfg, Before(cfg, init, commits, hi), commits[lo..hi], id)
    decreases hi
  {
    var since := commits[lo..hi];
    if lo == hi {
      assert since[..0] == [];
    } else {
      CountSince(cfg, init, commits, lo, hi - 1, id);
      assert DropLast(since) == commits[lo..hi - 1] && Last(since) == commits[hi - 1];
      CountBefore(cfg, init, commits, hi - 1, since, id);
    }
  }

  lemma {:induction false} CountBefore(cfg: Config, init: Snapshot, commits: seq<Commit>, k: nat, since: seq<Commit>, id: string)
    requires k < |commits| && since != [] && Last(since) == commits[k] && IsReport(commits[k].op) && cfg.failureThreshold >= 1
    requires CountedSince(cfg, Before(cfg, init, commits, k), DropLast(since), id)
    ensures CountedSince(cfg, Before(cfg, init, commits, k + 1), since, id)
  {
    FoldNext(cfg, init, commits, k);
    CountNext(cfg, Before(cfg, init, commits, k), since, id);
  }

  /** However the reports of any number of threads interleave, the published circuit has tripped exactly when the
      committed failures of the provider once came `failureThreshold` in a row. */
  lemma {:induction false} TripsIff(cfg: Config, init: Snapshot, threads: nat, s: Sys, id: string)
    requires Reached(cfg, init, threads, s) && init.version < TWO64
    requires Registered(init, id) && cfg.failureThreshold >= 1
    requires forall k :: 0 <= k < |s.commits| ==> IsReport(s.commits[k].op)
    ensures s.current < |s.heap.cells| && id in View(s.heap, s.current).providers
    ensures View(s.heap, s.current).providers[id].circuit == Open <==> HadStreak(s.commits, id, cfg.failureThreshold)
    ensures View(s.heap, s.current).providers[id].failures == Streak(s.commits, id)
  {
    PublishedIsFold(cfg, init, threads, s);
    CountSince(cfg, init, s.commits, 0, |s.commits|, id);
    assert s.commits[..|s.commits|] == s.commits && s.commits[0..|s.commits|] == s.commits && s.commits[..0] == [];
  }
}
