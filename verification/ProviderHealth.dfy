/** What the published snapshot says of a provider besides its circuit: quota, health, admin state, last error (pkg/state/state.go,
    pkg/quota/breaker.go), over the committed operations of any interleaving. */
module ProviderHealth {
  import opened Common
  import opened State
  import opened SnapshotHeap
  import opened UpdateProtocol
  import opened OpenCircuit

  // ---------------------------------------------------------------- what is written as it is

  // The fields that an operation writes without looking at the circuit, None for those it leaves alone.
  datatype Fields = Fields(quota: Option<Quota>, admin: Option<Admin>, error: Option<string>, attempt: Option<Time>,
                           success: Option<Time>, validUntil: Option<Time>)

  const NO_FIELDS := Fields(None, None, None, None, None, None)

  // What the operation writes of provider id.
  function Writes(op: Op, id: string): Fields {
    match op
    case SetProvider(i, p) =>
      if i != id then NO_FIELDS
      else Fields(Some(p.quota), Some(p.admin), Some(p.error), Some(p.lastAttempt), Some(p.lastSuccess), Some(p.validUntil))
    case SetAdminState(i, a) => if i == id then NO_FIELDS.(admin := Some(a)) else NO_FIELDS
    case RecordSuccess(i, now) =>
      if i == id then NO_FIELDS.(error := Some(""), attempt := Some(now), success := Some(now)) else NO_FIELDS
    case RecordFailure(i, now, err) => if i == id then NO_FIELDS.(error := err, attempt := Some(now)) else NO_FIELDS
    case ResetQuota(i, _) => if i == id then NO_FIELDS.(quota := Some(QuotaHealthy)) else NO_FIELDS
    case Exhaust(i, _, message) => if i == id then NO_FIELDS.(quota := Some(QuotaExhausted), error := Some(message)) else NO_FIELDS
    case QuotaWindow(i, _, retryAt, message) =>
      if i == id then NO_FIELDS.(quota := Some(QuotaExhausted), error := Some(message), validUntil := retryAt) else NO_FIELDS
    case Trip(i, _, message) => if i == id then NO_FIELDS.(error := Some(message)) else NO_FIELDS
    case _ => NO_FIELDS
  }

  function OrElse<T>(a: Option<T>, b: T): T {
    if a.Some? then a.value else b
  }

  function Overwrite(p: Provider, f: Fields): Provider {
    p.(quota := OrElse(f.quota, p.quota), admin := OrElse(f.admin, p.admin), error := OrElse(f.error, p.error),
       lastAttempt := OrElse(f.attempt, p.lastAttempt), lastSuccess := OrElse(f.success, p.lastSuccess),
       validUntil := OrElse(f.validUntil, p.validUntil))
  }

  // The provider's entry with everything these commits wrote to those fields, the last write of each counting.
  function Written(p: Provider, commits: seq<Commit>, id: string): Provider {
    if commits == [] then p else Overwrite(Written(p, DropLast(commits), id), Writes(Last(commits).op, id))
  }

  // Equal in those fields.
  predicate SameFields(p: Provider, q: Provider) {
    && p.quota == q.quota && p.admin == q.admin && p.error == q.error
    && p.lastAttempt == q.lastAttempt && p.lastSuccess == q.lastSuccess && p.validUntil == q.validUntil
  }

  lemma {:induction false} PublishWrites(cfg: Config, op: Op, s: Snapshot, id: string)
    requires id in s.providers
    ensures var s' := Publish(cfg, op, s);
      id in s'.providers && SameFields(s'.providers[id], Overwrite(s.providers[id], Writes(op, id)))
  {
    if !op.OnModels() && op.id == id {
      TouchWrites(cfg, op, s.providers[id]);
    } else {
      OthersUntouched(cfg, op, s, id);
    }
  }

  lemma {:induction false} TouchWrites(cfg: Config, op: Op, p: Provider)
    requires !op.OnModels()
    ensures SameFields(Touch(cfg, op, p), Overwrite(p, Writes(op, op.id)))
  {
  }

  lemma {:induction false} OthersUntouched(cfg: Config, op: Op, s: Snapshot, id: string)
    requires id in s.providers && (op.OnModels() || op.id != id)
    ensures var s' := Publish(cfg, op, s);
      id in s'.providers && s'.providers[id] == s.providers[id] && Writes(op, id) == NO_FIELDS
  {
  }

  lemma {:induction false} FoldWrites(cfg: Config, init: Snapshot, commits: seq<Commit>, id: string)
    requires id in init.providers
    ensures var s := Fold(cfg, init, commits);
      id in s.providers && SameFields(s.providers[id], Written(init.providers[id], commits, id))
    decreases |commits|
  {
    if commits != [] {
      FoldWrites(cfg, init, DropLast(commits), id);
      PublishWrites(cfg, Last(commits).op, Fold(cfg, init, DropLast(commits)), id);
    }
  }

  /** In every interleaving a registered provider stays registered, and its quota and admin state, its last error, the times of its
      last attempt and success and the end of its quota window are what the commits wrote last: a limit exhausts the quota and
      a reset restores it, only explicit writes change the admin state, and a success clears the error. */
  lemma {:induction false} FieldsAreLastWritten(cfg: Config, init: Snapshot, threads: nat, s: Sys, id: string)
    requires Reached(cfg, init, threads, s) && id in init.providers
    ensures s.current < |s.heap.cells| && id in View(s.heap, s.current).providers
    ensures SameFields(View(s.heap, s.current).providers[id], Written(init.providers[id], s.commits, id))
  {
    ReachedIsFold(cfg, init, threads, s);
    FoldWrites(cfg, init, s.commits, id);
  }

  // ---------------------------------------------------------------- health

  // The operation writes the provider's health, or may do so.
  predicate TouchesHealth(op: Op, id: string) {
    && (op.SetProvider? || op.RecordSuccess? || op.RecordFailure? || op.RecoverCircuit? || op.Exhaust? || op.Trip?)
    && op.id == id
  }

  // What an operation does to the health of a registered provider.
  predicate HealthIs(cfg: Config, s: Snapshot, op: Op, id: string, after: Health)
    requires id in s.providers
  {
    var p := s.providers[id];
    match op
    case SetProvider(i, q) => i == id ==> after == q.health
    case RecordSuccess(i, _) =>
      i == id ==> after == if p.health == Unavailable || p.health == Degraded then Healthy else p.health
    case RecordFailure(i, now, _) =>
      i == id ==>
        after == if p.circuit == HalfOpen then Unavailable
                 else if OpensAt(cfg, s, op, id, now) then Degraded
                 else p.health
    case RecoverCircuit(i, _) => i == id ==> after == if p.health == Unavailable then Healthy else p.health
    case Exhaust(i, _, _) => i == id ==> after == Unavailable
    case Trip(i, _, _) => i == id ==> after == Degraded
    case _ => true
  }

  lemma {:induction false} PublishHealth(cfg: Config, op: Op, s: Snapshot, id: string)
    requires id in s.providers
    ensures var s' := Publish(cfg, op, s);
      && id in s'.providers && HealthIs(cfg, s, op, id, s'.providers[id].health)
      && (!TouchesHealth(op, id) ==> s'.providers[id].health == s.providers[id].health)
  {
  }

  lemma {:induction false} HealthKept(cfg: Config, init: Snapshot, commits: seq<Commit>, lo: nat, hi: nat, id: string)
    requires lo <= hi <= |commits| && id in Before(cfg, init, commits, lo).providers
    requires forall m :: lo <= m < hi ==> !TouchesHealth(commits[m].op, id)
    ensures id in Before(cfg, init, commits, hi).providers
    ensures Before(cfg, init, commits, hi).providers[id].health == Before(cfg, init, commits, lo).providers[id].health
    decreases hi
  {
    if lo < hi {
      HealthKept(cfg, init, commits, lo, hi - 1, id);
      FoldNext(cfg, init, commits, hi - 1);
      PublishHealth(cfg, commits[hi - 1].op, Before(cfg, init, commits, hi - 1), id);
    }
  }

  /** In every interleaving the published health is the one that the last report, recovery, limit, trip or explicit write left:
      unavailable after a failed probe or an exhausted quota, degraded after too many failures or a trip, and healthy again
      after a success (or, if it was unavailable, a recovery). */
  lemma {:induction false} HealthIsLast(cfg: Config, init: Snapshot, threads: nat, s: Sys, id: string, k: nat)
    requires Reached(cfg, init, threads, s) && k < |s.commits| && id in Before(cfg, init, s.commits, k).providers
    requires forall m :: k < m < |s.commits| ==> !TouchesHealth(s.commits[m].op, id)
    ensures s.current < |s.heap.cells| && id in View(s.heap, s.current).providers
    ensures HealthIs(cfg, Before(cfg, init, s.commits, k), s.commits[k].op, id, View(s.heap, s.current).providers[id].health)
  {
    ReachedIsFold(cfg, init, threads, s);
    FoldNext(cfg, init, s.commits, k);
    PublishHealth(cfg, s.commits[k].op, Before(cfg, init, s.commits, k), id);
    HealthKept(cfg, init, s.commits, k + 1, |s.commits|, id);
    assert s.commits[..|s.commits|] == s.commits;
  }
}
