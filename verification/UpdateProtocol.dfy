/** StateManager.Update as a concurrent protocol (pkg/state/state.go:85-95).  Any number of threads each run
    load / clone / mutate the clone / stamp its version / compare-and-swap / retry, interleaved step by step over a shared
    heap.  Cloning takes a step for the struct, one for the providers and one for each model, in any order. */
module UpdateProtocol {
  import opened Common
  import opened State
  import opened SnapshotHeap

  // Where a thread is in Update; `allowed` is the variable AllowProbe's closure captures across retries.
  datatype Thread =
    | Idle
    | Retry(op: Op, allowed: bool)
    | Loaded(op: Op, allowed: bool, cur: nat)
    | Allocated(op: Op, allowed: bool, cur: nat, mine: nat)
    | Copying(op: Op, allowed: bool, cur: nat, mine: nat)
    | Cloned(op: Op, allowed: bool, cur: nat, mine: nat)
    | Mutated(op: Op, allowed: bool, cur: nat, mine: nat)
    | Stamped(op: Op, allowed: bool, cur: nat, mine: nat)
    | Returned(op: Op, allowed: bool, commit: nat)
  {
    predicate OwnsCell() {
      Allocated? || Copying? || Cloned? || Mutated? || Stamped?
    }
  }

  datatype Commit = Commit(op: Op, allowed: bool)

  /** heap and current (a snapshot cell) are the program's state; published (the cell of each published snapshot) and
      commits (what each successful swap committed) record its history. */
  datatype Sys = Sys(cfg: Config, heap: Heap, current: nat, threads: seq<Thread>, published: seq<nat>, commits: seq<Commit>)

  // CopyOne is one turn of Clone's loop over the models; Supply gives the catalog a new score map.
  datatype Step = Begin(t: nat, op: Op) | Advance(t: nat) | CopyOne(t: nat, model: string) | Supply(entries: Scores)

  ghost predicate Start(cfg: Config, init: Snapshot, threads: nat, s: Sys) {
    && s.cfg == cfg && |s.heap.cells| == 1 && WellOwned(s.heap) && View(s.heap, 0) == init && BorrowsNothing(s.heap, 0)
    && s.current == 0 && s.threads == seq(threads, _ => Idle) && s.published == [0] && s.commits == []
  }

  // One atomic step of one thread; steps that are not enabled change nothing.
  ghost function Exec(s: Sys, step: Step): Sys {
    if step.Supply? then s.(heap := Extended(s.heap, step.entries))
    else if step.t >= |s.threads| then s
    else
      var th := s.threads[step.t];
      match step
      case Begin(t, op) =>
        if (th.Idle? || th.Returned?) && Supplied(s.heap.catalog, op) then s.(threads := s.threads[t := Retry(op, false)]) else s
      case Advance(t) => if th.OwnsCell() && !Owned(s.heap, th.mine) then s else Move(s, t, th)
      case CopyOne(t, k) =>
        if th.Copying? && Owned(s.heap, th.mine) && k in Rows(s.heap, th.cur) && k !in Rows(s.heap, th.mine) then
          s.(heap := CopyModel(s.heap, th.cur, th.mine, k))
        else s
  }

  ghost function Move(s: Sys, t: nat, th: Thread): Sys
    requires t < |s.threads| && (th.OwnsCell() ==> Owned(s.heap, th.mine))
  {
    match th
    case Retry(op, a) => s.(threads := s.threads[t := Loaded(op, a, s.current)])
    case Loaded(op, a, cur) =>
      s.(heap := Allocate(s.heap, cur), threads := s.threads[t := Allocated(op, a, cur, |s.heap.cells|)])
    case Allocated(op, a, cur, mine) =>
      s.(heap := CopyProviders(s.heap, cur, mine), threads := s.threads[t := Copying(op, a, cur, mine)])
    case Copying(op, a, cur, mine) =>
      if Rows(s.heap, cur).Keys <= Rows(s.heap, mine).Keys then s.(threads := s.threads[t := Cloned(op, a, cur, mine)]) else s
    case Cloned(op, a, cur, mine) =>
      s.(heap := Write(s.cfg, op, s.heap, mine),
         threads := s.threads[t := Mutated(op, AnswerOf(s.cfg, op, View(s.heap, mine), a), cur, mine)])
    case Mutated(op, a, cur, mine) =>
      s.(heap := Stamp(s.heap, mine, NextVersion(View(s.heap, cur).version)), threads := s.threads[t := Stamped(op, a, cur, mine)])
    case Stamped(op, a, cur, mine) =>
      if s.current == cur then Swapped(s, t, th) else s.(threads := s.threads[t := Retry(op, a)])
    case Idle => s
    case Returned(_, _, _) => s
  }

  ghost function Swapped(s: Sys, t: nat, th: Thread): Sys
    requires t < |s.threads| && th.Stamped?
  {
    s.(current := th.mine, threads := s.threads[t := Returned(th.op, th.allowed, |s.commits|)],
       published := s.published + [th.mine], commits := s.commits + [Commit(th.op, th.allowed)])
  }

  ghost function Run(s: Sys, steps: seq<Step>): Sys {
    if steps == [] then s else Exec(Run(s, DropLast(steps)), Last(steps))
  }

  // The committed functions folded over the initial snapshot.
  function Fold(cfg: Config, s: Snapshot, commits: seq<Commit>): Snapshot {
    if commits == [] then s else Publish(cfg, Last(commits).op, Fold(cfg, s, DropLast(commits)))
  }

  // ---------------------------------------------------------------- the invariant

  ghost predicate HistoryOk(s: Sys) {
    && |s.published| == |s.commits| + 1
    && s.current == Last(s.published)
    && (forall k :: 0 <= k < |s.published| ==> s.published[k] < |s.heap.cells|)
    && (forall j, k :: 0 <= j < k < |s.published| ==> s.published[j] != s.published[k])
  }

  // Each published cell shows the fold of the commits before it.
  ghost predicate CellsOk(s: Sys, init: Snapshot)
    requires HistoryOk(s)
  {
    forall k :: 0 <= k < |s.published| ==> View(s.heap, s.published[k]) == Fold(s.cfg, init, s.commits[..k])
  }

  // The answer a probe's closure gives on the snapshot does not depend on what `allowed` was before.
  predicate Determined(op: Op, s: Snapshot) {
    op.AllowProbe? ==>
      var p := Lookup(s, op.id);
      p.None? || p.value.admin == AdminDisabled || !p.value.circuit.CircuitOther?
  }

  // An answer a closure can have left on snapshot c.
  predicate Computed(cfg: Config, op: Op, c: Snapshot, allowed: bool) {
    op.AllowProbe? && Determined(op, c) ==> allowed == Answer(cfg, Lookup(c, op.id), op.now, false)
  }

  ghost predicate AnswersOk(s: Sys)
    requires HistoryOk(s)
  {
    forall k :: 0 <= k < |s.commits| ==>
      Computed(s.cfg, s.commits[k].op, View(s.heap, s.published[k]), s.commits[k].allowed)
  }

  // The models copied so far are the current snapshot's.
  ghost predicate Partial(cur: Snapshot, mine: Snapshot) {
    && mine.version == cur.version && mine.providers == cur.providers
    && forall k :: k in mine.models ==> k in cur.models && mine.models[k] == cur.models[k]
  }

  // What a thread that owns a clone has made of it.
  ghost predicate CloneOk(cfg: Config, th: Thread, cur: Snapshot, mine: Snapshot) {
    match th
    case Allocated(_, _, _, _) => mine == Snapshot(cur.version, map[], map[])
    case Copying(_, _, _, _) => Partial(cur, mine)
    case Cloned(_, _, _, _) => mine == cur
    case Mutated(op, a, _, _) => mine == Apply(cfg, op, cur) && Computed(cfg, op, cur, a)
    case Stamped(op, a, _, _) => mine == Publish(cfg, op, cur) && Computed(cfg, op, cur, a)
    case _ => true
  }

  // A clone has no score map of the catalog's until its closure has run, and then those that the closure installed.
  ghost predicate LoanOk(h: Heap, th: Thread) {
    && (th.Allocated? || th.Copying? || th.Cloned? ==> BorrowsNothing(h, th.mine))
    && (th.Mutated? || th.Stamped? ==> BorrowsInstalled(h, th.mine, th.op))
  }

  // A published snapshot has the catalog's score maps that the closure of its commit installed.
  ghost predicate LoansOk(s: Sys)
    requires HistoryOk(s)
  {
    && BorrowsNothing(s.heap, s.published[0])
    && forall k :: 0 <= k < |s.commits| ==> BorrowsInstalled(s.heap, s.published[k + 1], s.commits[k].op)
  }

  ghost predicate ThreadOk(s: Sys, th: Thread) {
    && (th.OwnsCell() ==> OwnOk(s, th.cur, th.mine) && CloneOk(s.cfg, th, View(s.heap, th.cur), View(s.heap, th.mine)))
    && (!th.Idle? && !th.Returned? ==> Supplied(s.heap.catalog, th.op)) && LoanOk(s.heap, th)
    && (th.Loaded? ==> th.cur in s.published && th.cur < |s.heap.cells|)
    && (th.Returned? ==> th.commit < |s.commits| && s.commits[th.commit] == Commit(th.op, th.allowed))
  }

  // A clone is private until it is published.
  ghost predicate OwnOk(s: Sys, cur: nat, mine: nat) {
    cur in s.published && cur < |s.heap.cells| && mine < |s.heap.cells| && mine !in s.published
  }

  ghost predicate ThreadsOk(s: Sys) {
    && (forall t :: 0 <= t < |s.threads| ==> ThreadOk(s, s.threads[t]))
    && (forall t, u :: 0 <= t < u < |s.threads| && s.threads[t].OwnsCell() && s.threads[u].OwnsCell()
          ==> s.threads[t].mine != s.threads[u].mine)
  }

  ghost predicate Inv(s: Sys, init: Snapshot) {
    WellOwned(s.heap) && HistoryOk(s) && CellsOk(s, init) && AnswersOk(s) && LoansOk(s) && ThreadsOk(s)
  }

  lemma {:induction false} StartInv(cfg: Config, init: Snapshot, threads: nat, s: Sys)
    requires Start(cfg, init, threads, s)
    ensures Inv(s, init)
  {
  }

  // No step writes anything a published cell reaches, or shortens the history.
  ghost predicate Preserves(s: Sys, s': Sys) {
    && s'.cfg == s.cfg && |s'.threads| == |s.threads|
    && |s.heap.cells| <= |s'.heap.cells|
    && s.published <= s'.published && s.commits <= s'.commits
    && (forall c :: c in s.published && c < |s.heap.cells| ==> Intact(s.heap, s'.heap, c))
  }

  // The cell and every map it reaches are the same objects with the same contents.
  ghost predicate Intact(h: Heap, h': Heap, c: nat)
    requires c < |h.cells|
  {
    && c < |h'.cells| && h'.cells[c] == h.cells[c]
    && forall r :: Reaches(h, c, r) ==> Untouched(h, h', r)
  }

  lemma {:induction false} FrameIntact(h: Heap, h': Heap, m: nat, c: nat)
    requires Owned(h, c) && WritesOnly(h, h', m) && c != m
    ensures Intact(h, h', c)
  {
    forall r | Reaches(h, c, r) ensures Untouched(h, h', r) {
      FrameRef(h, h', m, c, r);
    }
  }

  lemma {:induction false} SameHeapIntact(h: Heap, c: nat)
    requires Owned(h, c)
    ensures Intact(h, h, c)
  {
  }

  // ---------------------------------------------------------------- every step keeps it

  // A step of thread t that writes nothing but the objects of cell m, its own clone.
  ghost predicate Private(s: Sys, t: nat, th: Thread, h: Heap, m: nat) {
    && t < |s.threads| && WritesOnly(s.heap, h, m) && WellOwned(h) && m < |h.cells|
    && |h.cells| == (if m == |s.heap.cells| then m + 1 else |s.heap.cells|)
    && m !in s.published
    && (forall u :: 0 <= u < |s.threads| && u != t && s.threads[u].OwnsCell() ==> s.threads[u].mine != m)
    && th.OwnsCell() && th.mine == m && th.cur in s.published && th.cur < |s.heap.cells|
    && CloneOk(s.cfg, th, View(h, th.cur), View(h, m)) && LoanOk(h, th) && Supplied(h.catalog, th.op)
  }

  // The aliases still show what the catalog's maps hold when it has more of them.
  lemma {:induction false} StillSupplied(catalog: seq<Scores>, catalog': seq<Scores>, op: Op)
    requires Supplied(catalog, op) && catalog <= catalog'
    ensures Supplied(catalog', op)
  {
  }

  ghost predicate SameHistory(s: Sys, s': Sys) {
    s'.cfg == s.cfg && s'.current == s.current && s'.published == s.published && s'.commits == s.commits
  }

  lemma {:induction false} PrivateHistory(s: Sys, s': Sys, init: Snapshot, m: nat)
    requires WellOwned(s.heap) && HistoryOk(s) && CellsOk(s, init) && AnswersOk(s) && SameHistory(s, s')
    requires WritesOnly(s.heap, s'.heap, m) && m !in s.published
    ensures HistoryOk(s') && CellsOk(s', init) && AnswersOk(s')
  {
    forall k | 0 <= k < |s.published| ensures View(s'.heap, s.published[k]) == View(s.heap, s.published[k]) {
      assert s.published[k] in s.published;
      FrameView(s.heap, s'.heap, m, s.published[k]);
    }
  }

  lemma {:induction false} PrivateLoans(s: Sys, s': Sys, m: nat)
    requires WellOwned(s.heap) && HistoryOk(s) && LoansOk(s) && HistoryOk(s') && SameHistory(s, s')
    requires WritesOnly(s.heap, s'.heap, m) && m !in s.published
    ensures LoansOk(s')
  {
    forall k | 0 <= k < |s.published| ensures s.published[k] != m && Owned(s.heap, s.published[k]) {
      assert s.published[k] in s.published;
    }
    FrameBorrows(s.heap, s'.heap, m, s.published[0]);
    forall k | 0 <= k < |s.commits| ensures BorrowsInstalled(s'.heap, s.published[k + 1], s.commits[k].op) {
      FrameBorrows(s.heap, s'.heap, m, s.published[k + 1]);
    }
  }

  lemma {:induction false} PrivateThreads(s: Sys, t: nat, th: Thread, h: Heap, m: nat)
    requires WellOwned(s.heap) && ThreadsOk(s) && Private(s, t, th, h, m)
    ensures ThreadsOk(s.(heap := h, threads := s.threads[t := th]))
  {
    var s' := s.(heap := h, threads := s.threads[t := th]);
    forall u | 0 <= u < |s'.threads| ensures ThreadOk(s', s'.threads[u]) {
      assert ThreadOk(s, s.threads[u]);
      if u != t && s.threads[u].OwnsCell() {
        FrameView(s.heap, h, m, s.threads[u].cur);
        FrameView(s.heap, h, m, s.threads[u].mine);
        FrameBorrows(s.heap, h, m, s.threads[u].mine);
      }
      if u != t && !s.threads[u].Idle? && !s.threads[u].Returned? {
        StillSupplied(s.heap.catalog, h.catalog, s.threads[u].op);
      }
    }
  }

  lemma {:induction false} PrivateStep(s: Sys, init: Snapshot, t: nat, th: Thread, h: Heap, m: nat)
    requires Inv(s, init) && Private(s, t, th, h, m)
    ensures var s' := s.(heap := h, threads := s.threads[t := th]); Inv(s', init) && Preserves(s, s')
  {
    var s' := s.(heap := h, threads := s.threads[t := th]);
    PrivateHistory(s, s', init, m);
    PrivateLoans(s, s', m);
    PrivateThreads(s, t, th, h, m);
    PrivatePreserves(s, s', m);
  }

  lemma {:induction false} PrivatePreserves(s: Sys, s': Sys, m: nat)
    requires WellOwned(s.heap) && WritesOnly(s.heap, s'.heap, m) && m !in s.published
    requires SameHistory(s, s') && |s'.threads| == |s.threads|
    ensures Preserves(s, s')
  {
    forall c | c in s.published && c < |s.heap.cells| ensures Intact(s.heap, s'.heap, c) {
      FrameIntact(s.heap, s'.heap, m, c);
    }
  }

  lemma {:induction false} LocalThreads(s: Sys, t: nat, th: Thread)
    requires ThreadsOk(s) && t < |s.threads| && ThreadOk(s, th)
    requires th.OwnsCell() ==> s.threads[t].OwnsCell() && th.mine == s.threads[t].mine
    ensures ThreadsOk(s.(threads := s.threads[t := th]))
  {
    var s' := s.(threads := s.threads[t := th]);
    forall u | 0 <= u < |s'.threads| ensures ThreadOk(s', s'.threads[u]) {
      assert ThreadOk(s, s.threads[u]);
      if u == t {
        assert ThreadOk(s', th);
      }
    }
  }

  // A step that writes nothing in the heap.
  lemma {:induction false} LocalStep(s: Sys, init: Snapshot, t: nat, th: Thread)
    requires Inv(s, init) && t < |s.threads| && ThreadOk(s, th)
    requires th.OwnsCell() ==> s.threads[t].OwnsCell() && th.mine == s.threads[t].mine
    ensures var s' := s.(threads := s.threads[t := th]); Inv(s', init) && Preserves(s, s')
  {
    LocalThreads(s, t, th);
    SamePreserves(s, init);
  }

  lemma {:induction false} AllocateStep(s: Sys, init: Snapshot, t: nat)
    requires Inv(s, init) && t < |s.threads| && s.threads[t].Loaded?
    ensures Inv(Move(s, t, s.threads[t]), init) && Preserves(s, Move(s, t, s.threads[t]))
  {
    var th, m := s.threads[t], |s.heap.cells|;
    assert ThreadOk(s, th);
    AllocateOk(s.heap, th.cur);
    FrameView(s.heap, Allocate(s.heap, th.cur), m, th.cur);
    forall u | 0 <= u < |s.threads| && s.threads[u].OwnsCell() ensures s.threads[u].mine != m {
      assert ThreadOk(s, s.threads[u]);
    }
    PrivateStep(s, init, t, Allocated(th.op, th.allowed, th.cur, m), Allocate(s.heap, th.cur), m);
  }

  // What a thread that owns a clone may rely on.
  lemma {:induction false} OwnFacts(s: Sys, init: Snapshot, t: nat)
    requires Inv(s, init) && t < |s.threads| && s.threads[t].OwnsCell()
    ensures var th := s.threads[t];
      && OwnOk(s, th.cur, th.mine) && th.cur != th.mine && Owned(s.heap, th.cur) && Owned(s.heap, th.mine)
      && CloneOk(s.cfg, th, View(s.heap, th.cur), View(s.heap, th.mine))
      && LoanOk(s.heap, th) && Supplied(s.heap.catalog, th.op)
      && (forall u :: 0 <= u < |s.threads| && u != t && s.threads[u].OwnsCell() ==> s.threads[u].mine != th.mine)
  {
    assert ThreadOk(s, s.threads[t]);
  }

  lemma {:induction false} CopyProvidersStep(s: Sys, init: Snapshot, t: nat)
    requires Inv(s, init) && t < |s.threads| && s.threads[t].Allocated? && Owned(s.heap, s.threads[t].mine)
    ensures Inv(Move(s, t, s.threads[t]), init) && Preserves(s, Move(s, t, s.threads[t]))
  {
    var th := s.threads[t];
    OwnFacts(s, init, t);
    CopyProvidersOk(s.heap, th.cur, th.mine);
    var h := CopyProviders(s.heap, th.cur, th.mine);
    SameRowsBorrow(s.heap, h, th.mine);
    FrameView(s.heap, h, th.mine, th.cur);
    PrivateStep(s, init, t, Copying(th.op, th.allowed, th.cur, th.mine), h, th.mine);
  }

  predicate MayCopy(s: Sys, t: nat, k: string) {
    t < |s.threads| && s.threads[t].Copying? && k in Rows(s.heap, s.threads[t].cur)
  }

  lemma {:induction false} CopyModelPrivate(s: Sys, init: Snapshot, t: nat, k: string)
    requires Inv(s, init) && MayCopy(s, t, k) && Owned(s.heap, s.threads[t].mine)
    ensures Private(s, t, s.threads[t], CopyModel(s.heap, s.threads[t].cur, s.threads[t].mine, k), s.threads[t].mine)
  {
    var th := s.threads[t];
    OwnFacts(s, init, t);
    CopyModelOk(s.heap, th.cur, th.mine, k);
    FrameView(s.heap, CopyModel(s.heap, th.cur, th.mine, k), th.mine, th.cur);
  }

  lemma {:induction false} CopyModelStep(s: Sys, init: Snapshot, t: nat, k: string)
    requires Inv(s, init) && MayCopy(s, t, k) && Owned(s.heap, s.threads[t].mine)
    ensures var s' := s.(heap := CopyModel(s.heap, s.threads[t].cur, s.threads[t].mine, k)); Inv(s', init) && Preserves(s, s')
  {
    var th := s.threads[t];
    CopyModelPrivate(s, init, t, k);
    PrivateStep(s, init, t, th, CopyModel(s.heap, th.cur, th.mine, k), th.mine);
    assert s.threads[t := th] == s.threads;
  }

  lemma {:induction false} WriteStep(s: Sys, init: Snapshot, t: nat)
    requires Inv(s, init) && t < |s.threads| && s.threads[t].Cloned? && Owned(s.heap, s.threads[t].mine)
    ensures Inv(Move(s, t, s.threads[t]), init) && Preserves(s, Move(s, t, s.threads[t]))
  {
    var th := s.threads[t];
    OwnFacts(s, init, t);
    WriteOk(s.cfg, th.op, s.heap, th.mine);
    var h := Write(s.cfg, th.op, s.heap, th.mine);
    FrameView(s.heap, h, th.mine, th.cur);
    PrivateStep(s, init, t, Mutated(th.op, AnswerOf(s.cfg, th.op, View(s.heap, th.mine), th.allowed), th.cur, th.mine), h, th.mine);
  }

  lemma {:induction false} StampStep(s: Sys, init: Snapshot, t: nat)
    requires Inv(s, init) && t < |s.threads| && s.threads[t].Mutated? && Owned(s.heap, s.threads[t].mine)
    ensures Inv(Move(s, t, s.threads[t]), init) && Preserves(s, Move(s, t, s.threads[t]))
  {
    var th := s.threads[t];
    OwnFacts(s, init, t);
    var version := NextVersion(View(s.heap, th.cur).version);
    StampOk(s.heap, th.mine, version);
    var h := Stamp(s.heap, th.mine, version);
    SameRowsBorrow(s.heap, h, th.mine);
    FrameView(s.heap, h, th.mine, th.cur);
    PrivateStep(s, init, t, Stamped(th.op, th.allowed, th.cur, th.mine), h, th.mine);
  }

  // Thread t is about to swap and will win.
  ghost predicate MaySwap(s: Sys, t: nat) {
    t < |s.threads| && s.threads[t].Stamped? && s.current == s.threads[t].cur && ThreadOk(s, s.threads[t])
  }

  lemma {:induction false} SwapHistory(s: Sys, t: nat)
    requires WellOwned(s.heap) && HistoryOk(s) && MaySwap(s, t)
    ensures HistoryOk(Swapped(s, t, s.threads[t])) && Preserves(s, Swapped(s, t, s.threads[t]))
  {
    assert forall k :: 0 <= k < |s.published| ==> s.published[k] in s.published;
    forall c | c in s.published && c < |s.heap.cells| ensures Intact(s.heap, s.heap, c) {
      SameHeapIntact(s.heap, c);
    }
  }

  lemma {:induction false} SwapCells(s: Sys, init: Snapshot, t: nat)
    requires HistoryOk(s) && CellsOk(s, init) && MaySwap(s, t) && HistoryOk(Swapped(s, t, s.threads[t]))
    ensures CellsOk(Swapped(s, t, s.threads[t]), init)
  {
    var s', th, n := Swapped(s, t, s.threads[t]), s.threads[t], |s.commits|;
    forall k | 0 <= k < |s'.published| ensures View(s.heap, s'.published[k]) == Fold(s.cfg, init, s'.commits[..k]) {
      if k <= n {
        assert s'.commits[..k] == s.commits[..k] && s'.published[k] == s.published[k];
      } else {
        assert s'.commits[..k] == s'.commits && DropLast(s'.commits) == s.commits == s.commits[..n];
        assert View(s.heap, s.published[n]) == Fold(s.cfg, init, s.commits[..n]);
      }
    }
  }

  lemma {:induction false} SwapAnswers(s: Sys, t: nat)
    requires HistoryOk(s) && AnswersOk(s) && MaySwap(s, t) && HistoryOk(Swapped(s, t, s.threads[t]))
    ensures AnswersOk(Swapped(s, t, s.threads[t]))
  {
    var s', th, n := Swapped(s, t, s.threads[t]), s.threads[t], |s.commits|;
    forall k | 0 <= k < |s'.commits|
      ensures Computed(s'.cfg, s'.commits[k].op, View(s'.heap, s'.published[k]), s'.commits[k].allowed)
    {
      assert s'.published[k] == s.published[k];
      if k < n {
        assert s'.commits[k] == s.commits[k];
        assert Computed(s.cfg, s.commits[k].op, View(s.heap, s.published[k]), s.commits[k].allowed);
      } else {
        assert s.published[n] == th.cur;
      }
    }
  }

  lemma {:induction false} SwapLoans(s: Sys, t: nat)
    requires HistoryOk(s) && LoansOk(s) && MaySwap(s, t) && HistoryOk(Swapped(s, t, s.threads[t]))
    ensures LoansOk(Swapped(s, t, s.threads[t]))
  {
    var s', n := Swapped(s, t, s.threads[t]), |s.commits|;
    forall k | 0 <= k < |s'.commits| ensures BorrowsInstalled(s'.heap, s'.published[k + 1], s'.commits[k].op) {
      if k < n {
        assert s'.commits[k] == s.commits[k] && s'.published[k + 1] == s.published[k + 1];
      }
    }
  }

  lemma {:induction false} SwapThreads(s: Sys, t: nat)
    requires ThreadsOk(s) && MaySwap(s, t)
    ensures ThreadsOk(Swapped(s, t, s.threads[t]))
  {
    var s', th := Swapped(s, t, s.threads[t]), s.threads[t];
    forall u | 0 <= u < |s'.threads| ensures ThreadOk(s', s'.threads[u]) {
      assert ThreadOk(s, s.threads[u]);
      if u != t && s.threads[u].OwnsCell() {
        assert s.threads[u].mine != th.mine;
      }
    }
  }

  lemma {:induction false} SwapStep(s: Sys, init: Snapshot, t: nat)
    requires Inv(s, init) && MaySwap(s, t)
    ensures Inv(Swapped(s, t, s.threads[t]), init) && Preserves(s, Swapped(s, t, s.threads[t]))
  {
    SwapHistory(s, t);
    SwapCells(s, init, t);
    SwapAnswers(s, t);
    SwapLoans(s, t);
    SwapThreads(s, t);
  }

  lemma {:induction false} LoadStep(s: Sys, init: Snapshot, t: nat)
    requires Inv(s, init) && t < |s.threads| && s.threads[t].Retry?
    ensures Inv(Move(s, t, s.threads[t]), init) && Preserves(s, Move(s, t, s.threads[t]))
  {
    var th := s.threads[t];
    assert ThreadOk(s, th);
    assert s.published[|s.published| - 1] == s.current;
    LocalStep(s, init, t, Loaded(th.op, th.allowed, s.current));
  }

  lemma {:induction false} CopiedOk(s: Sys, t: nat)
    requires ThreadsOk(s) && t < |s.threads| && s.threads[t].Copying?
    requires Rows(s.heap, s.threads[t].cur).Keys <= Rows(s.heap, s.threads[t].mine).Keys
    ensures var th := s.threads[t]; ThreadOk(s, Cloned(th.op, th.allowed, th.cur, th.mine))
  {
    var th := s.threads[t];
    assert ThreadOk(s, th);
    assert Models(s.heap, th.mine) == Models(s.heap, th.cur);
  }

  // The end of Clone's loop, or another turn of it.
  lemma {:induction false} LoopStep(s: Sys, init: Snapshot, t: nat)
    requires Inv(s, init) && t < |s.threads| && s.threads[t].Copying? && Owned(s.heap, s.threads[t].mine)
    ensures Inv(Move(s, t, s.threads[t]), init) && Preserves(s, Move(s, t, s.threads[t]))
  {
    var th := s.threads[t];
    if Rows(s.heap, th.cur).Keys <= Rows(s.heap, th.mine).Keys {
      CopiedOk(s, t);
      LocalStep(s, init, t, Cloned(th.op, th.allowed, th.cur, th.mine));
    } else {
      SamePreserves(s, init);
    }
  }

  lemma {:induction false} SupplyThreads(s: Sys, entries: Scores)
    requires WellOwned(s.heap) && ThreadsOk(s)
    ensures ThreadsOk(s.(heap := Extended(s.heap, entries)))
  {
    var h, m := Extended(s.heap, entries), |s.heap.cells|;
    ExtendedOk(s.heap, entries);
    var s' := s.(heap := h);
    forall u | 0 <= u < |s.threads| ensures ThreadOk(s', s.threads[u]) {
      assert ThreadOk(s, s.threads[u]);
      if s.threads[u].OwnsCell() {
        FrameBorrows(s.heap, h, m, s.threads[u].mine);
      }
      if !s.threads[u].Idle? && !s.threads[u].Returned? {
        StillSupplied(s.heap.catalog, h.catalog, s.threads[u].op);
      }
    }
  }

  // The catalog's maps may grow in number at any time.
  lemma {:induction false} SupplyStep(s: Sys, init: Snapshot, entries: Scores)
    requires Inv(s, init)
    ensures var s' := s.(heap := Extended(s.heap, entries)); Inv(s', init) && Preserves(s, s')
  {
    var h, m := Extended(s.heap, entries), |s.heap.cells|;
    ExtendedOk(s.heap, entries);
    var s' := s.(heap := h);
    PrivateHistory(s, s', init, m);
    PrivateLoans(s, s', m);
    SupplyThreads(s, entries);
    PrivatePreserves(s, s', m);
  }

  lemma {:induction false} SamePreserves(s: Sys, init: Snapshot)
    requires Inv(s, init)
    ensures Preserves(s, s)
  {
    forall c | c in s.published && c < |s.heap.cells| ensures Intact(s.heap, s.heap, c) {
      SameHeapIntact(s.heap, c);
    }
  }

  lemma {:induction false} OwnThreadOk(s: Sys, t: nat)
    requires ThreadsOk(s) && t < |s.threads| && s.threads[t].Stamped?
    ensures ThreadOk(s, s.threads[t]) && ThreadOk(s, Retry(s.threads[t].op, s.threads[t].allowed))
  {
  }

  lemma {:induction false} LastStep(s: Sys, init: Snapshot, t: nat)
    requires Inv(s, init) && t < |s.threads| && s.threads[t].Stamped? && Owned(s.heap, s.threads[t].mine)
    ensures Inv(Move(s, t, s.threads[t]), init) && Preserves(s, Move(s, t, s.threads[t]))
  {
    var th := s.threads[t];
    OwnThreadOk(s, t);
    if s.current == th.cur {
      SwapStep(s, init, t);
    } else {
      LocalStep(s, init, t, Retry(th.op, th.allowed));
    }
  }

  lemma {:induction false} MoveInv(s: Sys, init: Snapshot, t: nat)
    requires Inv(s, init) && t < |s.threads| && (s.threads[t].OwnsCell() ==> Owned(s.heap, s.threads[t].mine))
    ensures Inv(Move(s, t, s.threads[t]), init) && Preserves(s, Move(s, t, s.threads[t]))
  {
    var th := s.threads[t];
    match th
    case Retry(_, _) => LoadStep(s, init, t);
    case Loaded(_, _, _) => AllocateStep(s, init, t);
    case Allocated(_, _, _, _) => CopyProvidersStep(s, init, t);
    case Copying(_, _, _, _) => LoopStep(s, init, t);
    case Cloned(_, _, _, _) => WriteStep(s, init, t);
    case Mutated(_, _, _, _) => StampStep(s, init, t);
    case Stamped(_, _, _, _) => LastStep(s, init, t);
    case _ => SamePreserves(s, init);
  }

  lemma {:induction false} BeginMoves(s: Sys, t: nat, op: Op)
    ensures var s' := Exec(s, Begin(t, op));
      s' == s || (t < |s.threads| && Supplied(s.heap.catalog, op) && s' == s.(threads := s.threads[t := Retry(op, false)]))
  {
  }

  lemma {:induction false} BeginStep(s: Sys, init: Snapshot, t: nat, op: Op)
    requires Inv(s, init)
    ensures Inv(Exec(s, Begin(t, op)), init) && Preserves(s, Exec(s, Begin(t, op)))
  {
    var s' := Exec(s, Begin(t, op));
    BeginMoves(s, t, op);
    if s' == s {
      SamePreserves(s, init);
    } else {
      LocalStep(s, init, t, Retry(op, false));
    }
  }

  lemma {:induction false} AdvanceMoves(s: Sys, t: nat)
    ensures var s' := Exec(s, Advance(t));
      s' == s || (t < |s.threads| && (s.threads[t].OwnsCell() ==> Owned(s.heap, s.threads[t].mine)) && s' == Move(s, t, s.threads[t]))
  {
  }

  lemma {:induction false} AdvanceStep(s: Sys, init: Snapshot, t: nat)
    requires Inv(s, init)
    ensures Inv(Exec(s, Advance(t)), init) && Preserves(s, Exec(s, Advance(t)))
  {
    var s' := Exec(s, Advance(t));
    AdvanceMoves(s, t);
    if s' == s {
      SamePreserves(s, init);
    } else {
      MoveInv(s, init, t);
    }
  }

  lemma {:induction false} CopyOneMoves(s: Sys, t: nat, k: string)
    ensures var s' := Exec(s, CopyOne(t, k));
      s' == s || (MayCopy(s, t, k) && Owned(s.heap, s.threads[t].mine)
                  && s' == s.(heap := CopyModel(s.heap, s.threads[t].cur, s.threads[t].mine, k)))
  {
  }

  lemma {:induction false} CopyOneStep(s: Sys, init: Snapshot, t: nat, k: string)
    requires Inv(s, init)
    ensures Inv(Exec(s, CopyOne(t, k)), init) && Preserves(s, Exec(s, CopyOne(t, k)))
  {
    var s' := Exec(s, CopyOne(t, k));
    CopyOneMoves(s, t, k);
    if s' == s {
      SamePreserves(s, init);
    } else {
      CopyModelStep(s, init, t, k);
    }
  }

  lemma {:induction false} ExecInv(s: Sys, init: Snapshot, step: Step)
    requires Inv(s, init)
    ensures Inv(Exec(s, step), init) && Preserves(s, Exec(s, step))
  {
    match step
    case Begin(t, op) => BeginStep(s, init, t, op);
    case Advance(t) => AdvanceStep(s, init, t);
    case CopyOne(t, k) => CopyOneStep(s, init, t, k);
    case Supply(entries) => SupplyStep(s, init, entries);
  }

  lemma {:induction false} IntactChain(a: Heap, b: Heap, c: Heap, x: nat)
    requires x < |a.cells| && Intact(a, b, x) && x < |b.cells| && Intact(b, c, x) && Owned(a, x)
    ensures Intact(a, c, x)
  {
    assert Untouched(a, b, ToModels(a.cells[x].models));
    assert Rows(b, x) == Rows(a, x);
    forall r | Reaches(a, x, r) ensures Untouched(a, c, r) {
      assert forall k, at :: Borrows(a, x, k, at) ==> Borrows(b, x, k, at);
      assert Reaches(b, x, r);
      assert Untouched(a, b, r) && Untouched(b, c, r);
    }
  }

  lemma {:induction false} PreservesChain(a: Sys, b: Sys, c: Sys, init: Snapshot)
    requires Preserves(a, b) && Preserves(b, c) && Inv(a, init)
    ensures Preserves(a, c)
  {
    forall x | x in a.published && x < |a.heap.cells| ensures Intact(a.heap, c.heap, x) {
      assert x in b.published;
      IntactChain(a.heap, b.heap, c.heap, x);
    }
  }

  lemma {:induction false} RunInv(s: Sys, init: Snapshot, steps: seq<Step>)
    requires Inv(s, init)
    ensures Inv(Run(s, steps), init) && Preserves(s, Run(s, steps))
    decreases |steps|
  {
    if steps == [] {
      SamePreserves(s, init);
    } else {
      RunInv(s, init, DropLast(steps));
      ExecInv(Run(s, DropLast(steps)), init, Last(steps));
      PreservesChain(s, Run(s, DropLast(steps)), Run(s, steps), init);
    }
  }

  // ---------------------------------------------------------------- linearizability

  lemma {:induction false} FoldVersion(cfg: Config, s: Snapshot, commits: seq<Commit>)
    requires s.version < TWO64
    ensures Fold(cfg, s, commits).version == (s.version + |commits|) % TWO64
    decreases |commits|
  {
    if commits != [] {
      FoldVersion(cfg, s, DropLast(commits));
      PublishVersion(cfg, Last(commits).op, Fold(cfg, s, DropLast(commits)));
      NextModulo(s.version + |commits| - 1);
    }
  }

  lemma {:induction false} PublishVersion(cfg: Config, op: Op, s: Snapshot)
    ensures Publish(cfg, op, s).version == NextVersion(s.version)
  {
  }

  lemma {:induction false} NextModulo(n: nat)
    ensures NextVersion(n % TWO64) == (n + 1) % TWO64
  {
  }

  // s is the state of some interleaving of the given number of threads.
  ghost predicate Reached(cfg: Config, init: Snapshot, threads: nat, s: Sys) {
    exists s0, steps :: Start(cfg, init, threads, s0) && s == Run(s0, steps)
  }

  lemma {:induction false} ReachedInv(cfg: Config, init: Snapshot, threads: nat, s: Sys)
    requires Reached(cfg, init, threads, s)
    ensures Inv(s, init) && s.cfg == cfg
  {
    var s0, steps :| Start(cfg, init, threads, s0) && s == Run(s0, steps);
    StartInv(cfg, init, threads, s0);
    RunInv(s0, init, steps);
  }

  lemma {:induction false} CurrentIsFold(s: Sys, init: Snapshot)
    requires Inv(s, init)
    ensures s.current < |s.heap.cells| && View(s.heap, s.current) == Fold(s.cfg, init, s.commits)
  {
    assert s.commits[..|s.commits|] == s.commits;
  }

  lemma {:induction false} ReachedIsFold(cfg: Config, init: Snapshot, threads: nat, s: Sys)
    requires Reached(cfg, init, threads, s)
    ensures s.current < |s.heap.cells| && s.current in s.published && View(s.heap, s.current) == Fold(cfg, init, s.commits)
  {
    ReachedInv(cfg, init, threads, s);
    CurrentIsFold(s, init);
  }

  /** In every interleaving of any number of threads: the published snapshot is the fold of the committed functions in
      commit order over the initial one, and its version counts the commits (modulo 2^64). */
  lemma {:induction false} PublishedIsFold(cfg: Config, init: Snapshot, threads: nat, s: Sys)
    requires Reached(cfg, init, threads, s) && init.version < TWO64
    ensures s.current < |s.heap.cells|
    ensures View(s.heap, s.current) == Fold(cfg, init, s.commits)
    ensures View(s.heap, s.current).version == (init.version + |s.commits|) % TWO64
  {
    ReachedIsFold(cfg, init, threads, s);
    FoldVersion(cfg, init, s.commits);
  }

  /** Once a snapshot is published, neither its cell nor any map that can be reached from it is written again, however
      the run goes on: what it shows stays the same. */
  lemma {:induction false} PublishedNeverMutated(cfg: Config, init: Snapshot, threads: nat, s: Sys, steps: seq<Step>, cell: nat)
    requires Reached(cfg, init, threads, s) && cell in s.published && cell < |s.heap.cells|
    ensures var s' := Run(s, steps);
      cell in s'.published && Intact(s.heap, s'.heap, cell) && View(s'.heap, cell) == View(s.heap, cell)
  {
    ReachedInv(cfg, init, threads, s);
    RunInv(s, init, steps);
    IntactView(s.heap, Run(s, steps).heap, cell);
  }

  lemma {:induction false} IntactView(h: Heap, h': Heap, c: nat)
    requires Owned(h, c) && Intact(h, h', c)
    ensures View(h', c) == View(h, c)
  {
    assert Untouched(h, h', ToModels(h.cells[c].models)) && Untouched(h, h', ToProviders(h.cells[c].providers));
    assert Rows(h', c) == Rows(h, c);
    forall k | k in Rows(h, c) ensures RowModel(h', Rows(h, c)[k]) == RowModel(h, Rows(h, c)[k]) {
      var r := Rows(h, c)[k];
      match r.scores
      case NoScores =>
      case Own(at) => assert Reaches(h, c, ToScores(at));
      case FromCatalog(at) =>
        assert Borrows(h, c, k, at);
        assert Reaches(h, c, ToCatalog(at));
    }
  }

  // ---------------------------------------------------------------- what snapshots share

  // The cell is a published snapshot, or a thread's clone.
  ghost predicate Live(s: Sys, c: nat) {
    c in s.published || exists u :: 0 <= u < |s.threads| && s.threads[u].OwnsCell() && s.threads[u].mine == c
  }

  ghost predicate WroteClone(s: Sys, c: nat, op: Op, u: nat) {
    u < |s.threads| && (s.threads[u].Mutated? || s.threads[u].Stamped?) && s.threads[u].mine == c && s.threads[u].op == op
  }

  ghost predicate WrotePublished(s: Sys, c: nat, op: Op, k: nat) {
    k < |s.commits| && k + 1 < |s.published| && s.published[k + 1] == c && s.commits[k].op == op
  }

  // The closure that has run on the cell installed the catalog's map at.
  ghost predicate InstalledIn(s: Sys, c: nat, at: nat) {
    || (exists u: nat, op, a :: WroteClone(s, c, op, u) && Installs(op, a, at))
    || (exists k: nat, op, a :: WrotePublished(s, c, op, k) && Installs(op, a, at))
  }

  lemma {:induction false} BorrowedByPublished(s: Sys, k: nat, a: string, at: nat)
    requires HistoryOk(s) && LoansOk(s) && k < |s.published| && Borrows(s.heap, s.published[k], a, at)
    ensures InstalledIn(s, s.published[k], at)
  {
    assert k > 0;
    assert BorrowsInstalled(s.heap, s.published[k], s.commits[k - 1].op);
    assert WrotePublished(s, s.published[k], s.commits[k - 1].op, k - 1) && Installs(s.commits[k - 1].op, a, at);
  }

  lemma {:induction false} BorrowedByClone(s: Sys, u: nat, a: string, at: nat)
    requires u < |s.threads| && s.threads[u].OwnsCell() && LoanOk(s.heap, s.threads[u]) && Borrows(s.heap, s.threads[u].mine, a, at)
    ensures InstalledIn(s, s.threads[u].mine, at)
  {
    assert WroteClone(s, s.threads[u].mine, s.threads[u].op, u) && Installs(s.threads[u].op, a, at);
  }

  lemma {:induction false} BorrowedWasInstalled(s: Sys, init: Snapshot, c: nat, a: string, at: nat)
    requires Inv(s, init) && Live(s, c) && Borrows(s.heap, c, a, at)
    ensures InstalledIn(s, c, at)
  {
    if c in s.published {
      var k :| 0 <= k < |s.published| && s.published[k] == c;
      BorrowedByPublished(s, k, a, at);
    } else {
      var u :| 0 <= u < |s.threads| && s.threads[u].OwnsCell() && s.threads[u].mine == c;
      assert ThreadOk(s, s.threads[u]);
      BorrowedByClone(s, u, a, at);
    }
  }

  lemma {:induction false} InstalledIsBorrowed(s: Sys, init: Snapshot, c: nat, at: nat) returns (a: string)
    requires Inv(s, init) && InstalledIn(s, c, at)
    ensures Borrows(s.heap, c, a, at)
  {
    if u: nat, op, k :| WroteClone(s, c, op, u) && Installs(op, k, at) {
      assert ThreadOk(s, s.threads[u]);
      a := k;
    } else {
      var j: nat, op, k :| WrotePublished(s, c, op, j) && Installs(op, k, at);
      a := k;
    }
  }

  /** A published snapshot or a clone refers to a score map of the catalog exactly when the closure that has run on it
      installed that map. */
  lemma {:induction false} CatalogReachedIff(cfg: Config, init: Snapshot, threads: nat, s: Sys, c: nat, at: nat)
    requires Reached(cfg, init, threads, s) && Live(s, c)
    ensures Reaches(s.heap, c, ToCatalog(at)) <==> InstalledIn(s, c, at)
  {
    ReachedInv(cfg, init, threads, s);
    if Reaches(s.heap, c, ToCatalog(at)) {
      var a :| Borrows(s.heap, c, a, at);
      BorrowedWasInstalled(s, init, c, a, at);
    }
    if InstalledIn(s, c, at) {
      var a := InstalledIsBorrowed(s, init, c, at);
      LiveInHeap(s, init, c);
    }
  }

  lemma {:induction false} LiveInHeap(s: Sys, init: Snapshot, c: nat)
    requires Inv(s, init) && Live(s, c)
    ensures c < |s.heap.cells|
  {
    if c !in s.published {
      var u :| 0 <= u < |s.threads| && s.threads[u].OwnsCell() && s.threads[u].mine == c;
      assert ThreadOk(s, s.threads[u]);
    }
  }

  /** Two snapshots, each published or some thread's clone, share a map exactly when it is a score map of the catalog that
      both their closures installed: never a provider map, a model map or a copied score map. */
  lemma {:induction false} ClonesShareIff(cfg: Config, init: Snapshot, threads: nat, s: Sys, c: nat, d: nat, r: Ref)
    requires Reached(cfg, init, threads, s) && Live(s, c) && Live(s, d) && c != d
    ensures Reaches(s.heap, c, r) && Reaches(s.heap, d, r) <==> r.ToCatalog? && InstalledIn(s, c, r.at) && InstalledIn(s, d, r.at)
  {
    ReachedInv(cfg, init, threads, s);
    if r.ToCatalog? {
      CatalogReachedIff(cfg, init, threads, s, c, r.at);
      CatalogReachedIff(cfg, init, threads, s, d, r.at);
    } else if Reaches(s.heap, c, r) && Reaches(s.heap, d, r) {
      NothingShared(s.heap, c, d, r);
    }
  }

  const EMPTY := Snapshot(1, map[], map[])

  function Listing(entries: Scores, at: nat): Op {
    SyncCatalog({}, map["m" := Alias("p", 0, 0, Some(entries), at, "")])
  }

  // Both threads are about to sync with the catalog.
  lemma {:induction false} BothBegin(cfg: Config, entries: Scores) returns (s: Sys, at: nat)
    ensures Reached(cfg, EMPTY, 2, s) && s.current in s.published && View(s.heap, s.current) == EMPTY
    ensures s.threads == [Retry(Listing(entries, at), false), Retry(Listing(entries, at), false)]
  {
    var s0 := StartReached(cfg, EMPTY, 2);
    at := |s0.heap.catalog|;
    ReachedNext(cfg, EMPTY, 2, s0, Supply(entries));
    var s1 := Exec(s0, Supply(entries));
    var s2 := Begins(cfg, EMPTY, 2, s1, 0, Listing(entries, at));
    s := Begins(cfg, EMPTY, 2, s2, 1, Listing(entries, at));
    ReachedIsFold(cfg, EMPTY, 2, s);
  }

  /** It happens: two syncs at once have clones that share the catalog's map. */
  lemma {:induction false} SyncsShare(cfg: Config, entries: Scores)
    ensures exists s, c, d, at :: Reached(cfg, EMPTY, 2, s) && BothReach(s, c, d, at)
  {
    var s2, at := BothBegin(cfg, entries);
    var s3 := Attempt(cfg, EMPTY, 2, s2, 0);
    var s4 := Attempt(cfg, EMPTY, 2, s3, 1);
    BothInstalled(cfg, s4, Listing(entries, at), at);
  }

  ghost predicate BothReach(s: Sys, c: nat, d: nat, at: nat) {
    Live(s, c) && Live(s, d) && c != d && Reaches(s.heap, c, ToCatalog(at)) && Reaches(s.heap, d, ToCatalog(at))
  }

  lemma {:induction false} BothInstalled(cfg: Config, s: Sys, op: Op, at: nat)
    requires Reached(cfg, EMPTY, 2, s) && |s.threads| == 2 && s.threads[0].Stamped? && s.threads[1].Stamped?
    requires s.threads[0].op == s.threads[1].op == op && Installs(op, "m", at)
    ensures s.threads[0].mine != s.threads[1].mine && BothReach(s, s.threads[0].mine, s.threads[1].mine, at)
  {
    ReachedDistinct(cfg, EMPTY, 2, s);
    var c, d := s.threads[0].mine, s.threads[1].mine;
    assert WroteClone(s, c, op, 0) && WroteClone(s, d, op, 1);
    CatalogReachedIff(cfg, EMPTY, 2, s, c, at);
    CatalogReachedIff(cfg, EMPTY, 2, s, d, at);
  }

  lemma {:induction false} ReachedDistinct(cfg: Config, init: Snapshot, threads: nat, s: Sys)
    requires Reached(cfg, init, threads, s)
    ensures forall t, u :: 0 <= t < u < |s.threads| && s.threads[t].OwnsCell() && s.threads[u].OwnsCell()
              ==> s.threads[t].mine != s.threads[u].mine
  {
    ReachedInv(cfg, init, threads, s);
  }

  // ---------------------------------------------------------------- probe answers

  /** The captured answer survives a retry exactly on an enabled provider with an unrecognised circuit. */
  lemma {:induction false} AnswerDeterminedIff(cfg: Config, op: Op, s: Snapshot)
    requires op.AllowProbe?
    ensures (forall a, b :: AnswerOf(cfg, op, s, a) == AnswerOf(cfg, op, s, b)) <==> Determined(op, s)
  {
    if !Determined(op, s) {
      assert AnswerOf(cfg, op, s, true) != AnswerOf(cfg, op, s, false);
    }
  }

  // The snapshot the k-th commit was applied to.
  function Before(cfg: Config, init: Snapshot, commits: seq<Commit>, k: nat): Snapshot
    requires k <= |commits|
  {
    Fold(cfg, init, commits[..k])
  }

  // Every committed probe answer is one its closure can give on the snapshot it was committed on.
  ghost predicate AnswersComputed(cfg: Config, init: Snapshot, commits: seq<Commit>) {
    forall k :: 0 <= k < |commits| ==> Computed(cfg, commits[k].op, Before(cfg, init, commits, k), commits[k].allowed)
  }

  lemma {:induction false} RunAnswers(s: Sys, init: Snapshot)
    requires Inv(s, init)
    ensures AnswersComputed(s.cfg, init, s.commits)
  {
    forall k | 0 <= k < |s.commits|
      ensures Computed(s.cfg, s.commits[k].op, Before(s.cfg, init, s.commits, k), s.commits[k].allowed)
    {
      assert View(s.heap, s.published[k]) == Fold(s.cfg, init, s.commits[..k]);
    }
  }

  /** A thread that has returned from AllowProbe holds the answer of the attempt that committed: the one its closure
      gives on the snapshot that commit replaced. */
  lemma {:induction false} ReturnedAnswerIsCommitted(cfg: Config, init: Snapshot, threads: nat, s: Sys, t: nat)
    requires Reached(cfg, init, threads, s)
    requires t < |s.threads| && s.threads[t].Returned? && s.threads[t].op.AllowProbe?
    ensures var th := s.threads[t];
      && th.commit < |s.commits| && s.commits[th.commit] == Commit(th.op, th.allowed)
      && var replaced := Before(cfg, init, s.commits, th.commit);
         Determined(th.op, replaced) ==> th.allowed == Answer(cfg, Lookup(replaced, th.op.id), th.op.now, false)
  {
    ReachedInv(cfg, init, threads, s);
    RunAnswers(s, init);
    assert ThreadOk(s, s.threads[t]);
    var op, replaced := s.threads[t].op, Before(cfg, init, s.commits, s.threads[t].commit);
    assert Computed(cfg, op, replaced, s.threads[t].allowed);
    if Determined(op, replaced) {
      AnswerDeterminedIff(cfg, op, replaced);
    }
  }

  lemma {:induction false} ReachedNext(cfg: Config, init: Snapshot, threads: nat, s: Sys, step: Step)
    requires Reached(cfg, init, threads, s)
    ensures Reached(cfg, init, threads, Exec(s, step))
  {
    var s0, steps :| Start(cfg, init, threads, s0) && s == Run(s0, steps);
    assert DropLast(steps + [step]) == steps;
    assert Exec(s, step) == Run(s0, steps + [step]);
  }

  // s' differs from s in what thread t is doing, and in a heap that shows the same for every published snapshot.
  ghost predicate OnlyThread(s: Sys, s': Sys, t: nat, th: Thread) {
    && t < |s.threads| && s'.cfg == s.cfg && s'.current == s.current && s'.published == s.published && s'.commits == s.commits
    && s'.threads == s.threads[t := th]
    && forall c :: c in s.published ==> View(s'.heap, c) == View(s.heap, c)
  }

  // A step of thread t leaves what every published snapshot shows as it was.
  lemma {:induction false} ViewsKept(cfg: Config, init: Snapshot, threads: nat, s: Sys, t: nat)
    requires Reached(cfg, init, threads, s)
    ensures forall c :: c in s.published ==> View(Exec(s, Advance(t)).heap, c) == View(s.heap, c)
  {
    ReachedInv(cfg, init, threads, s);
    ExecInv(s, init, Advance(t));
    forall c | c in s.published ensures View(Exec(s, Advance(t)).heap, c) == View(s.heap, c) {
      IntactView(s.heap, Exec(s, Advance(t)).heap, c);
    }
  }

  // What a thread with a clone has in a reached state.
  lemma {:induction false} ReachedOwns(cfg: Config, init: Snapshot, threads: nat, s: Sys, t: nat)
    requires Reached(cfg, init, threads, s) && t < |s.threads| && s.threads[t].OwnsCell()
    ensures s.cfg == cfg && Owned(s.heap, s.threads[t].mine) && s.threads[t].mine !in s.published && s.threads[t].cur in s.published
    ensures CloneOk(cfg, s.threads[t], View(s.heap, s.threads[t].cur), View(s.heap, s.threads[t].mine))
  {
    ReachedInv(cfg, init, threads, s);
    OwnFacts(s, init, t);
  }

  // The place of a thread after a step from th, when its snapshot has no models to copy.
  ghost predicate Next(s: Sys, th: Thread, th': Thread) {
    match th
    case Retry(op, a) => th' == Loaded(op, a, s.current)
    case Loaded(op, a, cur) => th' == Allocated(op, a, cur, |s.heap.cells|)
    case Allocated(op, a, cur, m) => th' == Copying(op, a, cur, m)
    case Copying(op, a, cur, m) => th' == Cloned(op, a, cur, m)
    case Cloned(op, a, cur, m) => th' == Mutated(op, AnswerOf(s.cfg, op, View(s.heap, cur), a), cur, m)
    case Mutated(op, a, cur, m) => th' == Stamped(op, a, cur, m)
    case _ => true
  }

  // s' differs from s in what thread t is doing, and in the heap.
  ghost predicate Moved(s: Sys, s': Sys, t: nat) {
    && t < |s.threads| && |s'.threads| == |s.threads| && Next(s, s.threads[t], s'.threads[t])
    && s' == s.(heap := s'.heap, threads := s.threads[t := s'.threads[t]])
  }

  lemma {:induction false} BeginAttempt(s: Sys, t: nat)
    requires t < |s.threads| && (s.threads[t].Retry? || s.threads[t].Loaded?)
    ensures Moved(s, Exec(s, Advance(t)), t)
  {
  }

  lemma {:induction false} CloneAttempt(s: Sys, t: nat)
    requires t < |s.threads| && (s.threads[t].Allocated? || s.threads[t].Copying?) && Owned(s.heap, s.threads[t].mine)
    requires View(s.heap, s.threads[t].cur).models == map[]
    ensures Moved(s, Exec(s, Advance(t)), t)
  {
    assert Models(s.heap, s.threads[t].cur) == map[];
    assert Rows(s.heap, s.threads[t].cur).Keys == Models(s.heap, s.threads[t].cur).Keys;
  }

  lemma {:induction false} WriteAttempt(s: Sys, t: nat)
    requires t < |s.threads| && s.threads[t].Cloned? && Owned(s.heap, s.threads[t].mine)
    requires View(s.heap, s.threads[t].cur) == View(s.heap, s.threads[t].mine)
    ensures Moved(s, Exec(s, Advance(t)), t)
  {
  }

  lemma {:induction false} StampAttempt(s: Sys, t: nat)
    requires t < |s.threads| && s.threads[t].Mutated? && Owned(s.heap, s.threads[t].mine)
    ensures Moved(s, Exec(s, Advance(t)), t)
  {
  }

  // One step of a thread whose snapshot has no models to copy.
  lemma {:induction false} AttemptStep(cfg: Config, init: Snapshot, threads: nat, s: Sys, t: nat)
    requires Reached(cfg, init, threads, s) && t < |s.threads| && View(s.heap, s.current).models == map[]
    requires var th := s.threads[t];
      th.Retry? || ((th.Loaded? || (th.OwnsCell() && !th.Stamped?)) && th.cur == s.current)
    ensures var s' := Exec(s, Advance(t));
      && Reached(cfg, init, threads, s') && t < |s'.threads| && OnlyThread(s, s', t, s'.threads[t]) && Next(s, s.threads[t], s'.threads[t])
  {
    ReachedNext(cfg, init, threads, s, Advance(t));
    ViewsKept(cfg, init, threads, s, t);
    var th := s.threads[t];
    if th.OwnsCell() {
      ReachedOwns(cfg, init, threads, s, t);
    }
    AttemptMoves(s, t);
  }

  lemma {:induction false} AttemptMoves(s: Sys, t: nat)
    requires t < |s.threads| && (s.threads[t].OwnsCell() ==> Owned(s.heap, s.threads[t].mine))
    requires s.threads[t].Copying? ==> View(s.heap, s.threads[t].cur).models == map[]
    requires s.threads[t].Allocated? ==> View(s.heap, s.threads[t].cur).models == map[]
    requires s.threads[t].Cloned? ==> View(s.heap, s.threads[t].cur) == View(s.heap, s.threads[t].mine)
    requires var th := s.threads[t]; th.Retry? || th.Loaded? || (th.OwnsCell() && !th.Stamped?)
    ensures Moved(s, Exec(s, Advance(t)), t)
  {
    match s.threads[t]
    case Allocated(_, _, _, _) => CloneAttempt(s, t);
    case Copying(_, _, _, _) => CloneAttempt(s, t);
    case Cloned(_, _, _, _) => WriteAttempt(s, t);
    case Mutated(_, _, _, _) => StampAttempt(s, t);
    case _ => BeginAttempt(s, t);
  }

  // A thread alone, from its retry point to the end of an attempt up to the swap.
  lemma {:induction false} Attempt(cfg: Config, init: Snapshot, threads: nat, s: Sys, t: nat) returns (s': Sys)
    requires Reached(cfg, init, threads, s) && t < |s.threads| && s.threads[t].Retry?
    requires View(s.heap, s.current).models == map[]
    ensures Reached(cfg, init, threads, s')
    ensures s.cfg == cfg
    ensures var op, a := s.threads[t].op, s.threads[t].allowed;
      && t < |s'.threads| && s'.threads[t].Stamped?
      && OnlyThread(s, s', t, Stamped(op, AnswerOf(cfg, op, View(s.heap, s.current), a), s.current, s'.threads[t].mine))
  {
    ReachedInv(cfg, init, threads, s);
    assert s.current in s.published;
    s' := s;
    var i := 0;
    while i < 6
      invariant 0 <= i <= 6 && Reached(cfg, init, threads, s')
      invariant t < |s'.threads| && OnlyThread(s, s', t, s'.threads[t])
      invariant var op, a := s.threads[t].op, s.threads[t].allowed; var th := s'.threads[t];
        match i
        case 0 => th == Retry(op, a)
        case 1 => th == Loaded(op, a, s.current)
        case 2 => th.Allocated? && th == Allocated(op, a, s.current, th.mine)
        case 3 => th.Copying? && th == Copying(op, a, s.current, th.mine)
        case 4 => th.Cloned? && th == Cloned(op, a, s.current, th.mine)
        case 5 => th.Mutated? && th == Mutated(op, AnswerOf(cfg, op, View(s.heap, s.current), a), s.current, th.mine)
        case _ => th.Stamped? && th == Stamped(op, AnswerOf(cfg, op, View(s.heap, s.current), a), s.current, th.mine)
    {
      AttemptStep(cfg, init, threads, s', t);
      s' := Exec(s', Advance(t));
      i := i + 1;
    }
  }

  const CLOSED := Snapshot(1, map["p" := ZERO.(admin := AdminEnabled, circuit := Closed)], map[])
  const UNSET := SetProvider("p", ZERO.(admin := AdminEnabled))
  const PROBE := AllowProbe("p", 0)

  /** The stale answer does escape: thread 0's first attempt sees a closed circuit and answers true; thread 1 then
      replaces the provider by one with an unset circuit; thread 0's retry commits on that and still returns true,
      where its closure run afresh answers false. */
  lemma {:induction false} StaleAnswerEscapes(cfg: Config)
    ensures exists s :: Reached(cfg, CLOSED, 2, s) && s.threads == [Returned(PROBE, true, 1), Returned(UNSET, false, 0)]
                        && s.commits == [Commit(UNSET, false), Commit(PROBE, true)]
    ensures !AnswerOf(cfg, PROBE, Publish(cfg, UNSET, CLOSED), false)
  {
    var s1 := FirstHalf(cfg);
    var s2 := SecondHalf(cfg, s1);
    LastPart(cfg, s2);
  }

  lemma {:induction false} StartReached(cfg: Config, init: Snapshot, threads: nat) returns (s: Sys)
    ensures Reached(cfg, init, threads, s) && Start(cfg, init, threads, s)
  {
    s := StartExists(cfg, init, threads);
    assert s == Run(s, []);
  }

  lemma {:induction false} Begins(cfg: Config, init: Snapshot, threads: nat, s: Sys, t: nat, op: Op) returns (s': Sys)
    requires Reached(cfg, init, threads, s) && t < |s.threads| && s.threads[t].Idle? && Supplied(s.heap.catalog, op)
    ensures Reached(cfg, init, threads, s') && s' == s.(threads := s.threads[t := Retry(op, false)])
  {
    ReachedNext(cfg, init, threads, s, Begin(t, op));
    s' := Exec(s, Begin(t, op));
  }

  // Thread 0 has run its closure on the closed circuit and is about to swap.
  lemma {:induction false} FirstHalf(cfg: Config) returns (s1: Sys)
    ensures Reached(cfg, CLOSED, 2, s1) && |s1.threads| == 2 && s1.threads[1] == Idle
    ensures s1.threads[0].Stamped? && s1.threads[0] == Stamped(PROBE, true, 0, s1.threads[0].mine)
    ensures s1.current == 0 && s1.published == [0] && s1.commits == []
  {
    var s0 := StartReached(cfg, CLOSED, 2);
    var a0 := Begins(cfg, CLOSED, 2, s0, 0, PROBE);
    s1 := Attempt(cfg, CLOSED, 2, a0, 0);
  }

  // Thread 1 replaces the provider while thread 0 is about to swap.
  lemma {:induction false} SecondHalf(cfg: Config, s1: Sys) returns (s2: Sys)
    requires Reached(cfg, CLOSED, 2, s1) && |s1.threads| == 2 && s1.threads[1] == Idle
    requires s1.threads[0].Stamped? && s1.threads[0] == Stamped(PROBE, true, 0, s1.threads[0].mine)
    requires s1.current == 0 && s1.published == [0] && s1.commits == []
    ensures Reached(cfg, CLOSED, 2, s2) && s2.threads == [s1.threads[0], Returned(UNSET, false, 0)]
    ensures s2.commits == [Commit(UNSET, false)] && s2.current != 0
  {
    ReachedIsFold(cfg, CLOSED, 2, s1);
    var a1 := Begins(cfg, CLOSED, 2, s1, 1, UNSET);
    var b1 := Attempt(cfg, CLOSED, 2, a1, 1);
    s2 := SwapReturns(cfg, CLOSED, 2, b1, 1);
  }

  // A thread that is about to swap on the published cell returns, and one that is about to swap on another retries.
  lemma {:induction false} SwapMoves(s: Sys, t: nat)
    requires t < |s.threads| && s.threads[t].Stamped? && Owned(s.heap, s.threads[t].mine)
    ensures var s' := Exec(s, Advance(t)); var th := s.threads[t];
      s' == if th.cur == s.current then Swapped(s, t, th) else s.(threads := s.threads[t := Retry(th.op, th.allowed)])
  {
  }

  lemma {:induction false} SwapReturns(cfg: Config, init: Snapshot, threads: nat, s: Sys, t: nat) returns (s': Sys)
    requires Reached(cfg, init, threads, s) && t < |s.threads| && s.threads[t].Stamped? && s.threads[t].cur == s.current
    ensures Reached(cfg, init, threads, s') && s' == Swapped(s, t, s.threads[t]) && s'.current != s.current
  {
    s' := Exec(s, Advance(t));
    ReachedNext(cfg, init, threads, s, Advance(t));
    ReachedOwns(cfg, init, threads, s, t);
    SwapMoves(s, t);
  }

  lemma {:induction false} SwapRetries(cfg: Config, init: Snapshot, threads: nat, s: Sys, t: nat) returns (s': Sys)
    requires Reached(cfg, init, threads, s) && t < |s.threads| && s.threads[t].Stamped? && s.threads[t].cur != s.current
    ensures Reached(cfg, init, threads, s')
    ensures s' == s.(threads := s.threads[t := Retry(s.threads[t].op, s.threads[t].allowed)])
  {
    s' := Exec(s, Advance(t));
    ReachedNext(cfg, init, threads, s, Advance(t));
    ReachedOwns(cfg, init, threads, s, t);
    SwapMoves(s, t);
  }

  // After the replacement, a probe that still carries true answers true again.
  lemma {:induction false} StaleOnUnset(cfg: Config, s: Sys)
    requires Reached(cfg, CLOSED, 2, s) && s.commits == [Commit(UNSET, false)]
    ensures View(s.heap, s.current).models == map[] && AnswerOf(cfg, PROBE, View(s.heap, s.current), true)
  {
    ReachedIsFold(cfg, CLOSED, 2, s);
    assert DropLast(s.commits) == [];
    assert View(s.heap, s.current) == Publish(cfg, UNSET, CLOSED);
  }

  // Thread 0 loses its swap, runs again and wins.
  lemma {:induction false} LastPart(cfg: Config, s2: Sys)
    requires Reached(cfg, CLOSED, 2, s2) && s2.commits == [Commit(UNSET, false)] && s2.current != 0
    requires |s2.threads| == 2 && s2.threads[0].Stamped? && s2.threads[0] == Stamped(PROBE, true, 0, s2.threads[0].mine)
    requires s2.threads[1] == Returned(UNSET, false, 0)
    ensures exists s :: Reached(cfg, CLOSED, 2, s) && s.threads == [Returned(PROBE, true, 1), Returned(UNSET, false, 0)]
                        && s.commits == [Commit(UNSET, false), Commit(PROBE, true)]
  {
    var a2 := SwapRetries(cfg, CLOSED, 2, s2, 0);
    StaleOnUnset(cfg, a2);
    var b2 := Attempt(cfg, CLOSED, 2, a2, 0);
    assert b2.threads[0].allowed;
    var s3 := SwapReturns(cfg, CLOSED, 2, b2, 0);
    assert s3.threads == [Returned(PROBE, true, 1), Returned(UNSET, false, 0)];
  }

  // The model's row, without its scores.
  function Bare(m: Model): Row {
    Row(m.id, m.provider, m.enabled, m.contextLimit, m.maxOutput, NoScores, m.pricingTag)
  }

  /** Any snapshot can be laid out in a heap, so there is a start for it. */
  lemma {:induction false} StartExists(cfg: Config, init: Snapshot, threads: nat) returns (s: Sys)
    ensures Start(cfg, init, threads, s)
  {
    var h := Heap([Cell(init.version, 0, 0)], [ProviderMap(0, init.providers)], [ModelMap(0, map[])], [], []);
    assert View(h, 0) == init.(models := map[]);
    var left := init.models.Keys;
    while left != {}
      invariant |h.cells| == 1 && WellOwned(h) && BorrowsNothing(h, 0) && left <= init.models.Keys
      invariant View(h, 0) == init.(models := map k | k in init.models && k !in left :: init.models[k])
    {
      var k :| k in left;
      var m := init.models[k];
      PutRowOk(h, 0, k, Bare(m), m.scores);
      h := PutRow(h, 0, k, Bare(m), m.scores);
      left := left - {k};
    }
    s := Sys(cfg, h, 0, seq(threads, _ => Idle), [0], []);
  }

  // ---------------------------------------------------------------- one probe at a time

  // Operations that can end a probe of provider id.
  predicate Releases(op: Op, id: string) {
    (op.SetProvider? || op.RecordSuccess? || op.RecordFailure? || op.RecoverCircuit? || op.Sync? || op.Exhaust? || op.Trip?)
    && op.id == id
  }

  // A probe of id is outstanding.
  predicate Held(s: Snapshot, id: string) {
    id in s.providers && s.providers[id].circuit == HalfOpen && s.providers[id].probeInFlight
  }

  // The k-th commit granted a probe of id from Open or HalfOpen.
  ghost predicate Granted(cfg: Config, init: Snapshot, commits: seq<Commit>, k: nat, id: string) {
    && k < |commits| && commits[k].op.AllowProbe? && commits[k].op.id == id && commits[k].allowed
    && id in Before(cfg, init, commits, k).providers
    && var c := Before(cfg, init, commits, k).providers[id].circuit; (c == Open || c == HalfOpen)
  }

  lemma {:induction false} FoldNext(cfg: Config, init: Snapshot, commits: seq<Commit>, k: nat)
    requires k < |commits|
    ensures Before(cfg, init, commits, k + 1) == Publish(cfg, commits[k].op, Before(cfg, init, commits, k))
  {
    assert DropLast(commits[..k + 1]) == commits[..k];
  }

  lemma {:induction false} HeldStep(cfg: Config, op: Op, s: Snapshot, id: string)
    requires Held(s, id) && !Releases(op, id)
    ensures Held(Publish(cfg, op, s), id)
  {
  }

  lemma {:induction false} HeldStays(cfg: Config, init: Snapshot, commits: seq<Commit>, lo: nat, hi: nat, id: string)
    requires lo <= hi <= |commits| && Held(Before(cfg, init, commits, lo), id)
    requires forall m :: lo <= m < hi ==> !Releases(commits[m].op, id)
    ensures Held(Before(cfg, init, commits, hi), id)
    decreases hi - lo
  {
    if lo < hi {
      HeldStays(cfg, init, commits, lo, hi - 1, id);
      FoldNext(cfg, init, commits, hi - 1);
      HeldStep(cfg, commits[hi - 1].op, Before(cfg, init, commits, hi - 1), id);
    }
  }

  lemma {:induction false} GrantHolds(cfg: Config, init: Snapshot, commits: seq<Commit>, i: nat, id: string)
    requires AnswersComputed(cfg, init, commits) && Granted(cfg, init, commits, i, id)
    ensures Held(Before(cfg, init, commits, i + 1), id)
  {
    assert Computed(cfg, commits[i].op, Before(cfg, init, commits, i), commits[i].allowed);
    FoldNext(cfg, init, commits, i);
  }

  lemma {:induction false} HeldAnswersFalse(cfg: Config, init: Snapshot, commits: seq<Commit>, i: nat, j: nat, id: string)
    requires AnswersComputed(cfg, init, commits) && i < j < |commits| && Granted(cfg, init, commits, i, id)
    requires commits[j].op.AllowProbe? && commits[j].op.id == id
    requires forall m :: i < m < j ==> !Releases(commits[m].op, id)
    ensures !commits[j].allowed
  {
    GrantHolds(cfg, init, commits, i, id);
    HeldStays(cfg, init, commits, i + 1, j, id);
    assert Computed(cfg, commits[j].op, Before(cfg, init, commits, j), commits[j].allowed);
  }

  /** Between two grants made outside Closed there is a committed report, recovery, trip or explicit SetProvider. */
  lemma {:induction false} GrantsAreSeparated(cfg: Config, init: Snapshot, threads: nat, s: Sys, id: string, i: nat, j: nat)
    requires Reached(cfg, init, threads, s)
    requires i < j && Granted(cfg, init, s.commits, i, id) && Granted(cfg, init, s.commits, j, id)
    ensures exists m :: i < m < j && Releases(s.commits[m].op, id)
  {
    ReachedInv(cfg, init, threads, s);
    RunAnswers(s, init);
    if forall m :: i < m < j ==> !Releases(s.commits[m].op, id) {
      HeldAnswersFalse(cfg, init, s.commits, i, j, id);
    }
  }

  /** Of N callers racing for a probe at most one wins: while nobody reports, all later answers are false. */
  lemma {:induction false} AtMostOneWinner(cfg: Config, init: Snapshot, threads: nat, s: Sys, id: string, i: nat, j: nat)
    requires Reached(cfg, init, threads, s)
    requires i < j < |s.commits| && Granted(cfg, init, s.commits, i, id)
    requires s.commits[j].op.AllowProbe? && s.commits[j].op.id == id
    requires forall m :: i < m < j ==> !Releases(s.commits[m].op, id)
    ensures !s.commits[j].allowed
  {
    ReachedInv(cfg, init, threads, s);
    RunAnswers(s, init);
    HeldAnswersFalse(cfg, init, s.commits, i, j, id);
  }
}
