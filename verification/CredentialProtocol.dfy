/** The credential manager (pkg/auth/manager.go) under any interleaving: threads in Get, Peek and Store, invalidations,
    failing refreshes and writes, and crashes.  Persisting is one atomic step; everything around it interleaves. */
module CredentialProtocol {
  import opened Common
  import opened State
  import opened Credentials

  // Where a thread is.  From Leading to Landing it leads the flight for its key: up to Publishing it runs the singleflight
  // function, and Landing that has returned but can still be joined.  Returning is on its way out of Get or Peek.
  datatype Thread =
    | Idle
    | Storing(key: string, cred: Credential)
    | StorePublishing(key: string, cred: Credential)
    | Reading(key: string, peek: bool)
    | Loading(key: string, peek: bool)
    | LoadPublishing(key: string, peek: bool, cred: Credential)
    | Checking(key: string, cred: Credential)
    | Joining(key: string)
    | Waiting(key: string)
    | Leading(key: string)
    | Deciding(key: string, cred: Credential)
    | Refreshing(key: string, cred: Credential)
    | Failed(key: string, cred: Credential)
    | Persisting(key: string, cred: Credential)
    | Publishing(key: string, cred: Credential)
    | Landing(key: string, result: Result<Credential>)
    | Returning(key: string, peek: bool, result: Result<Credential>)
    | Done(key: string, result: Result<Credential>)
  {
    predicate Leads(k: string) {
      (Leading? || Deciding? || Refreshing? || Failed? || Persisting? || Publishing? || Landing?) && key == k
    }

    // Holds a credential that came from the cache or the disk.
    predicate Holds() {
      StorePublishing? || LoadPublishing? || Checking? || Deciding? || Refreshing? || Failed? || Publishing?
      || ((Landing? || Returning?) && result.Ok?)
    }

    function Held(): Credential
      requires Holds()
    {
      if Landing? || Returning? then result.value else cred
    }
  }

  const ZERO_CREDENTIAL := Credential("", "", "", "", 0, 0, "", "")

  datatype Entry = Entry(key: string, cred: Credential)

  // returned is every credential handed to a caller of Get or Peek, oldest first; it survives a crash.
  datatype Sys = Sys(store: Store, threads: seq<Thread>, returned: seq<Entry>)

  datatype Call = CallGet(key: string) | CallPeek(key: string) | CallStore(key: string, cred: Credential)

  datatype Step = Begin(t: nat, call: Call) | Revoke(key: string, token: string) | Advance(t: nat, env: Env) | Crash

  function Init(disk: Files, refresher: bool, threads: nat): Sys {
    Sys(Store(disk, map[], {}, refresher), seq(threads, _ => Idle), [])
  }

  function First(call: Call): Thread {
    match call
    case CallGet(key) => Reading(key, false)
    case CallPeek(key) => Reading(key, true)
    case CallStore(key, cred) => Storing(key, cred)
  }

  // One atomic step; steps that are not enabled change nothing.
  function Exec(s: Sys, step: Step): Sys {
    match step
    case Begin(t, call) =>
      if t < |s.threads| && (s.threads[t].Idle? || s.threads[t].Done?) then Goto(s, t, First(call)) else s
    case Revoke(key, token) => s.(store := AfterInvalidate(s.store, key, token).0)
    case Advance(t, env) => if t < |s.threads| then Move(s, t, env) else s
    case Crash => Sys(s.store.(cache := map[], revoked := {}), seq(|s.threads|, _ => Idle), s.returned)
  }

  function Goto(s: Sys, t: nat, th: Thread): Sys
    requires t < |s.threads|
  {
    s.(threads := s.threads[t := th])
  }

  function Logged(returned: seq<Entry>, key: string, result: Result<Credential>): seq<Entry> {
    if result.Ok? then returned + [Entry(key, result.value)] else returned
  }

  function Return(s: Sys, t: nat, key: string, result: Result<Credential>): Sys
    requires t < |s.threads|
  {
    Goto(s, t, Done(key, result)).(returned := Logged(s.returned, key, result))
  }

  // The flight for key lands: it can no longer be joined, and its leader and everyone waiting on it have its result.
  function Land(s: Sys, t: nat, key: string, result: Result<Credential>): Sys {
    s.(threads := seq(|s.threads|, u requires 0 <= u < |s.threads| =>
                    if u == t || s.threads[u] == Waiting(key) then Returning(key, false, result) else s.threads[u]))
  }

  predicate InFlight(s: Sys, key: string) {
    exists u :: 0 <= u < |s.threads| && s.threads[u].Leads(key)
  }

  function CachedOrZero(s: Sys, key: string): Credential {
    if key in s.store.cache then s.store.cache[key] else ZERO_CREDENTIAL
  }

  function PersistStep(s: Sys, key: string, cred: Credential, env: Env): Result<Files> {
    Persist(s.store.disk, key, cred, env.readable, env.writable)
  }

  function Cached(s: Sys, key: string, cred: Credential): Sys {
    s.(store := s.store.(cache := s.store.cache[key := cred]))
  }

  function CachedAndCleared(s: Sys, key: string, cred: Credential): Sys {
    s.(store := s.store.(cache := s.store.cache[key := cred], revoked := s.store.revoked - {key}))
  }

  function Move(s: Sys, t: nat, env: Env): Sys
    requires t < |s.threads|
  {
    match s.threads[t]
    case Idle => s
    case Done(_, _) => s
    case Waiting(_) => s
    case Storing(key, cred) =>
      var r := PersistStep(s, key, cred, env);
      if r.Err? then Goto(s, t, Done(key, Err(r.error)))
      else Goto(s.(store := s.store.(disk := r.value)), t, StorePublishing(key, cred))
    case StorePublishing(key, cred) => Goto(CachedAndCleared(s, key, cred), t, Done(key, Ok(cred)))
    case Reading(key, peek) =>
      Goto(s, t, if key !in s.store.cache then Loading(key, peek)
                 else if peek then Returning(key, true, Ok(s.store.cache[key]))
                 else Checking(key, s.store.cache[key]))
    case Loading(key, peek) =>
      var r := LoadFromDisk(s.store.disk, key, env.readable);
      Goto(s, t, if r.Err? then Returning(key, peek, r) else LoadPublishing(key, peek, r.value))
    case LoadPublishing(key, peek, cred) =>
      Goto(Cached(s, key, cred), t, if peek then Returning(key, true, Ok(cred)) else Checking(key, cred))
    case Checking(key, cred) =>
      Goto(s, t, if Fresh(cred, env.now) && key !in s.store.revoked then Returning(key, false, Ok(cred)) else Joining(key))
    case Joining(key) => Goto(s, t, if InFlight(s, key) then Waiting(key) else Leading(key))
    case Leading(key) => Goto(s, t, Deciding(key, CachedOrZero(s, key)))
    case Deciding(key, latest) =>
      Goto(s, t, if Fresh(latest, env.later) && key !in s.store.revoked then Landing(key, Ok(latest))
                 else if s.store.refresher then Refreshing(key, latest)
                 else Landing(key, if Over(latest, env.last) then Err(Expired) else Ok(latest)))
    case Refreshing(key, latest) =>
      Goto(s, t, if env.outcome.None? then Failed(key, latest) else Persisting(key, Bumped(latest, env.outcome.value)))
    case Failed(key, latest) =>
      Goto(s, t, Landing(key, if Over(latest, env.last) then Err(Expired)
                              else if key in s.store.revoked then Err(Invalidated) else Ok(latest)))
    case Persisting(key, cred) =>
      var r := PersistStep(s, key, cred, env);
      if r.Err? then Goto(s, t, Landing(key, Err(r.error)))
      else Goto(s.(store := s.store.(disk := r.value)), t, Publishing(key, cred))
    case Publishing(key, cred) => Goto(CachedAndCleared(s, key, cred), t, Landing(key, Ok(cred)))
    case Landing(key, result) => Land(s, t, key, result)
    case Returning(key, _, result) => Return(s, t, key, result)
  }

  function Run(s: Sys, steps: seq<Step>): Sys {
    if steps == [] then s else Exec(Run(s, DropLast(steps)), Last(steps))
  }

  // The states of a run: the first, and the one after each step.
  function Trace(s0: Sys, steps: seq<Step>): seq<Sys> {
    seq(|steps| + 1, i requires 0 <= i <= |steps| => Run(s0, steps[..i]))
  }

  // ---------------------------------------------------------------- the disk

  // Every file of disk is still there, with at least its generation.
  ghost predicate Grows(disk: Files, disk': Files) {
    forall k :: k in disk ==> k in disk' && disk[k].generation <= disk'[k].generation
  }

  /** The step renames a file over a newer one it could not read: the one way past the generation check. */
  predicate Clobbers(s: Sys, step: Step) {
    && step.Advance? && step.t < |s.threads| && (s.threads[step.t].Storing? || s.threads[step.t].Persisting?)
    && !step.env.readable && step.env.writable
    && s.threads[step.t].key in s.store.disk
    && s.threads[step.t].cred.generation < s.store.disk[s.threads[step.t].key].generation
  }

  lemma {:induction false} GrowsUnlessClobbered(s: Sys, step: Step)
    ensures Grows(s.store.disk, Exec(s, step).store.disk) <==> !Clobbers(s, step)
  {
    var s' := Exec(s, step);
    if Clobbers(s, step) {
      var th := s.threads[step.t];
      assert s'.store.disk[th.key] == th.cred;
    } else if step.Advance? && step.t < |s.threads| {
      var th := s.threads[step.t];
      if th.Storing? || th.Persisting? {
        var r := PersistStep(s, th.key, th.cred, step.env);
        assert s'.store.disk == if r.Ok? then r.value else s.store.disk;
      } else {
        assert s'.store.disk == s.store.disk;
      }
    }
  }

  ghost predicate NeverClobbers(s: Sys, steps: seq<Step>) {
    forall i :: 0 <= i < |steps| ==> !Clobbers(Run(s, steps[..i]), steps[i])
  }

  ghost predicate NeverShrinks(s: Sys, steps: seq<Step>) {
    forall i :: 0 <= i < |steps| ==> Grows(Run(s, steps[..i]).store.disk, Run(s, steps[..i + 1]).store.disk)
  }

  lemma {:induction false} RunNext(s: Sys, steps: seq<Step>, i: nat)
    requires i < |steps|
    ensures Run(s, steps[..i + 1]) == Exec(Run(s, steps[..i]), steps[i])
  {
    assert DropLast(steps[..i + 1]) == steps[..i];
  }

  /** Over any run the disk generation of a key never goes down exactly when no step overwrites a newer file it could
      not read. */
  lemma {:induction false} DiskNeverShrinksIff(s: Sys, steps: seq<Step>)
    ensures NeverShrinks(s, steps) <==> NeverClobbers(s, steps)
  {
    forall i | 0 <= i < |steps|
      ensures Grows(Run(s, steps[..i]).store.disk, Run(s, steps[..i + 1]).store.disk)
              <==> !Clobbers(Run(s, steps[..i]), steps[i])
    {
      RunNext(s, steps, i);
      GrowsUnlessClobbered(Run(s, steps[..i]), steps[i]);
    }
    if NeverShrinks(s, steps) {
      forall i | 0 <= i < |steps| ensures !Clobbers(Run(s, steps[..i]), steps[i]) {
        assert Grows(Run(s, steps[..i]).store.disk, Run(s, steps[..i + 1]).store.disk);
      }
    }
  }

  // ---------------------------------------------------------------- the invariant

  // No newer than the file of its key and, where base has the key, no older than base.
  predicate Within(base: Files, disk: Files, key: string, cred: Credential) {
    && key in disk && cred.generation <= disk[key].generation
    && (key in base ==> base[key].generation <= cred.generation)
  }

  ghost predicate CacheOk(s: Sys, base: Files) {
    forall k :: k in s.store.cache ==> Within(base, s.store.disk, k, s.store.cache[k])
  }

  predicate ThreadOk(store: Store, base: Files, th: Thread) {
    && (th.Holds() ==> Within(base, store.disk, th.key, th.Held()))
    && (th.Checking? || th.Joining? || th.Waiting? || th.Leading? ==> th.key in store.cache)
  }

  ghost predicate ThreadsOk(s: Sys, base: Files) {
    forall t :: 0 <= t < |s.threads| ==> ThreadOk(s.store, base, s.threads[t])
  }

  // Entries from n on.
  ghost predicate ReturnedOk(s: Sys, base: Files, n: nat) {
    forall j :: n <= j < |s.returned| ==> Within(base, s.store.disk, s.returned[j].key, s.returned[j].cred)
  }

  /** base is the disk at the last crash and n what had been returned by then. */
  ghost predicate Inv(s: Sys, base: Files, n: nat) {
    Grows(base, s.store.disk) && CacheOk(s, base) && ThreadsOk(s, base) && ReturnedOk(s, base, n)
  }

  // What a step may do to the shared state without hurting the other threads.
  ghost predicate Extends(store: Store, store': Store) {
    Grows(store.disk, store'.disk) && store.cache.Keys <= store'.cache.Keys
  }

  // The thread's own move: the new store is fine, and so are its new place and what it returned.
  ghost predicate MoveOk(s: Sys, s': Sys, base: Files, t: nat) {
    && Extends(s.store, s'.store) && CacheOk(s', base)
    && |s'.threads| == |s.threads| && t < |s.threads| && ThreadOk(s'.store, base, s'.threads[t])
    && (forall u :: 0 <= u < |s.threads| && u != t ==>
          s'.threads[u] == s.threads[u] || ThreadOk(s'.store, base, s'.threads[u]))
    && (s'.returned == s.returned
        || exists e :: s'.returned == s.returned + [e] && Within(base, s'.store.disk, e.key, e.cred))
  }

  lemma {:induction false} MoveKeeps(s: Sys, s': Sys, base: Files, n: nat, t: nat)
    requires Inv(s, base, n) && MoveOk(s, s', base, t)
    ensures Inv(s', base, n)
  {
    forall u | 0 <= u < |s'.threads| ensures ThreadOk(s'.store, base, s'.threads[u]) {
      if u != t {
        assert ThreadOk(s.store, base, s.threads[u]);
      }
    }
  }

  // A move of t to th that keeps the store or changes it to a fine one, and returns nothing.
  lemma {:induction false} GotoOk(s: Sys, store: Store, base: Files, t: nat, th: Thread)
    requires t < |s.threads| && Extends(s.store, store) && CacheOk(s.(store := store), base) && ThreadOk(store, base, th)
    ensures MoveOk(s, Goto(s.(store := store), t, th), base, t)
  {
  }

  lemma {:induction false} PersistMove(s: Sys, base: Files, n: nat, t: nat, env: Env)
    requires Inv(s, base, n) && t < |s.threads| && !Clobbers(s, Advance(t, env))
    requires s.threads[t].Storing? || s.threads[t].Persisting?
    ensures MoveOk(s, Move(s, t, env), base, t)
  {
    var th := s.threads[t];
    var r := PersistStep(s, th.key, th.cred, env);
    if r.Ok? {
      PersistedOk(s, base, t, env);
      GotoOk(s, s.store.(disk := r.value), base, t,
             if th.Storing? then StorePublishing(th.key, th.cred) else Publishing(th.key, th.cred));
    } else {
      GotoOk(s, s.store, base, t, if th.Storing? then Done(th.key, Err(r.error)) else Landing(th.key, Err(r.error)));
      assert s.(store := s.store) == s;
    }
  }

  // The disk after a write that did not clobber.
  lemma {:induction false} PersistedOk(s: Sys, base: Files, t: nat, env: Env)
    requires Grows(base, s.store.disk) && CacheOk(s, base) && t < |s.threads| && !Clobbers(s, Advance(t, env))
    requires s.threads[t].Storing? || s.threads[t].Persisting?
    requires PersistStep(s, s.threads[t].key, s.threads[t].cred, env).Ok?
    ensures var th := s.threads[t]; var disk := PersistStep(s, th.key, th.cred, env).value;
      && disk == s.store.disk[th.key := th.cred] && Grows(s.store.disk, disk) && Within(base, disk, th.key, th.cred)
      && CacheOk(s.(store := s.store.(disk := disk)), base)
  {
  }

  lemma {:induction false} PublishMove(s: Sys, base: Files, n: nat, t: nat, env: Env)
    requires Inv(s, base, n) && t < |s.threads|
    requires s.threads[t].StorePublishing? || s.threads[t].Publishing? || s.threads[t].LoadPublishing?
    ensures MoveOk(s, Move(s, t, env), base, t)
  {
    assert ThreadOk(s.store, base, s.threads[t]);
  }

  // Moves that only read the shared state.
  lemma {:induction false} ReadMove(s: Sys, base: Files, n: nat, t: nat, env: Env)
    requires Inv(s, base, n) && t < |s.threads| && (s.threads[t].Reading? || s.threads[t].Loading? || s.threads[t].Checking?)
    ensures MoveOk(s, Move(s, t, env), base, t)
  {
    assert ThreadOk(s.store, base, s.threads[t]);
  }

  lemma {:induction false} FlightMove(s: Sys, base: Files, n: nat, t: nat, env: Env)
    requires Inv(s, base, n) && t < |s.threads| && (s.threads[t].Joining? || s.threads[t].Leading?)
    ensures MoveOk(s, Move(s, t, env), base, t)
  {
    assert ThreadOk(s.store, base, s.threads[t]);
  }

  lemma {:induction false} RefreshMove(s: Sys, base: Files, n: nat, t: nat, env: Env)
    requires Inv(s, base, n) && t < |s.threads| && s.threads[t].Refreshing?
    ensures MoveOk(s, Move(s, t, env), base, t)
  {
    assert ThreadOk(s.store, base, s.threads[t]);
  }

  lemma {:induction false} DecideMove(s: Sys, base: Files, n: nat, t: nat, env: Env)
    requires Inv(s, base, n) && t < |s.threads| && (s.threads[t].Deciding? || s.threads[t].Failed?)
    ensures MoveOk(s, Move(s, t, env), base, t)
  {
    assert ThreadOk(s.store, base, s.threads[t]);
  }

  lemma {:induction false} LandMove(s: Sys, base: Files, n: nat, t: nat, env: Env)
    requires Inv(s, base, n) && t < |s.threads| && s.threads[t].Landing?
    ensures MoveOk(s, Move(s, t, env), base, t)
  {
    assert ThreadOk(s.store, base, s.threads[t]);
  }

  lemma {:induction false} ReturnMove(s: Sys, base: Files, n: nat, t: nat, env: Env)
    requires Inv(s, base, n) && t < |s.threads| && s.threads[t].Returning?
    ensures MoveOk(s, Move(s, t, env), base, t)
  {
    var th := s.threads[t];
    assert ThreadOk(s.store, base, th);
    if th.result.Ok? {
      assert Move(s, t, env).returned == s.returned + [Entry(th.key, th.result.value)];
    }
  }

  lemma {:induction false} AdvanceOk(s: Sys, base: Files, n: nat, t: nat, env: Env)
    requires Inv(s, base, n) && t < |s.threads| && !Clobbers(s, Advance(t, env))
    requires !s.threads[t].Idle? && !s.threads[t].Done? && !s.threads[t].Waiting?
    ensures MoveOk(s, Move(s, t, env), base, t)
  {
    var th := s.threads[t];
    if th.Storing? || th.Persisting? {
      PersistMove(s, base, n, t, env);
    } else if th.StorePublishing? || th.Publishing? || th.LoadPublishing? {
      PublishMove(s, base, n, t, env);
    } else if th.Deciding? || th.Failed? {
      DecideMove(s, base, n, t, env);
    } else if th.Joining? || th.Leading? {
      FlightMove(s, base, n, t, env);
    } else if th.Refreshing? {
      RefreshMove(s, base, n, t, env);
    } else if th.Landing? {
      LandMove(s, base, n, t, env);
    } else if th.Returning? {
      ReturnMove(s, base, n, t, env);
    } else {
      ReadMove(s, base, n, t, env);
    }
  }

  lemma {:induction false} ExecInv(s: Sys, base: Files, n: nat, step: Step)
    requires Inv(s, base, n) && !Clobbers(s, step)
    ensures Inv(Exec(s, step), base, n)
  {
    match step
    case Begin(_, _) =>
    case Revoke(_, _) =>
    case Crash =>
    case Advance(t, env) =>
      if t < |s.threads| && !s.threads[t].Idle? && !s.threads[t].Done? && !s.threads[t].Waiting? {
        AdvanceOk(s, base, n, t, env);
        MoveKeeps(s, Move(s, t, env), base, n, t);
      }
  }

  lemma {:induction false} RunInv(s: Sys, base: Files, n: nat, steps: seq<Step>)
    requires Inv(s, base, n) && NeverClobbers(s, steps)
    ensures Inv(Run(s, steps), base, n)
    decreases |steps|
  {
    if steps != [] {
      var front := DropLast(steps);
      assert NeverClobbers(s, front) by {
        forall i | 0 <= i < |front| ensures !Clobbers(Run(s, front[..i]), front[i]) {
          assert front[..i] == steps[..i];
        }
      }
      RunInv(s, base, n, front);
      assert steps[..|steps| - 1] == front;
      ExecInv(Run(s, front), base, n, Last(steps));
    }
  }

  /** Whatever is in memory or was ever returned is no newer than the file a restart would load. */
  lemma {:induction false} MemoryIsDurable(disk: Files, refresher: bool, threads: nat, steps: seq<Step>)
    requires NeverClobbers(Init(disk, refresher, threads), steps)
    ensures var s := Run(Init(disk, refresher, threads), steps);
      && (forall k :: k in s.store.cache ==> k in s.store.disk && s.store.cache[k].generation <= s.store.disk[k].generation)
      && (forall e :: e in s.returned ==> e.key in s.store.disk && e.cred.generation <= s.store.disk[e.key].generation)
  {
    RunInv(Init(disk, refresher, threads), disk, 0, steps);
  }

  /** What any caller gets after a crash is at least as new as everything returned for that key before it. */
  lemma {:induction false} CrashLosesNothing(disk: Files, refresher: bool, threads: nat, before: seq<Step>, after: seq<Step>)
    requires NeverClobbers(Init(disk, refresher, threads), before)
    requires NeverClobbers(Exec(Run(Init(disk, refresher, threads), before), Crash), after)
    ensures var crashed := Exec(Run(Init(disk, refresher, threads), before), Crash);
            var end := Run(crashed, after);
      forall i, j :: 0 <= i < |crashed.returned| <= j < |end.returned| && crashed.returned[i].key == end.returned[j].key
        ==> crashed.returned[i].cred.generation <= end.returned[j].cred.generation
  {
    var s := Run(Init(disk, refresher, threads), before);
    RunInv(Init(disk, refresher, threads), disk, 0, before);
    var crashed := Exec(s, Crash);
    RunInv(crashed, crashed.store.disk, |crashed.returned|, after);
  }

  // ---------------------------------------------------------------- one refresh at a time

  ghost predicate OneLeader(s: Sys) {
    forall t, u, k :: 0 <= t < u < |s.threads| && s.threads[t].Leads(k) ==> !s.threads[u].Leads(k)
  }

  ghost predicate WaitersAreLed(s: Sys) {
    forall u :: 0 <= u < |s.threads| && s.threads[u].Waiting? ==> InFlight(s, s.threads[u].key)
  }

  ghost predicate FlightInv(s: Sys) {
    OneLeader(s) && WaitersAreLed(s)
  }

  lemma {:induction false} StillInFlight(s: Sys, t: nat, th: Thread, key: string)
    requires t < |s.threads| && InFlight(s, key) && (s.threads[t].Leads(key) ==> th.Leads(key))
    ensures InFlight(s.(threads := s.threads[t := th]), key)
  {
    var u :| 0 <= u < |s.threads| && s.threads[u].Leads(key);
    assert s.threads[t := th][u].Leads(key);
  }

  // A thread that moves within its flight, or outside any, or into one it found empty.
  lemma {:induction false} GotoFlight(s: Sys, t: nat, th: Thread)
    requires FlightInv(s) && t < |s.threads|
    requires forall k :: s.threads[t].Leads(k) ==> th.Leads(k)
    requires forall k :: th.Leads(k) && !s.threads[t].Leads(k) ==> !InFlight(s, k)
    requires th.Waiting? ==> InFlight(s, th.key)
    ensures FlightInv(s.(threads := s.threads[t := th]))
  {
    var s' := s.(threads := s.threads[t := th]);
    forall u | 0 <= u < |s'.threads| && s'.threads[u].Waiting? ensures InFlight(s', s'.threads[u].key) {
      StillInFlight(s, t, th, s'.threads[u].key);
    }
  }

  lemma {:induction false} LandFlight(s: Sys, t: nat, key: string, result: Result<Credential>)
    requires FlightInv(s) && t < |s.threads| && s.threads[t].Leads(key)
    ensures FlightInv(Land(s, t, key, result))
    ensures !InFlight(Land(s, t, key, result), key)
  {
    var s' := Land(s, t, key, result);
    forall u | 0 <= u < |s'.threads| && s'.threads[u].Waiting? ensures InFlight(s', s'.threads[u].key) {
      var v :| 0 <= v < |s.threads| && s.threads[v].Leads(s.threads[u].key);
      assert s'.threads[v].Leads(s'.threads[u].key);
    }
  }

  lemma {:induction false} ExecFlight(s: Sys, step: Step)
    requires FlightInv(s)
    ensures FlightInv(Exec(s, step))
  {
    var s' := Exec(s, step);
    match step
    case Begin(t, call) =>
      if s' != s {
        GotoFlight(s, t, First(call));
      }
    case Revoke(_, _) =>
      assert s'.threads == s.threads;
    case Crash =>
    case Advance(t, env) =>
      if t < |s.threads| {
        AdvanceFlight(s, t, env);
      }
  }

  lemma {:induction false} AdvanceFlight(s: Sys, t: nat, env: Env)
    requires FlightInv(s) && t < |s.threads|
    ensures FlightInv(Move(s, t, env))
  {
    var th, s' := s.threads[t], Move(s, t, env);
    if th.Landing? {
      LandFlight(s, t, th.key, th.result);
    } else {
      GotoFlight(s, t, s'.threads[t]);
    }
  }

  /** In every reachable state at most one thread runs the refresh of a key, and nobody waits for a flight that has no
      leader. */
  lemma {:induction false} OneRefreshPerKey(disk: Files, refresher: bool, threads: nat, steps: seq<Step>)
    ensures FlightInv(Run(Init(disk, refresher, threads), steps))
    decreases |steps|
  {
    if steps != [] {
      OneRefreshPerKey(disk, refresher, threads, DropLast(steps));
      ExecFlight(Run(Init(disk, refresher, threads), DropLast(steps)), Last(steps));
    }
  }

  // ---------------------------------------------------------------- what does not hold without a crash

  lemma {:induction false} RunAppend(s: Sys, a: seq<Step>, step: Step)
    ensures Run(s, a + [step]) == Exec(Run(s, a), step)
  {
    assert DropLast(a + [step]) == a;
  }

  lemma {:induction false} RunConcat(s: Sys, a: seq<Step>, b: seq<Step>)
    ensures Run(s, a + b) == Run(Run(s, a), b)
    decreases |b|
  {
    if b == [] {
      assert a + b == a;
    } else {
      RunConcat(s, a, DropLast(b));
      assert a + b == (a + DropLast(b)) + [Last(b)];
      RunAppend(s, a + DropLast(b), Last(b));
    }
  }

  // Two stores have persisted, older first.
  function Persisted(older: Credential, newer: Credential): Sys {
    Sys(Store(map["k" := newer], map[], {}, true), [StorePublishing("k", older), StorePublishing("k", newer), Idle], [])
  }

  function BothStoring(older: Credential, newer: Credential): Sys {
    Sys(Store(map[], map[], {}, true), [Storing("k", older), Storing("k", newer), Idle], [])
  }

  lemma {:induction false} ReachStoring(older: Credential, newer: Credential) returns (steps: seq<Step>)
    ensures Run(Init(map[], true, 3), steps) == BothStoring(older, newer)
  {
    var s0, first := Init(map[], true, 3), [Begin(0, CallStore("k", older))];
    RunAppend(s0, [], first[0]);
    assert [] + first == first;
    assert Run(s0, first) == s0.(threads := [Storing("k", older), Idle, Idle]);
    RunAppend(s0, first, Begin(1, CallStore("k", newer)));
    steps := first + [Begin(1, CallStore("k", newer))];
  }

  lemma {:induction false} ReachPersisted(older: Credential, newer: Credential, env: Env) returns (steps: seq<Step>)
    requires older.generation < newer.generation && env.readable && env.writable
    ensures Run(Init(map[], true, 3), steps) == Persisted(older, newer)
  {
    var s0 := Init(map[], true, 3);
    steps := ReachStoring(older, newer);
    RunAppend(s0, steps, Advance(0, env));
    steps := steps + [Advance(0, env)];
    assert Run(s0, steps) == BothStoring(older, newer).(store := Store(map["k" := older], map[], {}, true),
                                                       threads := [StorePublishing("k", older), Storing("k", newer), Idle]);
    RunAppend(s0, steps, Advance(1, env));
    steps := steps + [Advance(1, env)];
  }

  // The two moves of a Peek that finds its key in the cache.
  lemma {:induction false} PeekMoves(s: Sys, t: nat, key: string, env: Env)
    requires t < |s.threads| && key in s.store.cache
    ensures var cred := s.store.cache[key];
      && Exec(Goto(s, t, Reading(key, true)), Advance(t, env)) == Goto(s, t, Returning(key, true, Ok(cred)))
      && Exec(Goto(s, t, Returning(key, true, Ok(cred))), Advance(t, env))
         == Sys(s.store, s.threads[t := Done(key, Ok(cred))], s.returned + [Entry(key, cred)])
  {
    var cred := s.store.cache[key];
    assert s.threads[t := Reading(key, true)][t := Returning(key, true, Ok(cred))] == s.threads[t := Returning(key, true, Ok(cred))];
    assert s.threads[t := Returning(key, true, Ok(cred))][t := Done(key, Ok(cred))] == s.threads[t := Done(key, Ok(cred))];
  }

  // A third thread peeks.
  lemma {:induction false} PeekSees(s: Sys, t: nat, key: string, env: Env)
    requires t < |s.threads| && (s.threads[t].Idle? || s.threads[t].Done?) && key in s.store.cache
    ensures var cred := s.store.cache[key];
      Run(s, Peeking(t, key, env)) == Sys(s.store, s.threads[t := Done(key, Ok(cred))], s.returned + [Entry(key, cred)])
  {
    var first := [Begin(t, CallPeek(key))];
    RunAppend(s, [], first[0]);
    assert [] + first == first;
    PeekMoves(s, t, key, env);
    RunAppend(s, first, Advance(t, env));
    RunAppend(s, first + [Advance(t, env)], Advance(t, env));
  }

  // A Peek that finds its key in the cache.
  function Peeking(t: nat, key: string, env: Env): seq<Step> {
    [Begin(t, CallPeek(key))] + [Advance(t, env)] + [Advance(t, env)]
  }

  // A store's publication, seen by the third thread.
  lemma {:induction false} PublishThenPeek(s: Sys, t: nat, cred: Credential, env: Env)
    requires t < 2 && |s.threads| == 3 && s.threads[t] == StorePublishing("k", cred) && (s.threads[2].Idle? || s.threads[2].Done?)
    ensures Run(s, [Advance(t, env)] + Peeking(2, "k", env))
         == Sys(Store(s.store.disk, s.store.cache["k" := cred], s.store.revoked - {"k"}, s.store.refresher),
                s.threads[t := Done("k", Ok(cred))][2 := Done("k", Ok(cred))], s.returned + [Entry("k", cred)])
  {
    var first := [Advance(t, env)];
    RunAppend(s, [], first[0]);
    assert [] + first == first;
    RunConcat(s, first, Peeking(2, "k", env));
    PeekSees(Run(s, first), 2, "k", env);
  }

  // The newer credential has been seen, and the older one is still to be published.
  lemma {:induction false} ReachSeen(older: Credential, newer: Credential, env: Env) returns (steps: seq<Step>)
    requires older.generation < newer.generation && env.readable && env.writable
    ensures var s := Run(Init(map[], true, 3), steps);
      && |s.threads| == 3 && s.threads[0] == StorePublishing("k", older) && s.threads[2].Done?
      && s.store.disk == map["k" := newer] && s.returned == [Entry("k", newer)]
  {
    var more := [Advance(1, env)] + Peeking(2, "k", env);
    var before := ReachPersisted(older, newer, env);
    RunConcat(Init(map[], true, 3), before, more);
    PublishThenPeek(Persisted(older, newer), 1, newer, env);
    steps := before + more;
  }

  /** Two racing stores can publish in the other order than they persisted, and then readers see the generation go
      back; a restart would not. */
  lemma {:induction false} CacheMayGoBack(older: Credential, newer: Credential, env: Env)
    requires older.generation < newer.generation && env.readable && env.writable
    ensures exists steps :: var s := Run(Init(map[], true, 3), steps);
              s.returned == [Entry("k", newer), Entry("k", older)] && s.store.disk == map["k" := newer]
  {
    var s0, more := Init(map[], true, 3), [Advance(0, env)] + Peeking(2, "k", env);
    var steps := ReachSeen(older, newer, env);
    RunConcat(s0, steps, more);
    PublishThenPeek(Run(s0, steps), 0, older, env);
  }

  // ---------------------------------------------------------------- what it takes for the disk not to shrink

  function Blind(older: Credential, newer: Credential, env: Env): seq<Step> {
    [Begin(0, CallStore("k", newer))] + [Advance(0, env)] + [Begin(1, CallStore("k", older))] + [Advance(1, env)]
  }

  // The newer credential is on the disk, and the older one is about to be written.
  lemma {:induction false} BlindWrites(older: Credential, newer: Credential, env: Env)
    requires env.writable
    ensures var steps := Blind(older, newer, env);
      Run(Init(map[], true, 2), steps[..3])
      == Sys(Store(map["k" := newer], map[], {}, true), [StorePublishing("k", newer), Storing("k", older)], [])
  {
    var s0, steps := Init(map[], true, 2), Blind(older, newer, env);
    RunNext(s0, steps, 0);
    assert steps[..0] == [];
    var s1 := s0.(threads := [Storing("k", newer), Idle]);
    assert Run(s0, steps[..1]) == s1;
    RunNext(s0, steps, 1);
    var s2 := Sys(Store(map["k" := newer], map[], {}, true), [StorePublishing("k", newer), Idle], []);
    assert Run(s0, steps[..2]) == s2;
    RunNext(s0, steps, 2);
  }

  /** The failure is reachable: two stores in a row, the second of an older credential and unable to read the file. */
  lemma {:induction false} BlindStoreShrinks(older: Credential, newer: Credential, env: Env)
    requires older.generation < newer.generation && !env.readable && env.writable
    ensures !NeverShrinks(Init(map[], true, 2), Blind(older, newer, env))
  {
    var s0, steps := Init(map[], true, 2), Blind(older, newer, env);
    BlindWrites(older, newer, env);
    assert Clobbers(Run(s0, steps[..3]), steps[3]);
    DiskNeverShrinksIff(s0, steps);
  }

  // Every step of the run has an environment that allowed admits.
  ghost predicate Admitted(allowed: Env -> bool, steps: seq<Step>) {
    forall i :: 0 <= i < |steps| && steps[i].Advance? ==> allowed(steps[i].env)
  }

  /** Whatever the credentials and the schedule, no run shrinks a file, exactly when nobody can write who cannot read. */
  lemma {:induction false} NobodyShrinksIff(allowed: Env -> bool)
    ensures (forall disk, refresher, threads, steps :: Admitted(allowed, steps) ==> NeverShrinks(Init(disk, refresher, threads), steps))
       <==> (forall env :: allowed(env) ==> env.readable || !env.writable)
  {
    if forall env :: allowed(env) ==> env.readable || !env.writable {
      forall disk, refresher, threads, steps | Admitted(allowed, steps) ensures NeverShrinks(Init(disk, refresher, threads), steps) {
        DiskNeverShrinksIff(Init(disk, refresher, threads), steps);
      }
    } else {
      var env :| allowed(env) && !env.readable && env.writable;
      var newer := ZERO_CREDENTIAL.(generation := 1);
      BlindStoreShrinks(ZERO_CREDENTIAL, newer, env);
      assert Admitted(allowed, Blind(ZERO_CREDENTIAL, newer, env));
    }
  }
}
