/** When readers of the credential cache can see a key's generation go back, in runs of CredentialProtocol without a crash:
    exactly when a publication overtakes one whose credential was written or loaded later. */
module CredentialOrder {
  import opened Common
  import opened State
  import opened Credentials
  import opened CredentialProtocol

  predicate AboutToPublish(th: Thread) {
    th.StorePublishing? || th.LoadPublishing? || th.Publishing?
  }

  // Step i puts a credential of key into the cache.
  predicate Publishes(tr: seq<Sys>, steps: seq<Step>, i: nat, key: string) {
    && i < |steps| && i < |tr| && steps[i].Advance? && steps[i].t < |tr[i].threads|
    && AboutToPublish(tr[i].threads[steps[i].t]) && tr[i].threads[steps[i].t].key == key
  }

  function PublishedCred(tr: seq<Sys>, steps: seq<Step>, i: nat, key: string): Credential
    requires Publishes(tr, steps, i, key)
  {
    tr[i].threads[steps[i].t].cred
  }

  /** j is the step before i of the same thread: for a publication at i, the write or the load it publishes. */
  predicate ObtainedAt(steps: seq<Step>, i: nat, j: nat) {
    && j < i < |steps| && steps[i].Advance? && steps[j].Advance? && steps[j].t == steps[i].t
    && forall m :: j < m < i && steps[m].Advance? ==> steps[m].t != steps[i].t
  }

  /** The publication at i2 comes after the one at i1 although its credential was written or loaded before, and is older. */
  predicate Overtakes(tr: seq<Sys>, steps: seq<Step>, key: string, i1: nat, i2: nat, j1: nat, j2: nat) {
    && i1 < i2 && j2 < j1 && ObtainedAt(steps, i1, j1) && ObtainedAt(steps, i2, j2)
    && Publishes(tr, steps, i1, key) && Publishes(tr, steps, i2, key)
    && PublishedCred(tr, steps, i2, key).generation < PublishedCred(tr, steps, i1, key).generation
  }

  ghost predicate SomethingOvertakes(tr: seq<Sys>, steps: seq<Step>, key: string) {
    exists i1: nat, i2: nat, j1: nat, j2: nat :: Overtakes(tr, steps, key, i1, i2, j1, j2)
  }

  predicate NoCrash(steps: seq<Step>) {
    forall i :: 0 <= i < |steps| ==> !steps[i].Crash?
  }

  // What a reader of the cache sees of key does not become older from state s to state s'.
  predicate KeepsUp(s: Sys, s': Sys, key: string) {
    key in s.store.cache ==> key in s'.store.cache && s.store.cache[key].generation <= s'.store.cache[key].generation
  }

  /** What readers of the cache see of key never becomes older. */
  predicate NeverGoesBack(tr: seq<Sys>, key: string) {
    forall i :: 0 <= i < |tr| - 1 ==> KeepsUp(tr[i], tr[i + 1], key)
  }

  // ---------------------------------------------------------------- single steps

  // Only a publication changes the cache.
  ghost predicate CacheMoves(s: Sys, t: nat, env: Env, key: string)
    requires t < |s.threads|
  {
    var s', th := Move(s, t, env), s.threads[t];
    if AboutToPublish(th) && th.key == key then key in s'.store.cache && s'.store.cache[key] == th.cred
    else (key in s'.store.cache <==> key in s.store.cache) && (key in s.store.cache ==> s'.store.cache[key] == s.store.cache[key])
  }

  lemma {:induction false} PublishingMove(s: Sys, t: nat, env: Env, key: string)
    requires t < |s.threads| && AboutToPublish(s.threads[t])
    ensures CacheMoves(s, t, env, key)
  {
  }

  lemma {:induction false} OtherMove(s: Sys, t: nat, env: Env)
    requires t < |s.threads| && !AboutToPublish(s.threads[t])
    ensures Move(s, t, env).store.cache == s.store.cache
  {
  }

  ghost predicate CacheOk(s: Sys, step: Step, s': Sys, key: string) {
    if step.Advance? && step.t < |s.threads| && AboutToPublish(s.threads[step.t]) && s.threads[step.t].key == key then
      key in s'.store.cache && s'.store.cache[key] == s.threads[step.t].cred
    else (key in s'.store.cache <==> key in s.store.cache) && (key in s.store.cache ==> s'.store.cache[key] == s.store.cache[key])
  }

  lemma {:induction false} CacheStep(s: Sys, step: Step, key: string)
    requires !step.Crash?
    ensures CacheOk(s, step, Exec(s, step), key)
  {
    if step.Advance? && step.t < |s.threads| {
      if AboutToPublish(s.threads[step.t]) {
        PublishingMove(s, step.t, step.env, key);
      } else {
        OtherMove(s, step.t, step.env);
      }
    }
  }

  // What a thread is about to publish is on the disk.
  predicate Ready(s: Sys, t: nat) {
    && t < |s.threads|
    && (AboutToPublish(s.threads[t]) ==> s.threads[t].key in s.store.disk && s.store.disk[s.threads[t].key] == s.threads[t].cred)
  }

  lemma {:induction false} WriteReady(s: Sys, t: nat, env: Env)
    requires t < |s.threads| && (s.threads[t].Storing? || s.threads[t].Persisting?)
    ensures Ready(Move(s, t, env), t)
  {
  }

  lemma {:induction false} LoadReady(s: Sys, t: nat, env: Env)
    requires t < |s.threads| && s.threads[t].Loading?
    ensures Ready(Move(s, t, env), t)
  {
  }

  lemma {:induction false} NeverReady(s: Sys, t: nat, env: Env)
    requires t < |s.threads| && !s.threads[t].Storing? && !s.threads[t].Persisting? && !s.threads[t].Loading?
    requires !AboutToPublish(s.threads[t])
    ensures t < |Move(s, t, env).threads| && !AboutToPublish(Move(s, t, env).threads[t])
  {
  }

  lemma {:induction false} Published(s: Sys, t: nat, env: Env)
    requires t < |s.threads| && AboutToPublish(s.threads[t])
    ensures t < |Move(s, t, env).threads| && !AboutToPublish(Move(s, t, env).threads[t])
  {
  }

  // A thread's own move to publishing leaves its credential on the disk.
  lemma {:induction false} OwnReady(s: Sys, t: nat, env: Env)
    requires t < |s.threads|
    ensures Ready(Move(s, t, env), t)
  {
    if s.threads[t].Storing? || s.threads[t].Persisting? {
      WriteReady(s, t, env);
    } else if s.threads[t].Loading? {
      LoadReady(s, t, env);
    } else if AboutToPublish(s.threads[t]) {
      Published(s, t, env);
    } else {
      NeverReady(s, t, env);
    }
  }

  // Nobody else's move makes a thread publish.
  lemma {:induction false} OthersReady(s: Sys, u: nat, env: Env, t: nat)
    requires u < |s.threads| && t < |s.threads| && u != t
    ensures var s' := Move(s, u, env); t < |s'.threads| && (s'.threads[t] == s.threads[t] || s'.threads[t].Returning?)
  {
  }

  ghost predicate ReadyOk(s: Sys, step: Step, s': Sys) {
    && |s'.threads| == |s.threads|
    && forall t :: 0 <= t < |s'.threads| && AboutToPublish(s'.threads[t]) ==>
         if step.Advance? && step.t == t then Ready(s', t) else s.threads[t] == s'.threads[t]
  }

  lemma {:induction false} ReadyStep(s: Sys, step: Step, t: nat)
    requires !step.Crash? && t < |s.threads|
    ensures var s' := Exec(s, step);
      && |s'.threads| == |s.threads|
      && (AboutToPublish(s'.threads[t]) ==> if step.Advance? && step.t == t then Ready(s', t) else s.threads[t] == s'.threads[t])
  {
    if step.Advance? && step.t < |s.threads| {
      if step.t == t {
        OwnReady(s, t, step.env);
      } else {
        OthersReady(s, step.t, step.env, t);
      }
    }
  }

  // ---------------------------------------------------------------- what is known of a run

  // A run without a crash and without a file overwritten unread.
  ghost predicate Tame(tr: seq<Sys>, steps: seq<Step>, key: string) {
    && |tr| == |steps| + 1 && tr[0].store.cache == map[] && (forall u :: 0 <= u < |tr[0].threads| ==> tr[0].threads[u].Idle?)
    && (forall i :: 0 <= i < |steps| ==> CacheOk(tr[i], steps[i], tr[i + 1], key))
    && (forall i :: 0 <= i < |steps| ==> ReadyOk(tr[i], steps[i], tr[i + 1]))
    && (forall i :: 0 <= i < |steps| ==> Grows(tr[i].store.disk, tr[i + 1].store.disk))
  }

  lemma {:induction false} TameStep(s: Sys, step: Step, key: string)
    requires !step.Crash? && !Clobbers(s, step)
    ensures var s' := Exec(s, step); CacheOk(s, step, s', key) && ReadyOk(s, step, s') && Grows(s.store.disk, s'.store.disk)
  {
    var s' := Exec(s, step);
    CacheStep(s, step, key);
    GrowsUnlessClobbered(s, step);
    if s.threads == [] {
      assert s'.threads == [];
    } else {
      ReadyStep(s, step, 0);
    }
    forall t | 0 <= t < |s'.threads| && AboutToPublish(s'.threads[t])
      ensures if step.Advance? && step.t == t then Ready(s', t) else s.threads[t] == s'.threads[t]
    {
      ReadyStep(s, step, t);
    }
  }

  lemma {:induction false} RunIsTame(disk: Files, refresher: bool, threads: nat, steps: seq<Step>, key: string)
    requires NoCrash(steps) && NeverClobbers(Init(disk, refresher, threads), steps)
    ensures Tame(Trace(Init(disk, refresher, threads), steps), steps, key)
  {
    var s0 := Init(disk, refresher, threads);
    var tr := Trace(s0, steps);
    assert steps[..0] == [];
    forall i | 0 <= i < |steps|
      ensures CacheOk(tr[i], steps[i], tr[i + 1], key) && ReadyOk(tr[i], steps[i], tr[i + 1])
      ensures Grows(tr[i].store.disk, tr[i + 1].store.disk)
    {
      RunNext(s0, steps, i);
      TameStep(tr[i], steps[i], key);
    }
  }

  // A thread that is about to publish got there by its last step, or was there before it.
  lemma {:induction false} AboutSince(tr: seq<Sys>, steps: seq<Step>, key: string, t: nat, n: nat)
    requires Tame(tr, steps, key) && n <= |steps| && t < |tr[n].threads| && AboutToPublish(tr[n].threads[t])
    ensures n > 0 && |tr[n - 1].threads| == |tr[n].threads|
    ensures if steps[n - 1].Advance? && steps[n - 1].t == t then Ready(tr[n], t) else tr[n - 1].threads[t] == tr[n].threads[t]
  {
    if n > 0 {
      assert ReadyOk(tr[n - 1], steps[n - 1], tr[n]);
    }
  }

  lemma {:induction false} Origin(tr: seq<Sys>, steps: seq<Step>, key: string, i: nat, n: nat) returns (j: nat)
    requires Tame(tr, steps, key) && n <= i < |steps| && steps[i].Advance?
    requires forall m :: n <= m < i && steps[m].Advance? ==> steps[m].t != steps[i].t
    requires steps[i].t < |tr[n].threads| && AboutToPublish(tr[n].threads[steps[i].t])
    ensures j < n && ObtainedAt(steps, i, j)
    ensures var th := tr[n].threads[steps[i].t]; th.key in tr[j + 1].store.disk && tr[j + 1].store.disk[th.key] == th.cred
    decreases n
  {
    AboutSince(tr, steps, key, steps[i].t, n);
    if steps[n - 1].Advance? && steps[n - 1].t == steps[i].t {
      j := n - 1;
    } else {
      j := Origin(tr, steps, key, i, n - 1);
    }
  }

  lemma {:induction false} CacheOrigin(tr: seq<Sys>, steps: seq<Step>, key: string, n: nat) returns (i: nat)
    requires Tame(tr, steps, key) && n <= |steps| && key in tr[n].store.cache
    ensures i < n && Publishes(tr, steps, i, key) && PublishedCred(tr, steps, i, key) == tr[n].store.cache[key]
    decreases n
  {
    if n == 0 {
      assert false;
    } else {
      assert CacheOk(tr[n - 1], steps[n - 1], tr[n], key);
      if Publishes(tr, steps, n - 1, key) {
        i := n - 1;
      } else {
        i := CacheOrigin(tr, steps, key, n - 1);
      }
    }
  }

  lemma {:induction false} DiskGrows(tr: seq<Sys>, steps: seq<Step>, key: string, i: nat, j: nat)
    requires Tame(tr, steps, key) && i <= j < |tr|
    ensures Grows(tr[i].store.disk, tr[j].store.disk)
    decreases j
  {
    if i < j {
      DiskGrows(tr, steps, key, i, j - 1);
      assert Grows(tr[j - 1].store.disk, tr[j].store.disk);
    }
  }

  // ---------------------------------------------------------------- the theorem

  // Two publications are obtained at different steps, and the one obtained later is at least as new.
  lemma {:induction false} ObtainedApart(steps: seq<Step>, i1: nat, i2: nat, j1: nat, j2: nat)
    requires i1 < i2 && ObtainedAt(steps, i1, j1) && ObtainedAt(steps, i2, j2)
    ensures j1 != j2
  {
  }

  // A drop at step i2 is an overtaking.
  lemma {:induction false} DropOvertakes(tr: seq<Sys>, steps: seq<Step>, key: string, i2: nat)
    requires Tame(tr, steps, key) && Publishes(tr, steps, i2, key) && key in tr[i2].store.cache
    requires PublishedCred(tr, steps, i2, key).generation < tr[i2].store.cache[key].generation
    ensures SomethingOvertakes(tr, steps, key)
  {
    var i1 := CacheOrigin(tr, steps, key, i2);
    var j1 := Origin(tr, steps, key, i1, i1);
    var j2 := Origin(tr, steps, key, i2, i2);
    ObtainedApart(steps, i1, i2, j1, j2);
    if j1 < j2 {
      DiskGrows(tr, steps, key, j1 + 1, j2 + 1);
    }
    assert Overtakes(tr, steps, key, i1, i2, j1, j2);
  }

  lemma {:induction false} StepKeepsUp(tr: seq<Sys>, steps: seq<Step>, key: string, i: nat)
    requires Tame(tr, steps, key) && i < |steps| && !SomethingOvertakes(tr, steps, key)
    ensures KeepsUp(tr[i], tr[i + 1], key)
  {
    assert CacheOk(tr[i], steps[i], tr[i + 1], key);
    if key in tr[i].store.cache && Publishes(tr, steps, i, key)
       && PublishedCred(tr, steps, i, key).generation < tr[i].store.cache[key].generation {
      DropOvertakes(tr, steps, key, i);
    }
  }

  // While nothing goes back, later readers see at least what earlier ones saw.
  lemma {:induction false} KeepsUpOver(tr: seq<Sys>, key: string, i: nat, j: nat)
    requires NeverGoesBack(tr, key) && i <= j < |tr|
    ensures KeepsUp(tr[i], tr[j], key)
    decreases j
  {
    if i < j {
      KeepsUpOver(tr, key, i, j - 1);
      assert KeepsUp(tr[j - 1], tr[j - 1 + 1], key);
    }
  }

  lemma {:induction false} PublishedInOrder(tr: seq<Sys>, steps: seq<Step>, key: string, i1: nat, i2: nat)
    requires Tame(tr, steps, key) && NeverGoesBack(tr, key)
    requires i1 < i2 && Publishes(tr, steps, i1, key) && Publishes(tr, steps, i2, key)
    ensures PublishedCred(tr, steps, i1, key).generation <= PublishedCred(tr, steps, i2, key).generation
  {
    assert CacheOk(tr[i1], steps[i1], tr[i1 + 1], key) && CacheOk(tr[i2], steps[i2], tr[i2 + 1], key);
    KeepsUpOver(tr, key, i1 + 1, i2 + 1);
  }

  lemma {:induction false} TameIff(tr: seq<Sys>, steps: seq<Step>, key: string)
    requires Tame(tr, steps, key)
    ensures NeverGoesBack(tr, key) <==> !SomethingOvertakes(tr, steps, key)
  {
    if SomethingOvertakes(tr, steps, key) {
      var i1: nat, i2: nat, j1: nat, j2: nat :| Overtakes(tr, steps, key, i1, i2, j1, j2);
      if NeverGoesBack(tr, key) {
        PublishedInOrder(tr, steps, key, i1, i2);
      }
    } else {
      forall i | 0 <= i < |tr| - 1 ensures KeepsUp(tr[i], tr[i + 1], key) {
        StepKeepsUp(tr, steps, key, i);
      }
    }
  }

  /** Over every run without a crash and without a file overwritten unread, what readers of the cache see of a key never
      goes back exactly when no publication of it comes after one that was written or loaded later and is newer. */
  lemma {:induction false} CacheNeverGoesBackIff(disk: Files, refresher: bool, threads: nat, steps: seq<Step>, key: string)
    requires NoCrash(steps) && NeverClobbers(Init(disk, refresher, threads), steps)
    ensures var tr := Trace(Init(disk, refresher, threads), steps);
      NeverGoesBack(tr, key) <==> !SomethingOvertakes(tr, steps, key)
  {
    RunIsTame(disk, refresher, threads, steps, key);
    TameIff(Trace(Init(disk, refresher, threads), steps), steps, key);
  }
}
