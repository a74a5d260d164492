/** What stands behind every credential that a Get returns, in any interleaving of CredentialProtocol: a reading of the clock by
    which it had not expired, or a refresher's answer. */
module CredentialFreshness {
  import opened Common
  import opened State
  import opened Credentials
  import opened CredentialProtocol
  import opened RevocationProtocol

  /** Thread v's move in s with env is a check that cred passes, or the refresher's answer that cred is: more than five minutes
      left and not rejected; not expired, when there is no refresher, or when it failed and nobody rejected the credential. */
  predicate Vouches(s: Sys, v: nat, env: Env, key: string, cred: Credential) {
    && v < |s.threads|
    && match s.threads[v]
       case Checking(k, c) => k == key && c == cred && LastsLonger(cred, env.now) && key !in s.store.revoked
       case Deciding(k, c) =>
         && k == key && c == cred
         && ((LastsLonger(cred, env.later) && key !in s.store.revoked) || (!s.store.refresher && env.last <= cred.expiresAt))
       case Refreshing(k, c) => k == key && env.outcome.Some? && RefreshedFrom(cred, c, env.outcome.value)
       case Failed(k, c) => k == key && c == cred && env.last <= cred.expiresAt && key !in s.store.revoked
       case _ => false
  }

  predicate VouchStep(s: Sys, step: Step, v: nat, key: string, cred: Credential) {
    step.Advance? && step.t == v && Vouches(s, v, step.env, key, cred)
  }

  // The thread has a credential to persist, to publish, or to land with.
  predicate Carries(th: Thread, key: string, cred: Credential) {
    th == Persisting(key, cred) || th == Publishing(key, cred) || th == Landing(key, Ok(cred))
  }

  predicate InCall(th: Thread) {
    !th.Idle? && !th.Done?
  }

  // ---------------------------------------------------------------- single steps

  // Where a carried credential comes from.
  ghost predicate CarriedOn(s: Sys, step: Step, s': Sys) {
    forall u, key, cred :: 0 <= u < |s.threads| && u < |s'.threads| && Carries(s'.threads[u], key, cred) ==>
      Carries(s.threads[u], key, cred) || VouchStep(s, step, u, key, cred)
  }

  // Thread u waits for a flight that this step lands with cred.
  predicate LandsOn(s: Sys, step: Step, u: nat, key: string, cred: Credential) {
    && step.Advance? && step.t < |s.threads| && u < |s.threads|
    && s.threads[step.t] == Landing(key, Ok(cred)) && s.threads[u] == Waiting(key)
  }

  // Where a credential on its way out of a Get comes from.
  ghost predicate ReturnedOn(s: Sys, step: Step, s': Sys) {
    forall u, key, cred :: 0 <= u < |s.threads| && u < |s'.threads| && Returns(s'.threads[u], key, cred) ==>
      || Returns(s.threads[u], key, cred) || Carries(s.threads[u], key, cred) || VouchStep(s, step, u, key, cred)
      || LandsOn(s, step, u, key, cred)
  }

  // A move of one thread alone.
  ghost predicate Alone(s: Sys, t: nat, s': Sys) {
    && t < |s.threads| == |s'.threads|
    && forall u :: 0 <= u < |s.threads| && u != t ==> s'.threads[u] == s.threads[u]
  }

  lemma {:induction false} OwnMove(s: Sys, t: nat, env: Env, key: string, cred: Credential)
    requires t < |s.threads| && !s.threads[t].Landing?
    ensures Alone(s, t, Move(s, t, env))
    ensures var th := Move(s, t, env).threads[t];
      && (Carries(th, key, cred) ==> Carries(s.threads[t], key, cred) || Vouches(s, t, env, key, cred))
      && (Returns(th, key, cred) ==> Returns(s.threads[t], key, cred) || Vouches(s, t, env, key, cred))
  {
  }

  lemma {:induction false} LandMove(s: Sys, t: nat, env: Env, u: nat, key: string, cred: Credential)
    requires t < |s.threads| && s.threads[t].Landing? && u < |s.threads|
    ensures var s' := Move(s, t, env);
      && |s'.threads| == |s.threads|
      && (Carries(s'.threads[u], key, cred) ==> Carries(s.threads[u], key, cred))
      && (Returns(s'.threads[u], key, cred) ==>
            Returns(s.threads[u], key, cred) || (u == t && s.threads[t] == Landing(key, Ok(cred)))
            || (s.threads[t] == Landing(key, Ok(cred)) && s.threads[u] == Waiting(key)))
  {
  }

  lemma {:induction false} AdvanceOn(s: Sys, t: nat, env: Env)
    requires t < |s.threads|
    ensures var s' := Move(s, t, env);
      |s'.threads| == |s.threads| && CarriedOn(s, Advance(t, env), s') && ReturnedOn(s, Advance(t, env), s')
  {
    var step, s' := Advance(t, env), Move(s, t, env);
    if s.threads[t].Landing? {
      forall u, key, cred | 0 <= u < |s.threads|
        ensures Carries(s'.threads[u], key, cred) ==> Carries(s.threads[u], key, cred)
        ensures Returns(s'.threads[u], key, cred) ==>
          Returns(s.threads[u], key, cred) || Carries(s.threads[u], key, cred) || LandsOn(s, step, u, key, cred)
      {
        LandMove(s, t, env, u, key, cred);
      }
    } else {
      OwnMove(s, t, env, "", ZERO_CREDENTIAL);
      forall key, cred
        ensures Carries(s'.threads[t], key, cred) ==> Carries(s.threads[t], key, cred) || VouchStep(s, step, t, key, cred)
        ensures Returns(s'.threads[t], key, cred) ==> Returns(s.threads[t], key, cred) || VouchStep(s, step, t, key, cred)
      {
        OwnMove(s, t, env, key, cred);
      }
    }
  }

  lemma {:induction false} StepOn(s: Sys, step: Step)
    ensures var s' := Exec(s, step); |s'.threads| == |s.threads| && CarriedOn(s, step, s') && ReturnedOn(s, step, s')
  {
    if step.Advance? && step.t < |s.threads| {
      AdvanceOn(s, step.t, step.env);
    }
  }

  // ---------------------------------------------------------------- runs

  ghost predicate Linked(tr: seq<Sys>, steps: seq<Step>) {
    && |tr| == |steps| + 1
    && (forall u :: 0 <= u < |tr[0].threads| ==> tr[0].threads[u].Idle?)
    && (forall i :: 0 <= i < |steps| ==> |tr[i + 1].threads| == |tr[i].threads|)
    && (forall i :: 0 <= i < |steps| ==> CarriedOn(tr[i], steps[i], tr[i + 1]))
    && (forall i :: 0 <= i < |steps| ==> ReturnedOn(tr[i], steps[i], tr[i + 1]))
  }

  // Thread v is in one call from state lo to state hi.
  predicate Busy(tr: seq<Sys>, v: nat, lo: nat, hi: nat) {
    forall m :: lo <= m <= hi && m < |tr| ==> v < |tr[m].threads| && InCall(tr[m].threads[v])
  }

  /** Step j of thread v's own call, before state i, vouches for cred. */
  predicate Vouched(tr: seq<Sys>, steps: seq<Step>, i: nat, v: nat, key: string, cred: Credential, j: nat) {
    j < i <= |steps| && |tr| == |steps| + 1 && VouchStep(tr[j], steps[j], v, key, cred) && Busy(tr, v, j, i)
  }

  /** Thread u waited for the flight of v, which landed with cred at step m, and step j of v's call vouches for cred. */
  predicate VouchedByFlight(tr: seq<Sys>, steps: seq<Step>, i: nat, u: nat, key: string, cred: Credential, v: nat, m: nat, j: nat) {
    && m < i <= |steps| && |tr| == |steps| + 1 && steps[m].Advance? && steps[m].t == v
    && LandsOn(tr[m], steps[m], u, key, cred) && Busy(tr, u, m, i) && Vouched(tr, steps, m, v, key, cred, j)
  }

  lemma {:induction false} CarriedIsVouched(tr: seq<Sys>, steps: seq<Step>, i: nat, u: nat, key: string, cred: Credential)
    returns (j: nat)
    requires Linked(tr, steps) && i <= |steps| && u < |tr[i].threads| && Carries(tr[i].threads[u], key, cred)
    ensures Vouched(tr, steps, i, u, key, cred, j)
    decreases i
  {
    assert i > 0;
    assert CarriedOn(tr[i - 1], steps[i - 1], tr[i]);
    if Carries(tr[i - 1].threads[u], key, cred) {
      j := CarriedIsVouched(tr, steps, i - 1, u, key, cred);
    } else {
      j := i - 1;
    }
  }

  /** Everything on its way out of a Get is vouched for. */
  ghost predicate Backed(tr: seq<Sys>, steps: seq<Step>, i: nat, u: nat, key: string, cred: Credential) {
    || (exists j: nat :: Vouched(tr, steps, i, u, key, cred, j))
    || (exists v: nat, m: nat, j: nat :: VouchedByFlight(tr, steps, i, u, key, cred, v, m, j))
  }

  lemma {:induction false} BackedLater(tr: seq<Sys>, steps: seq<Step>, i: nat, u: nat, key: string, cred: Credential)
    requires |tr| == |steps| + 1 && i < |steps| && Backed(tr, steps, i, u, key, cred)
    requires u < |tr[i + 1].threads| && InCall(tr[i + 1].threads[u])
    ensures Backed(tr, steps, i + 1, u, key, cred)
  {
    if j: nat :| Vouched(tr, steps, i, u, key, cred, j) {
      assert Vouched(tr, steps, i + 1, u, key, cred, j);
    } else {
      var v: nat, m: nat, j: nat :| VouchedByFlight(tr, steps, i, u, key, cred, v, m, j);
      assert VouchedByFlight(tr, steps, i + 1, u, key, cred, v, m, j);
    }
  }

  lemma {:induction false} ReturningIsBacked(tr: seq<Sys>, steps: seq<Step>, i: nat, u: nat, key: string, cred: Credential)
    requires Linked(tr, steps) && i <= |steps| && u < |tr[i].threads| && Returns(tr[i].threads[u], key, cred)
    ensures Backed(tr, steps, i, u, key, cred)
    decreases i
  {
    assert i > 0;
    var s, step := tr[i - 1], steps[i - 1];
    assert ReturnedOn(s, step, tr[i]);
    if Returns(s.threads[u], key, cred) {
      ReturningIsBacked(tr, steps, i - 1, u, key, cred);
      BackedLater(tr, steps, i - 1, u, key, cred);
    } else if Carries(s.threads[u], key, cred) {
      var j := CarriedIsVouched(tr, steps, i - 1, u, key, cred);
      assert Vouched(tr, steps, i, u, key, cred, j);
    } else if VouchStep(s, step, u, key, cred) {
      assert Vouched(tr, steps, i, u, key, cred, i - 1);
    } else {
      var j := CarriedIsVouched(tr, steps, i - 1, step.t, key, cred);
      assert VouchedByFlight(tr, steps, i, u, key, cred, step.t, i - 1, j);
    }
  }

  lemma {:induction false} RunLinked(disk: Files, refresher: bool, threads: nat, steps: seq<Step>)
    ensures Linked(Trace(Init(disk, refresher, threads), steps), steps)
  {
    var s0 := Init(disk, refresher, threads);
    var tr := Trace(s0, steps);
    assert steps[..0] == [];
    forall i | 0 <= i < |steps|
      ensures |tr[i + 1].threads| == |tr[i].threads| && CarriedOn(tr[i], steps[i], tr[i + 1]) && ReturnedOn(tr[i], steps[i], tr[i + 1])
    {
      RunNext(s0, steps, i);
      StepOn(tr[i], steps[i]);
    }
  }

  /** In every interleaving, crashes included, a credential that a Get returns was vouched for during that Get, or during the
      flight it waited for: a reading with more than five minutes left on a credential nobody had rejected; a reading by which
      it had not expired, with no refresher or after it failed; or it is the refresher's own answer. */
  lemma {:induction false} ReturnedIsVouchedFor(disk: Files, refresher: bool, threads: nat, steps: seq<Step>, key: string, cred: Credential, i: nat)
    requires GetReturns(Trace(Init(disk, refresher, threads), steps), steps, key, cred, i)
    ensures Backed(Trace(Init(disk, refresher, threads), steps), steps, i, steps[i].t, key, cred)
  {
    var s0 := Init(disk, refresher, threads);
    var tr := Trace(s0, steps);
    RunLinked(disk, refresher, threads, steps);
    RunNext(s0, steps, i);
    ReturnStep(tr[i], steps[i].t, steps[i].env, key, cred);
    ReturningIsBacked(tr, steps, i, steps[i].t, key, cred);
  }
}
