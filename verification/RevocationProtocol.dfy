/** Revocation under interleaving, in CredentialProtocol: what a Get can return between an invalidation and the next
    publication of a new credential. */
module RevocationProtocol {
  import opened Common
  import opened State
  import opened Credentials
  import opened CredentialProtocol

  // The thread is in a Get of key, or waits in one.
  predicate InGet(th: Thread, key: string) {
    && !th.Idle? && !th.Done? && !th.Storing? && !th.StorePublishing? && th.key == key
    && (th.Reading? || th.Loading? || th.LoadPublishing? || th.Returning? ==> !th.peek)
  }

  // The step publishes a stored or refreshed credential of key, or is a crash.
  predicate Lifts(s: Sys, step: Step, key: string) {
    step.Crash? || (step.Advance? && step.t < |s.threads|
                    && (s.threads[step.t].StorePublishing? || s.threads[step.t].Publishing?) && s.threads[step.t].key == key)
  }

  predicate Revoked(s: Sys, key: string) {
    s.store.refresher && key in s.store.revoked
  }

  predicate Moves(step: Step, u: nat) {
    step.Advance? && step.t == u
  }

  // The thread has a credential for its caller: it is on its way out of a Get, or its flight is about to land.
  predicate Returns(th: Thread, key: string, cred: Credential) {
    th == Returning(key, false, Ok(cred))
  }

  predicate Lands(th: Thread, key: string, cred: Credential) {
    th == Landing(key, Ok(cred))
  }

  // ---------------------------------------------------------------- single steps

  /** Where a credential of the revoked key on its way to a caller comes from: it was on its way already, or a flight that
      was about to land has landed. */
  ghost predicate Inherited(s: Sys, step: Step, s': Sys, key: string, cred: Credential) {
    && |s'.threads| == |s.threads|
    && (forall u :: 0 <= u < |s.threads| && Lands(s'.threads[u], key, cred) ==> Lands(s.threads[u], key, cred) && !Moves(step, u))
    && (forall u :: 0 <= u < |s.threads| && Returns(s'.threads[u], key, cred) ==>
          || (Returns(s.threads[u], key, cred) && !Moves(step, u))
          || (step.Advance? && step.t < |s.threads| && Lands(s.threads[step.t], key, cred)
              && (u == step.t || s.threads[u] == Waiting(key))))
  }

  // The step keeps the revocation, and only hands on what it inherited.
  ghost predicate Sticks(s: Sys, step: Step, s': Sys, key: string, cred: Credential) {
    Revoked(s', key) && Inherited(s, step, s', key, cred)
  }

  // A move of thread t alone that keeps the revocation and gives t nothing to return.
  lemma {:induction false} OwnMove(s: Sys, t: nat, env: Env, s': Sys, key: string, cred: Credential)
    requires t < |s.threads| == |s'.threads| && Revoked(s', key) && s'.threads == s.threads[t := s'.threads[t]]
    requires !Lands(s'.threads[t], key, cred) && !Returns(s'.threads[t], key, cred)
    ensures Sticks(s, Advance(t, env), s', key, cred)
  {
  }

  // Only Landing and Returning threads, and Peeks, can go on to return anything while key is revoked.
  lemma {:induction false} QuietMove(s: Sys, t: nat, env: Env, key: string, cred: Credential)
    requires Revoked(s, key) && t < |s.threads| && !Lifts(s, Advance(t, env), key)
    requires !s.threads[t].Landing? && !s.threads[t].Idle? && !s.threads[t].Done? && !s.threads[t].Waiting?
    ensures var s' := Move(s, t, env);
      && |s'.threads| == |s.threads| && s'.threads == s.threads[t := s'.threads[t]] && Revoked(s', key)
      && !Lands(s'.threads[t], key, cred) && !Returns(s'.threads[t], key, cred)
  {
  }

  lemma {:induction false} LandSticks(s: Sys, t: nat, env: Env, key: string, cred: Credential)
    requires Revoked(s, key) && t < |s.threads| && s.threads[t].Landing?
    ensures Sticks(s, Advance(t, env), Move(s, t, env), key, cred)
  {
  }

  lemma {:induction false} StepSticks(s: Sys, step: Step, key: string, cred: Credential)
    requires Revoked(s, key) && !Lifts(s, step, key)
    ensures Sticks(s, step, Exec(s, step), key, cred)
  {
    if step.Advance? && step.t < |s.threads| {
      var th := s.threads[step.t];
      if th.Landing? {
        LandSticks(s, step.t, step.env, key, cred);
      } else if !th.Idle? && !th.Done? && !th.Waiting? {
        QuietMove(s, step.t, step.env, key, cred);
        OwnMove(s, step.t, step.env, Move(s, step.t, step.env), key, cred);
      }
    }
  }

  /** What is on its way stays so until its thread moves, and a landing flight hands its result to all who wait. */
  ghost predicate HandsOn(s: Sys, step: Step, s': Sys) {
    && |s'.threads| == |s.threads|
    && (forall u :: 0 <= u < |s.threads| && (s.threads[u].Landing? || s.threads[u].Returning?) && !Moves(step, u) ==>
          s'.threads[u] == s.threads[u])
    && (step.Advance? && step.t < |s.threads| && s.threads[step.t].Landing? ==>
          forall u :: 0 <= u < |s.threads| && (u == step.t || s.threads[u] == Waiting(s.threads[step.t].key)) ==>
            s'.threads[u] == Returning(s.threads[step.t].key, false, s.threads[step.t].result))
  }

  lemma {:induction false} StepHandsOn(s: Sys, step: Step)
    requires !step.Crash?
    ensures HandsOn(s, step, Exec(s, step))
  {
  }

  // A Get returns a credential by a step from Returning.
  lemma {:induction false} ReturnStep(s: Sys, t: nat, env: Env, key: string, cred: Credential)
    requires t < |s.threads|
    ensures var s' := Exec(s, Advance(t, env));
      && |s'.threads| == |s.threads|
      && (InGet(s.threads[t], key) && s'.threads[t] == Done(key, Ok(cred)) <==> Returns(s.threads[t], key, cred))
  {
  }

  // ---------------------------------------------------------------- runs

  ghost predicate NeverLifted(s: Sys, steps: seq<Step>, key: string) {
    forall i :: 0 <= i < |steps| ==> !Lifts(CredentialProtocol.Run(s, steps[..i]), steps[i], key)
  }

  // Every step of the trace sticks, and hands on.
  ghost predicate Follows(tr: seq<Sys>, steps: seq<Step>, key: string, cred: Credential) {
    && |tr| == |steps| + 1
    && (forall i :: 0 <= i < |steps| ==> Sticks(tr[i], steps[i], tr[i + 1], key, cred))
    && (forall i :: 0 <= i < |steps| ==> HandsOn(tr[i], steps[i], tr[i + 1]))
  }

  lemma {:induction false} StepRevoked(s: Sys, step: Step, key: string)
    requires Revoked(s, key) && !Lifts(s, step, key)
    ensures Revoked(Exec(s, step), key)
  {
    StepSticks(s, step, key, ZERO_CREDENTIAL);
  }

  lemma {:induction false} NextRevoked(s: Sys, steps: seq<Step>, key: string, i: nat)
    requires i < |steps| && Revoked(CredentialProtocol.Run(s, steps[..i]), key)
    requires !Lifts(CredentialProtocol.Run(s, steps[..i]), steps[i], key)
    ensures Revoked(CredentialProtocol.Run(s, steps[..i + 1]), key)
  {
    RunNext(s, steps, i);
    StepRevoked(CredentialProtocol.Run(s, steps[..i]), steps[i], key);
  }

  lemma {:induction false} StaysRevoked(s: Sys, steps: seq<Step>, key: string, i: nat)
    requires Revoked(s, key) && NeverLifted(s, steps, key) && i <= |steps|
    ensures Revoked(CredentialProtocol.Run(s, steps[..i]), key)
    decreases i
  {
    if i == 0 {
      assert steps[..0] == [];
    } else {
      StaysRevoked(s, steps, key, i - 1);
      NextRevoked(s, steps, key, i - 1);
    }
  }

  lemma {:induction false} RunFollows(s: Sys, steps: seq<Step>, key: string, cred: Credential)
    requires Revoked(s, key) && NeverLifted(s, steps, key)
    ensures Follows(Trace(s, steps), steps, key, cred)
  {
    var tr := Trace(s, steps);
    forall i | 0 <= i < |steps|
      ensures Sticks(tr[i], steps[i], tr[i + 1], key, cred) && HandsOn(tr[i], steps[i], tr[i + 1])
    {
      StaysRevoked(s, steps, key, i);
      RunNext(s, steps, i);
      StepSticks(tr[i], steps[i], key, cred);
      StepHandsOn(tr[i], steps[i]);
    }
  }

  // Thread u takes no step from lo up to hi.
  predicate Unmoved(steps: seq<Step>, lo: nat, hi: nat, u: nat) {
    forall m :: lo <= m < hi && m < |steps| ==> !Moves(steps[m], u)
  }

  // Thread v's flight was about to land at first, landed at step j, and had thread u as its leader or waiting on it.
  predicate Joined(tr: seq<Sys>, steps: seq<Step>, key: string, cred: Credential, i: nat, u: nat, v: nat, j: nat) {
    && j < i <= |steps| && |tr| == |steps| + 1 && v < |tr[0].threads| && u < |tr[j].threads|
    && Lands(tr[0].threads[v], key, cred) && Unmoved(steps, 0, j, v) && Moves(steps[j], v)
    && (u == v || tr[j].threads[u] == Waiting(key)) && Unmoved(steps, j + 1, i, u)
  }

  /** At first thread u was already on its way out with the credential and has not moved since, or a flight about to land
      with it was: the thread led that flight or had joined it when it landed, and has not moved since. */
  ghost predicate Promised(tr: seq<Sys>, steps: seq<Step>, key: string, cred: Credential, i: nat, u: nat)
    requires |tr| == |steps| + 1
  {
    || (u < |tr[0].threads| && Returns(tr[0].threads[u], key, cred) && Unmoved(steps, 0, i, u))
    || exists v: nat, j: nat :: Joined(tr, steps, key, cred, i, u, v, j)
  }

  lemma {:induction false} LandingSinceStart(tr: seq<Sys>, steps: seq<Step>, key: string, cred: Credential, i: nat, v: nat)
    requires Follows(tr, steps, key, cred) && i <= |steps| && v < |tr[i].threads| && Lands(tr[i].threads[v], key, cred)
    ensures v < |tr[0].threads| && Lands(tr[0].threads[v], key, cred) && Unmoved(steps, 0, i, v)
    decreases i
  {
    if i > 0 {
      assert Sticks(tr[i - 1], steps[i - 1], tr[i], key, cred);
      LandingSinceStart(tr, steps, key, cred, i - 1, v);
    }
  }

  lemma {:induction false} ReturningWasPromised(tr: seq<Sys>, steps: seq<Step>, key: string, cred: Credential, i: nat, u: nat)
    requires Follows(tr, steps, key, cred) && i <= |steps| && u < |tr[i].threads| && Returns(tr[i].threads[u], key, cred)
    ensures Promised(tr, steps, key, cred, i, u)
    decreases i
  {
    if i > 0 {
      var step := steps[i - 1];
      assert Sticks(tr[i - 1], step, tr[i], key, cred);
      if Returns(tr[i - 1].threads[u], key, cred) && !Moves(step, u) {
        ReturningWasPromised(tr, steps, key, cred, i - 1, u);
        PromiseKept(tr, steps, key, cred, i - 1, u);
      } else {
        LandingSinceStart(tr, steps, key, cred, i - 1, step.t);
        assert Joined(tr, steps, key, cred, i, u, step.t, i - 1);
      }
    }
  }

  lemma {:induction false} PromiseKept(tr: seq<Sys>, steps: seq<Step>, key: string, cred: Credential, i: nat, u: nat)
    requires |tr| == |steps| + 1 && i < |steps| && Promised(tr, steps, key, cred, i, u) && !Moves(steps[i], u)
    ensures Promised(tr, steps, key, cred, i + 1, u)
  {
    if exists v: nat, j: nat :: Joined(tr, steps, key, cred, i, u, v, j) {
      var v: nat, j: nat :| Joined(tr, steps, key, cred, i, u, v, j);
      assert Joined(tr, steps, key, cred, i + 1, u, v, j);
    }
  }

  lemma {:induction false} StaysPut(tr: seq<Sys>, steps: seq<Step>, key: string, cred: Credential, lo: nat, hi: nat, u: nat)
    requires Follows(tr, steps, key, cred) && lo <= hi <= |steps| && Unmoved(steps, lo, hi, u)
    requires u < |tr[lo].threads| && (tr[lo].threads[u].Landing? || tr[lo].threads[u].Returning?)
    ensures u < |tr[hi].threads| && tr[hi].threads[u] == tr[lo].threads[u]
    decreases hi
  {
    if lo < hi {
      StaysPut(tr, steps, key, cred, lo, hi - 1, u);
      assert HandsOn(tr[hi - 1], steps[hi - 1], tr[hi]);
    }
  }

  lemma {:induction false} JoinedReturns(tr: seq<Sys>, steps: seq<Step>, key: string, cred: Credential, i: nat, u: nat, v: nat, j: nat)
    requires Follows(tr, steps, key, cred) && Joined(tr, steps, key, cred, i, u, v, j)
    ensures u < |tr[i].threads| && Returns(tr[i].threads[u], key, cred)
  {
    StaysPut(tr, steps, key, cred, 0, j, v);
    assert HandsOn(tr[j], steps[j], tr[j + 1]);
    StaysPut(tr, steps, key, cred, j + 1, i, u);
  }

  lemma {:induction false} PromisedReturns(tr: seq<Sys>, steps: seq<Step>, key: string, cred: Credential, i: nat, u: nat)
    requires Follows(tr, steps, key, cred) && i <= |steps| && Promised(tr, steps, key, cred, i, u)
    ensures u < |tr[i].threads| && Returns(tr[i].threads[u], key, cred)
  {
    if u < |tr[0].threads| && Returns(tr[0].threads[u], key, cred) && Unmoved(steps, 0, i, u) {
      StaysPut(tr, steps, key, cred, 0, i, u);
    } else {
      var v: nat, j: nat :| Joined(tr, steps, key, cred, i, u, v, j);
      JoinedReturns(tr, steps, key, cred, i, u, v, j);
    }
  }

  // Step i of the trace returns cred from a Get of key.
  predicate GetReturns(tr: seq<Sys>, steps: seq<Step>, key: string, cred: Credential, i: nat) {
    && i < |steps| && |tr| == |steps| + 1 && steps[i].Advance? && steps[i].t < |tr[i].threads| && steps[i].t < |tr[i + 1].threads|
    && InGet(tr[i].threads[steps[i].t], key) && tr[i + 1].threads[steps[i].t] == Done(key, Ok(cred))
  }

  /** From any state with a refresher installed: after an effective invalidation, and until a stored or refreshed
      credential of the key is published or the process crashes, a Get of the key returns a credential exactly when, at the
      invalidation, it was already on its way out with it, or a flight that it led or came to join was about to land. */
  lemma {:induction false} RevokedGetReturnsIff(s: Sys, key: string, token: string, steps: seq<Step>, cred: Credential, i: nat)
    requires s.store.refresher && AfterInvalidate(s.store, key, token).1
    requires NeverLifted(Exec(s, Revoke(key, token)), steps, key)
    requires i < |steps| && steps[i].Advance? && steps[i].t < |s.threads|
    ensures var tr := Trace(Exec(s, Revoke(key, token)), steps);
      && tr[0].threads == s.threads
      && (GetReturns(tr, steps, key, cred, i) <==> Promised(tr, steps, key, cred, i, steps[i].t))
  {
    var s0, u := Exec(s, Revoke(key, token)), steps[i].t;
    var tr := Trace(s0, steps);
    assert steps[..0] == [];
    RunFollows(s0, steps, key, cred);
    ThreadsStay(tr, steps, key, cred, i);
    RunNext(s0, steps, i);
    ReturnStep(tr[i], u, steps[i].env, key, cred);
    if Returns(tr[i].threads[u], key, cred) {
      ReturningWasPromised(tr, steps, key, cred, i, u);
    }
    if Promised(tr, steps, key, cred, i, u) {
      PromisedReturns(tr, steps, key, cred, i, u);
    }
  }

  lemma {:induction false} ThreadsStay(tr: seq<Sys>, steps: seq<Step>, key: string, cred: Credential, i: nat)
    requires Follows(tr, steps, key, cred) && i <= |steps|
    ensures |tr[i].threads| == |tr[0].threads|
    decreases i
  {
    if i > 0 {
      ThreadsStay(tr, steps, key, cred, i - 1);
      assert HandsOn(tr[i - 1], steps[i - 1], tr[i]);
    }
  }

  /** So an invalidation that catches no credential of the key on its way out lets none out. */
  lemma {:induction false} RevokedGetsFail(s: Sys, key: string, token: string, steps: seq<Step>, cred: Credential, i: nat)
    requires s.store.refresher && AfterInvalidate(s.store, key, token).1
    requires NeverLifted(Exec(s, Revoke(key, token)), steps, key)
    requires forall u :: 0 <= u < |s.threads| ==> !Returns(s.threads[u], key, cred) && !Lands(s.threads[u], key, cred)
    ensures !GetReturns(Trace(Exec(s, Revoke(key, token)), steps), steps, key, cred, i)
  {
    var s0 := Exec(s, Revoke(key, token));
    if i < |steps| && steps[i].Advance? {
      RunFollows(s0, steps, key, cred);
      ThreadsStay(Trace(s0, steps), steps, key, cred, i);
      if steps[i].t < |s.threads| {
        RevokedGetReturnsIff(s, key, token, steps, cred, i);
      }
    }
  }

  // ---------------------------------------------------------------- such a credential can be caught

  function OnDisk(cred: Credential): Sys {
    Init(map["k" := cred], true, 2)
  }

  // Thread 0 after n moves of its Get, when the credential is near its end and cannot be refreshed.
  function Refreshless(cred: Credential, n: nat): Thread {
    if n == 0 then Reading("k", false)
    else if n == 1 then Loading("k", false)
    else if n == 2 then LoadPublishing("k", false, cred)
    else if n == 3 then Checking("k", cred)
    else if n == 4 then Joining("k")
    else if n == 5 then Leading("k")
    else if n == 6 then Deciding("k", cred)
    else if n == 7 then Refreshing("k", cred)
    else if n == 8 then Failed("k", cred)
    else Landing("k", Ok(cred))
  }

  function WithThread(cred: Credential, cached: bool, th: Thread): Sys {
    Sys(Store(map["k" := cred], if cached then map["k" := cred] else map[], {}, true), [th, Idle], [])
  }

  // Near its end, with a refresher that fails, and not over yet.
  predicate Lingers(cred: Credential, env: Env) {
    && env.readable && env.outcome.None? && !Fresh(cred, env.now) && !Fresh(cred, env.later) && !Over(cred, env.last)
  }

  lemma {:induction false} GetMoves(cred: Credential, env: Env, n: nat)
    requires n < 9 && Lingers(cred, env)
    ensures Exec(WithThread(cred, n >= 3, Refreshless(cred, n)), Advance(0, env))
         == WithThread(cred, n + 1 >= 3, Refreshless(cred, n + 1))
  {
  }

  lemma {:induction false} ReachLanding(cred: Credential, env: Env) returns (steps: seq<Step>)
    requires Lingers(cred, env)
    ensures CredentialProtocol.Run(OnDisk(cred), steps) == WithThread(cred, true, Landing("k", Ok(cred)))
  {
    var begin := Begin(0, CallGet("k"));
    steps := [begin];
    RunAppend(OnDisk(cred), [], begin);
    assert [] + [begin] == [begin];
    var n := 0;
    while n < 9
      invariant 0 <= n <= 9
      invariant CredentialProtocol.Run(OnDisk(cred), steps) == WithThread(cred, n >= 3, Refreshless(cred, n))
    {
      GetMoves(cred, env, n);
      RunAppend(OnDisk(cred), steps, Advance(0, env));
      steps := steps + [Advance(0, env)];
      n := n + 1;
    }
  }

  function Invalidated(cred: Credential, first: Thread, second: Thread): Sys {
    Sys(Store(map["k" := cred], map["k" := cred], {"k"}, true), [first, second], [])
  }

  // One more step of a run whose state is known.
  lemma {:induction false} Extend(s0: Sys, steps: seq<Step>, s: Sys, step: Step, s': Sys)
    requires CredentialProtocol.Run(s0, steps) == s && Exec(s, step) == s'
    ensures CredentialProtocol.Run(s0, steps + [step]) == s'
  {
    RunAppend(s0, steps, step);
  }

  lemma {:induction false} Caught(cred: Credential)
    ensures Exec(WithThread(cred, true, Landing("k", Ok(cred))), Revoke("k", "")) == Invalidated(cred, Landing("k", Ok(cred)), Idle)
  {
  }

  // A second Get that begins after the invalidation joins the flight that is about to land.
  lemma {:induction false} JoinsFlight(cred: Credential, env: Env) returns (steps: seq<Step>)
    ensures CredentialProtocol.Run(Invalidated(cred, Landing("k", Ok(cred)), Idle), steps)
         == Invalidated(cred, Landing("k", Ok(cred)), Waiting("k"))
  {
    var flight := Landing("k", Ok(cred));
    var s0 := Invalidated(cred, flight, Idle);
    Extend(s0, [], s0, Begin(1, CallGet("k")), Invalidated(cred, flight, Reading("k", false)));
    steps := [] + [Begin(1, CallGet("k"))];
    Extend(s0, steps, Invalidated(cred, flight, Reading("k", false)), Advance(1, env), Invalidated(cred, flight, Checking("k", cred)));
    steps := steps + [Advance(1, env)];
    Extend(s0, steps, Invalidated(cred, flight, Checking("k", cred)), Advance(1, env), Invalidated(cred, flight, Joining("k")));
    steps := steps + [Advance(1, env)];
    assert Invalidated(cred, flight, Joining("k")).threads[0].Leads("k");
    Extend(s0, steps, Invalidated(cred, flight, Joining("k")), Advance(1, env), Invalidated(cred, flight, Waiting("k")));
    steps := steps + [Advance(1, env)];
  }

  lemma {:induction false} FlightLands(cred: Credential, env: Env)
    ensures var out := Returning("k", false, Ok(cred));
      Exec(Invalidated(cred, Landing("k", Ok(cred)), Waiting("k")), Advance(0, env)) == Invalidated(cred, out, out)
  {
    var s, out := Invalidated(cred, Landing("k", Ok(cred)), Waiting("k")), Returning("k", false, Ok(cred));
    assert Land(s, 0, "k", Ok(cred)).threads == [out, out];
  }

  lemma {:induction false} JoinerReturns(cred: Credential, env: Env, s': Sys)
    requires s' == Exec(Invalidated(cred, Returning("k", false, Ok(cred)), Returning("k", false, Ok(cred))), Advance(1, env))
    ensures |s'.threads| == 2 && s'.threads[1] == Done("k", Ok(cred)) && "k" in s'.store.revoked
  {
  }

  lemma {:induction false} FlightHandsOut(cred: Credential, env: Env, s: Sys)
    requires s == CredentialProtocol.Run(Invalidated(cred, Landing("k", Ok(cred)), Waiting("k")), [Advance(0, env)] + [Advance(1, env)])
    ensures |s.threads| == 2 && s.threads[1] == Done("k", Ok(cred)) && "k" in s.store.revoked
  {
    var s0, out := Invalidated(cred, Landing("k", Ok(cred)), Waiting("k")), Returning("k", false, Ok(cred));
    FlightLands(cred, env);
    Extend(s0, [], s0, Advance(0, env), Invalidated(cred, out, out));
    assert [] + [Advance(0, env)] == [Advance(0, env)];
    Extend(s0, [Advance(0, env)], Invalidated(cred, out, out), Advance(1, env), s);
    JoinerReturns(cred, env, s);
  }

  /** A flight that passed its check before the invalidation hands the rejected credential to a Get that began after it. */
  lemma {:induction false} JoinedFlightReturnsRejected(cred: Credential, env: Env)
    requires Lingers(cred, env)
    ensures exists before, after ::
      var s := CredentialProtocol.Run(OnDisk(cred), before);
      var end := CredentialProtocol.Run(Exec(s, Revoke("k", "")), after);
      && s.threads == [Landing("k", Ok(cred)), Idle] && s.store.cache == map["k" := cred]
      && |end.threads| == 2 && end.threads[1] == Done("k", Ok(cred)) && "k" in end.store.revoked
  {
    var before := ReachLanding(cred, env);
    Caught(cred);
    var joins := JoinsFlight(cred, env);
    var lands := [Advance(0, env)] + [Advance(1, env)];
    RunConcat(Invalidated(cred, Landing("k", Ok(cred)), Idle), joins, lands);
    FlightHandsOut(cred, env, CredentialProtocol.Run(Invalidated(cred, Landing("k", Ok(cred)), Waiting("k")), lands));
  }
}
