/** The two models of the credential manager agree: a thread of CredentialProtocol left to run by itself does what the
    methods of Credentials do. */
module SoloCredential {
  import opened Common
  import opened State
  import opened Credentials
  import opened CredentialProtocol

  // Nobody else runs a flight for the thread's key, and what it holds is what the shared state holds.
  ghost predicate Alone(s: Sys, t: nat) {
    && t < |s.threads| && !s.threads[t].Waiting? && !s.threads[t].Idle?
    && Consistent(s.store, s.threads[t])
    && (forall u :: 0 <= u < |s.threads| && u != t ==> !s.threads[u].Leads(s.threads[t].key))
  }

  predicate Consistent(s: Store, th: Thread) {
    && (th.Checking? || th.Joining? || th.Leading? || th.Deciding? || th.Refreshing? || th.Failed? ==> th.key in s.cache)
    && (th.Checking? || th.Deciding? || th.Refreshing? || th.Failed? ==> th.cred == s.cache[th.key])
    && (th.Refreshing? || th.Failed? ==> s.refresher)
    && (th.Loading? || th.LoadPublishing? ==> th.key !in s.cache)
    && (th.StorePublishing? || th.Publishing? ==> th.key in s.disk && s.disk[th.key] == th.cred)
  }

  // A Get whose credential has been read.
  function AfterCheck(s: Store, key: string, cred: Credential, env: Env): Outcome
    requires key in s.cache
  {
    if Fresh(cred, env.now) && key !in s.revoked then Outcome(s, Ok(cred)) else AfterRefresh(s, key, env)
  }

  // A refresh that got past the decision to refresh.
  function AfterOutcome(s: Store, key: string, latest: Credential, env: Env): Outcome {
    if env.outcome.None? then AfterFailure(s, key, latest, env) else AfterStore(s, key, Bumped(latest, env.outcome.value), env)
  }

  function AfterFailure(s: Store, key: string, latest: Credential, env: Env): Outcome {
    Outcome(s, if Over(latest, env.last) then Err(Expired) else if key in s.revoked then Err(Invalidated) else Ok(latest))
  }

  // What the sequential methods say the thread will have done in the end.
  function Outlook(s: Store, th: Thread, env: Env): Outcome
    requires !th.Waiting? && !th.Idle? && Consistent(s, th)
  {
    match th
    case Storing(key, cred) => AfterStore(s, key, cred, env)
    case StorePublishing(key, cred) => Outcome(Credentials.Publish(s, key, cred), Ok(cred))
    case Reading(key, peek) => if peek then AfterPeek(s, key, env) else AfterGet(s, key, env)
    case Loading(key, peek) => if peek then AfterPeek(s, key, env) else AfterGet(s, key, env)
    case LoadPublishing(key, peek, cred) =>
      var loaded := s.(cache := s.cache[key := cred]);
      if peek then Outcome(loaded, Ok(cred)) else AfterCheck(loaded, key, cred, env)
    case Checking(key, cred) => AfterCheck(s, key, cred, env)
    case Joining(key) => AfterRefresh(s, key, env)
    case Leading(key) => AfterRefresh(s, key, env)
    case Deciding(key, _) => AfterRefresh(s, key, env)
    case Refreshing(key, latest) => AfterOutcome(s, key, latest, env)
    case Failed(key, latest) => AfterFailure(s, key, latest, env)
    case Persisting(key, cred) => AfterStore(s, key, cred, env)
    case Publishing(key, cred) => Outcome(Credentials.Publish(s, key, cred), Ok(cred))
    case Landing(_, result) => Outcome(s, result)
    case Returning(_, _, result) => Outcome(s, result)
    case Done(_, result) => Outcome(s, result)
  }

  // Moves still to come.
  function MovesLeft(th: Thread): nat {
    match th
    case Reading(_, _) => 12
    case Loading(_, _) => 11
    case LoadPublishing(_, _, _) => 10
    case Checking(_, _) => 9
    case Joining(_) => 8
    case Leading(_) => 7
    case Deciding(_, _) => 6
    case Refreshing(_, _) => 5
    case Persisting(_, _) => 4
    case Failed(_, _) => 3
    case Publishing(_, _) => 3
    case Landing(_, _) => 2
    case Storing(_, _) => 2
    case StorePublishing(_, _) => 1
    case Returning(_, _, _) => 1
    case _ => 0
  }

  // One move: on the way, closer, and with the same outlook.
  ghost predicate OnTheWay(s: Sys, t: nat, env: Env)
    requires Alone(s, t)
  {
    var s' := Move(s, t, env);
    && Alone(s', t) && s'.threads[t].key == s.threads[t].key && MovesLeft(s'.threads[t]) < MovesLeft(s.threads[t])
    && Outlook(s'.store, s'.threads[t], env) == Outlook(s.store, s.threads[t], env)
  }

  lemma {:induction false} ReadOnTheWay(s: Sys, t: nat, env: Env)
    requires Alone(s, t)
    requires s.threads[t].Reading? || s.threads[t].Loading? || s.threads[t].LoadPublishing? || s.threads[t].Checking?
    ensures OnTheWay(s, t, env)
  {
  }

  lemma {:induction false} FlightOnTheWay(s: Sys, t: nat, env: Env)
    requires Alone(s, t)
    requires s.threads[t].Joining? || s.threads[t].Leading? || s.threads[t].Deciding?
    ensures OnTheWay(s, t, env)
  {
  }

  lemma {:induction false} RefreshOnTheWay(s: Sys, t: nat, env: Env)
    requires Alone(s, t)
    requires s.threads[t].Refreshing? || s.threads[t].Failed?
    ensures OnTheWay(s, t, env)
  {
  }

  lemma {:induction false} PersistOnTheWay(s: Sys, t: nat, env: Env)
    requires Alone(s, t)
    requires s.threads[t].Storing? || s.threads[t].Persisting? || s.threads[t].StorePublishing? || s.threads[t].Publishing?
    ensures OnTheWay(s, t, env)
  {
  }

  lemma {:induction false} LandOnTheWay(s: Sys, t: nat, env: Env)
    requires Alone(s, t) && (s.threads[t].Landing? || s.threads[t].Returning?)
    ensures OnTheWay(s, t, env)
  {
  }

  lemma {:induction false} MovesOnTheWay(s: Sys, t: nat, env: Env)
    requires Alone(s, t) && !s.threads[t].Done?
    ensures OnTheWay(s, t, env) && Exec(s, Advance(t, env)) == Move(s, t, env)
  {
    var th := s.threads[t];
    if th.Reading? || th.Loading? || th.LoadPublishing? || th.Checking? {
      ReadOnTheWay(s, t, env);
    } else if th.Joining? || th.Leading? || th.Deciding? {
      FlightOnTheWay(s, t, env);
    } else if th.Refreshing? || th.Failed? {
      RefreshOnTheWay(s, t, env);
    } else if th.Landing? || th.Returning? {
      LandOnTheWay(s, t, env);
    } else {
      PersistOnTheWay(s, t, env);
    }
  }

  function Moves(t: nat, env: Env, n: nat): seq<Step> {
    if n == 0 then [] else Moves(t, env, n - 1) + [Advance(t, env)]
  }

  lemma {:induction false} MovesFront(t: nat, env: Env, n: nat)
    ensures Moves(t, env, n + 1) == [Advance(t, env)] + Moves(t, env, n)
  {
    if n > 0 {
      MovesFront(t, env, n - 1);
    }
  }

  // One move, as a run.
  lemma {:induction false} OneMove(s: Sys, t: nat, env: Env) returns (next: Sys)
    requires Alone(s, t) && !s.threads[t].Done?
    ensures next == CredentialProtocol.Run(s, [Advance(t, env)])
    ensures Alone(next, t) && next.threads[t].key == s.threads[t].key && MovesLeft(next.threads[t]) < MovesLeft(s.threads[t])
    ensures Outlook(next.store, next.threads[t], env) == Outlook(s.store, s.threads[t], env)
  {
    MovesOnTheWay(s, t, env);
    next := Move(s, t, env);
    RunAppend(s, [], Advance(t, env));
    assert [] + [Advance(t, env)] == [Advance(t, env)];
  }

  lemma {:induction false} Finishes(s: Sys, t: nat, env: Env) returns (n: nat)
    requires Alone(s, t)
    ensures var s' := CredentialProtocol.Run(s, Moves(t, env, n));
      && t < |s'.threads| && s'.threads[t].Done? && s'.threads[t].key == s.threads[t].key
      && Outcome(s'.store, s'.threads[t].result) == Outlook(s.store, s.threads[t], env)
    ensures n <= MovesLeft(s.threads[t])
    decreases MovesLeft(s.threads[t])
  {
    n := 0;
    if !s.threads[t].Done? {
      var next := OneMove(s, t, env);
      n := Finishes(next, t, env);
      MovesFront(t, env, n);
      RunConcat(s, [Advance(t, env)], Moves(t, env, n));
      n := n + 1;
    }
  }

  /** A call made while nobody refreshes its key, and then run to its end without anybody else moving, leaves the store
      and returns the result of the sequential Get, Peek or Store. */
  lemma {:induction false} SoloCall(s: Sys, t: nat, call: Call, env: Env) returns (n: nat)
    requires t < |s.threads| && (s.threads[t].Idle? || s.threads[t].Done?)
    requires !InFlight(s, call.key)
    ensures var s' := CredentialProtocol.Run(s, [Begin(t, call)] + Moves(t, env, n));
      && t < |s'.threads| && s'.threads[t].Done? && s'.threads[t].key == call.key
      && Outcome(s'.store, s'.threads[t].result)
         == match call
            case CallGet(key) => AfterGet(s.store, key, env)
            case CallPeek(key) => AfterPeek(s.store, key, env)
            case CallStore(key, cred) => AfterStore(s.store, key, cred, env)
  {
    var s1 := Exec(s, Begin(t, call));
    n := Finishes(s1, t, env);
    RunConcat(s, [Begin(t, call)], Moves(t, env, n));
    assert DropLast([Begin(t, call)]) == [];
  }
}
