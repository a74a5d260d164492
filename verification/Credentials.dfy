/** The credential manager (pkg/auth/manager.go) used by one caller at a time.  CredentialProtocol interleaves callers.
    Reading the existing file and renaming the new one over it count as one atomic step. */
module Credentials {
  import opened Common
  import opened State

  type Generation = x: nat | x < TWO64

  datatype Credential = Credential(
    tenant: string, provider: string, accessToken: string, refreshToken: string,
    expiresAt: Time, generation: Generation, clientID: string, projectID: string)

  datatype Error = NotFound | Expired | GenerationStale | Invalidated | ReadFailed | WriteFailed

  datatype Result<+T> = Ok(value: T) | Err(error: Error)

  type Files = map<string, Credential>

  const REFRESH_WINDOW: Time := 300_000_000_000

  /** What the outside world does during one call: three clock readings, what the refresher returns (None is its
      error), whether an existing file can be read, and whether the new one can be written. */
  datatype Env = Env(now: Time, later: Time, last: Time, outcome: Option<Credential>, readable: bool, writable: bool)

  function Persist(disk: Files, key: string, cred: Credential, readable: bool, writable: bool): Result<Files> {
    if readable && key in disk && cred.generation < disk[key].generation then Err(GenerationStale)
    else if !writable then Err(WriteFailed)
    else Ok(disk[key := cred])
  }

  function LoadFromDisk(disk: Files, key: string, readable: bool): Result<Credential> {
    if key !in disk then Err(NotFound) else if !readable then Err(ReadFailed) else Ok(disk[key])
  }

  predicate Fresh(cred: Credential, now: Time) {
    cred.expiresAt - now > REFRESH_WINDOW
  }

  predicate Over(cred: Credential, now: Time) {
    now > cred.expiresAt
  }

  // The generation is a uint64, so the increment can wrap.
  function Bumped(latest: Credential, refreshed: Credential): Credential {
    if refreshed.generation <= latest.generation then refreshed.(generation := (latest.generation + 1) % TWO64) else refreshed
  }

  /** disk is the storage directory; the rest is the manager's memory. */
  datatype Store = Store(disk: Files, cache: Files, revoked: set<string>, refresher: bool)

  datatype Outcome = Outcome(store: Store, result: Result<Credential>)

  function Publish(s: Store, key: string, cred: Credential): Store {
    s.(disk := s.disk[key := cred], cache := s.cache[key := cred], revoked := s.revoked - {key})
  }

  function AfterStore(s: Store, key: string, cred: Credential, env: Env): Outcome {
    match Persist(s.disk, key, cred, env.readable, env.writable)
    case Err(e) => Outcome(s, Err(e))
    case Ok(_) => Outcome(Publish(s, key, cred), Ok(cred))
  }

  // The cached credential, or the file's, which is then cached.
  function AfterPeek(s: Store, key: string, env: Env): Outcome {
    if key in s.cache then Outcome(s, Ok(s.cache[key]))
    else
      match LoadFromDisk(s.disk, key, env.readable)
      case Err(e) => Outcome(s, Err(e))
      case Ok(cred) => Outcome(s.(cache := s.cache[key := cred]), Ok(cred))
  }

  function AfterRefresh(s: Store, key: string, env: Env): Outcome
    requires key in s.cache
  {
    var latest := s.cache[key];
    if Fresh(latest, env.later) && key !in s.revoked then Outcome(s, Ok(latest))
    else if !s.refresher then Outcome(s, if Over(latest, env.last) then Err(Expired) else Ok(latest))
    else if env.outcome.None? then
      Outcome(s, if Over(latest, env.last) then Err(Expired) else if key in s.revoked then Err(Invalidated) else Ok(latest))
    else AfterStore(s, key, Bumped(latest, env.outcome.value), env)
  }

  function AfterGet(s: Store, key: string, env: Env): Outcome {
    var loaded := AfterPeek(s, key, env);
    match loaded.result
    case Err(_) => loaded
    case Ok(cred) => if Fresh(cred, env.now) && key !in s.revoked then loaded else AfterRefresh(loaded.store, key, env)
  }

  function AfterInvalidate(s: Store, key: string, token: string): (Store, bool) {
    if token != "" && key in s.cache && s.cache[key].accessToken != token then (s, false)
    else (s.(revoked := s.revoked + {key}), true)
  }

  /** The object itself; the storage directory is a field of it. */
  class Manager {
    var disk: Files
    var cache: Files
    var revoked: set<string>
    var refresher: bool

    function State(): Store
      reads this
    {
      Store(disk, cache, revoked, refresher)
    }

    constructor (disk: Files, refresher: bool)
      ensures State() == Store(disk, map[], {}, refresher)
    {
      this.disk, cache, revoked, this.refresher := disk, map[], {}, refresher;
    }

    method WriteFile(key: string, cred: Credential, env: Env) returns (error: Option<Error>)
      modifies this`disk
      ensures var r := Persist(old(disk), key, cred, env.readable, env.writable);
              if r.Ok? then error == None && disk == r.value else error == Some(r.error) && disk == old(disk)
    {
      if env.readable && key in disk {
        if cred.generation < disk[key].generation {
          return Some(GenerationStale);
        }
      }
      if !env.writable {
        return Some(WriteFailed);
      }
      disk := disk[key := cred];
      return None;
    }

    method StoreCredential(key: string, cred: Credential, env: Env) returns (error: Option<Error>)
      modifies this
      ensures var o := AfterStore(old(State()), key, cred, env);
              State() == o.store && error == (if o.result.Ok? then None else Some(o.result.error))
    {
      error := WriteFile(key, cred, env);
      if error.Some? {
        return;
      }
      cache := cache[key := cred];
      revoked := revoked - {key};
    }

    method Peek(key: string, env: Env) returns (result: Result<Credential>)
      modifies this
      ensures Outcome(State(), result) == AfterPeek(old(State()), key, env)
    {
      if key in cache {
        return Ok(cache[key]);
      }
      result := LoadFromDisk(disk, key, env.readable);
      if result.Ok? {
        cache := cache[key := result.value];
      }
    }

    method Invalidate(key: string, token: string) returns (done: bool)
      modifies this
      ensures (State(), done) == AfterInvalidate(old(State()), key, token)
    {
      if token != "" {
        if key in cache && cache[key].accessToken != token {
          return false;
        }
      }
      revoked := revoked + {key};
      return true;
    }

    method Get(key: string, env: Env) returns (result: Result<Credential>)
      modifies this
      ensures Outcome(State(), result) == AfterGet(old(State()), key, env)
    {
      result := Peek(key, env);
      if result.Err? {
        return;
      }
      if Fresh(result.value, env.now) && key !in revoked {
        return;
      }
      result := Refresh(key, env);
    }

    // The function run under singleflight.
    method Refresh(key: string, env: Env) returns (result: Result<Credential>)
      requires key in cache
      modifies this
      ensures Outcome(State(), result) == AfterRefresh(old(State()), key, env)
    {
      var latest := cache[key];
      if Fresh(latest, env.later) && key !in revoked {
        return Ok(latest);
      }
      if !refresher {
        if Over(latest, env.last) {
          return Err(Expired);
        }
        return Ok(latest);
      }
      if env.outcome.None? {
        if Over(latest, env.last) {
          return Err(Expired);
        }
        if key in revoked {
          return Err(Invalidated);
        }
        return Ok(latest);
      }
      var refreshed := env.outcome.value;
      if refreshed.generation <= latest.generation {
        refreshed := refreshed.(generation := (latest.generation + 1) % TWO64);
      }
      var error := StoreCredential(key, refreshed, env);
      if error.Some? {
        return Err(error.value);
      }
      return Ok(refreshed);
    }
  }

  // ---------------------------------------------------------------- when a refresh is needed

  // Five minutes, in nanoseconds.
  const FIVE_MINUTES: Time := 5 * 60 * 1_000_000_000

  // More than five minutes are left at the reading.
  predicate LastsLonger(cred: Credential, reading: Time) {
    reading + FIVE_MINUTES < cred.expiresAt
  }

  // The credential a call that reads key starts from.
  function Offered(s: Store, key: string, env: Env): Option<Credential> {
    if key in s.cache then Some(s.cache[key]) else if key in s.disk && env.readable then Some(s.disk[key]) else None
  }

  // cred is what the refresher returned, with the next generation if its own is not above the old credential's.
  predicate RefreshedFrom(cred: Credential, was: Credential, outcome: Credential) {
    && cred == outcome.(generation := cred.generation)
    && cred.generation == if outcome.generation > was.generation then outcome.generation else (was.generation + 1) % TWO64
  }

  // The write of cred under key replaces the file.
  predicate Written(s: Store, key: string, cred: Credential, env: Env) {
    env.writable && !NewerOnDisk(s, key, cred, env)
  }

  predicate NewerOnDisk(s: Store, key: string, cred: Credential, env: Env) {
    env.readable && key in s.disk && s.disk[key].generation > cred.generation
  }

  // There is time left by one of the two readings of the check, and nobody has rejected the credential.
  predicate GoodEnough(s: Store, key: string, cred: Credential, env: Env) {
    key !in s.revoked && (LastsLonger(cred, env.now) || LastsLonger(cred, env.later))
  }

  /** When a Get answers without a refresh: with more than five minutes left and no invalidation, the credential comes back
      as it is and nothing is written. */
  lemma {:induction false} GoodCredentialIsReturned(s: Store, key: string, env: Env)
    requires Offered(s, key, env).Some? && GoodEnough(s, key, Offered(s, key, env).value, env)
    ensures var cred := Offered(s, key, env).value;
      AfterGet(s, key, env) == Outcome(s.(cache := s.cache[key := cred]), Ok(cred))
  {
    assert key in s.cache ==> s.cache[key := s.cache[key]] == s.cache;
  }

  /** Otherwise a refresher that succeeds is used: its credential is returned, cached and on the disk, and the invalidation is
      lifted; if it cannot be written, the call fails and the manager is as it was. */
  lemma {:induction false} RefreshReplaces(s: Store, key: string, env: Env)
    requires Offered(s, key, env).Some? && !GoodEnough(s, key, Offered(s, key, env).value, env)
    requires s.refresher && env.outcome.Some?
    ensures var was := Offered(s, key, env).value;
      exists cred :: RefreshedFrom(cred, was, env.outcome.value) &&
        AfterGet(s, key, env) ==
          if Written(s, key, cred, env) then
            Outcome(Store(s.disk[key := cred], s.cache[key := cred], s.revoked - {key}, true), Ok(cred))
          else
            Outcome(s.(cache := s.cache[key := was]), Err(if NewerOnDisk(s, key, cred, env) then GenerationStale else WriteFailed))
  {
    var was := Offered(s, key, env).value;
    assert key in s.cache ==> s.cache[key := was] == s.cache;
    assert RefreshedFrom(Bumped(was, env.outcome.value), was, env.outcome.value);
  }

  /** Without one, the old credential is handed out until it has expired; if the refresher failed, only while nobody has
      rejected it. */
  lemma {:induction false} OldIsReturnedIff(s: Store, key: string, env: Env)
    requires Offered(s, key, env).Some? && !GoodEnough(s, key, Offered(s, key, env).value, env)
    requires !(s.refresher && env.outcome.Some?)
    ensures var o, was := AfterGet(s, key, env), Offered(s, key, env).value;
      && o.store == s.(cache := s.cache[key := was])
      && (o.result == Ok(was) <==> env.last <= was.expiresAt && (s.refresher ==> key !in s.revoked))
      && (o.result == Err(Expired) <==> env.last > was.expiresAt)
      && (o.result == Err(Invalidated) <==> env.last <= was.expiresAt && s.refresher && key in s.revoked)
      && (o.result.Ok? ==> o.result.value == was)
  {
    assert key in s.cache ==> s.cache[key := s.cache[key]] == s.cache;
  }

  /** With nothing to start from the call fails and changes nothing. */
  lemma {:induction false} NothingOffered(s: Store, key: string, env: Env)
    requires Offered(s, key, env).None?
    ensures AfterGet(s, key, env) == Outcome(s, Err(if key in s.disk then ReadFailed else NotFound))
  {
  }

  /** An invalidation takes effect unless the cache holds another token than the rejected one; it writes nothing else. */
  lemma {:induction false} InvalidateIff(s: Store, key: string, token: string)
    ensures var (s', done) := AfterInvalidate(s, key, token);
      && (done <==> token == "" || key !in s.cache || s.cache[key].accessToken == token)
      && s' == s.(revoked := if done then s.revoked + {key} else s.revoked)
  {
  }

  // ---------------------------------------------------------------- runs

  datatype Op =
    | OpGet(key: string, env: Env)
    | OpPeek(key: string, env: Env)
    | OpStore(key: string, cred: Credential, env: Env)
    | OpInvalidate(key: string, token: string)

  function Do(s: Store, op: Op): Store {
    match op
    case OpGet(key, env) => AfterGet(s, key, env).store
    case OpPeek(key, env) => AfterPeek(s, key, env).store
    case OpStore(key, cred, env) => AfterStore(s, key, cred, env).store
    case OpInvalidate(key, token) => AfterInvalidate(s, key, token).0
  }

  function Run(s: Store, ops: seq<Op>): Store {
    if ops == [] then s else Do(Run(s, DropLast(ops)), Last(ops))
  }

  /** Everything in memory is exactly what a restart would load. */
  ghost predicate Durable(s: Store) {
    forall k :: k in s.cache ==> k in s.disk && s.cache[k] == s.disk[k]
  }

  lemma {:induction false} DoDurable(s: Store, op: Op)
    requires Durable(s)
    ensures Durable(Do(s, op))
  {
    if op.OpGet? {
      GetDurable(s, op.key, op.env);
    }
  }

  lemma {:induction false} GetDurable(s: Store, key: string, env: Env)
    requires Durable(s)
    ensures Durable(AfterGet(s, key, env).store)
  {
  }

  lemma {:induction false} RunDurable(s: Store, ops: seq<Op>)
    requires Durable(s)
    ensures Durable(Run(s, ops))
    decreases |ops|
  {
    if ops != [] {
      RunDurable(s, DropLast(ops));
      DoDurable(Run(s, DropLast(ops)), Last(ops));
    }
  }

  // ---------------------------------------------------------------- revocation

  // The operation is a Store of key that reaches the disk, or a Get of key whose refresh does.
  predicate Lifts(s: Store, op: Op, key: string) {
    && op.key == key
    && match op
       case OpStore(_, cred, env) => Persist(s.disk, key, cred, env.readable, env.writable).Ok?
       case OpGet(_, env) =>
         && env.outcome.Some? && AfterPeek(s, key, env).result.Ok?
         && Persist(s.disk, key, Bumped(AfterPeek(s, key, env).result.value, env.outcome.value), env.readable, env.writable).Ok?
       case _ => false
  }

  // What a caller reading key holds: the credential in memory, or on disk.
  function Held(s: Store, key: string): Option<Credential> {
    if key in s.cache then Some(s.cache[key]) else if key in s.disk then Some(s.disk[key]) else None
  }

  ghost predicate NeverLifted(s: Store, ops: seq<Op>, key: string) {
    forall i :: 0 <= i < |ops| ==> !Lifts(Run(s, ops[..i]), ops[i], key)
  }

  // s' has not changed what matters to the revocation of key in s.
  predicate SameRevocation(s: Store, s': Store, key: string) {
    s'.refresher == s.refresher && (key in s.revoked ==> key in s'.revoked) && Held(s', key) == Held(s, key)
  }

  lemma {:induction false} GetSameRevocation(s: Store, key: string, other: string, env: Env)
    requires Durable(s) && s.refresher && key in s.revoked && !Lifts(s, OpGet(other, env), key)
    ensures SameRevocation(s, AfterGet(s, other, env).store, key)
  {
  }

  lemma {:induction false} StaysRevoked(s: Store, op: Op, key: string)
    requires Durable(s) && s.refresher && key in s.revoked && !Lifts(s, op, key)
    ensures SameRevocation(s, Do(s, op), key)
  {
    if op.OpGet? {
      GetSameRevocation(s, key, op.key, op.env);
    }
  }

  lemma {:induction false} RunStaysRevoked(s: Store, ops: seq<Op>, key: string)
    requires Durable(s) && s.refresher && key in s.revoked && NeverLifted(s, ops, key)
    ensures var s' := Run(s, ops); Durable(s') && s'.refresher && key in s'.revoked && Held(s', key) == Held(s, key)
    decreases |ops|
  {
    RunDurable(s, ops);
    if ops != [] {
      var front := DropLast(ops);
      assert NeverLifted(s, front, key) by {
        forall i | 0 <= i < |front| ensures !Lifts(Run(s, front[..i]), front[i], key) {
          assert front[..i] == ops[..i];
        }
      }
      RunStaysRevoked(s, front, key);
      RunDurable(s, front);
      assert ops[..|ops| - 1] == front;
      StaysRevoked(Run(s, front), Last(ops), key);
    }
  }

  // The generation does not wrap past an unreadable file.
  predicate CanGrow(s: Store, key: string, env: Env) {
    env.readable || (Held(s, key).Some? && Held(s, key).value.generation + 1 < TWO64)
  }

  predicate Grown(s: Store, key: string, cred: Credential) {
    Held(s, key).Some? && cred.generation > Held(s, key).value.generation
  }

  // A revoked key is answered with an error unless this very call refreshes it.
  lemma {:induction false} RevokedGet(s: Store, key: string, env: Env)
    requires Durable(s) && s.refresher && key in s.revoked
    ensures AfterGet(s, key, env).result.Ok? <==> Lifts(s, OpGet(key, env), key)
    ensures var o := AfterGet(s, key, env);
            o.result.Ok? ==> Held(s, key).Some? && (CanGrow(s, key, env) <==> Grown(s, key, o.result.value))
  {
  }

  /** Invalidate, then any operations on any keys none of which lifts the revocation, however refreshes and writes
      fail: a Get of the key succeeds exactly when it refreshes and persists, and then returns a generation larger than
      the rejected credential's, exactly unless that one is the last and the file cannot be read. */
  lemma {:induction false} RevocationSticks(s: Store, key: string, token: string, ops: seq<Op>, env: Env)
    requires Durable(s) && s.refresher && AfterInvalidate(s, key, token).1
    requires NeverLifted(AfterInvalidate(s, key, token).0, ops, key)
    ensures var before := Run(AfterInvalidate(s, key, token).0, ops);
            var o := AfterGet(before, key, env);
            && (o.result.Ok? <==> Lifts(before, OpGet(key, env), key))
            && (o.result.Ok? ==>
                  && Held(s, key).Some? && (CanGrow(s, key, env) <==> Grown(s, key, o.result.value))
                  && key in o.store.disk && o.store.disk[key] == o.result.value && key !in o.store.revoked)
  {
    var s1 := AfterInvalidate(s, key, token).0;
    RunStaysRevoked(s1, ops, key);
    RevokedGet(Run(s1, ops), key, env);
  }

  /** A revoked credential is handed back exactly when no refresher is installed and it has not expired. */
  lemma {:induction false} RejectedHandedBackIff(s: Store, key: string, env: Env)
    requires Durable(s) && key in s.revoked && Held(s, key).Some? && env.readable
    ensures AfterGet(s, key, env).result == Ok(Held(s, key).value)
            <==> !s.refresher && !Over(Held(s, key).value, env.last)
  {
    if s.refresher {
      RevokedGet(s, key, env);
    }
  }

  const REJECTED := Credential("", "", "t", "", 1_000_000_000_000, TWO64 - 1, "", "")

  /** It is: a revoked credential, nobody to refresh it, and still an hour to go. */
  lemma {:induction false} RejectedIsHandedBack(env: Env)
    requires env.last <= REJECTED.expiresAt
    ensures var s := Store(map["k" := REJECTED], map["k" := REJECTED], {"k"}, false);
      AfterGet(s, "k", env).result == Ok(REJECTED)
  {
  }

  /** And with a refresher the generation can wrap to 0 past a file that cannot be read, the token staying the rejected
      one. */
  lemma {:induction false} GenerationWraps(env: Env)
    requires !env.readable && env.writable && env.outcome == Some(REJECTED)
    ensures var s := Store(map["k" := REJECTED], map["k" := REJECTED], {"k"}, true);
      AfterGet(s, "k", env).result == Ok(REJECTED.(generation := 0))
  {
  }
}
