/** The quota circuit breaker (pkg/quota/breaker.go): its own per-provider automaton under a mutex, mirrored into the
    state manager's automaton.  Each breaker call is one atomic step over both. */
module Breaker {
  import opened Common
  import opened State

  // providerBreakerState
  datatype Local = Local(circuit: Circuit, openedAt: Time, cooldown: Time, probeInFlight: bool, successes: int, failures: int)

  const NEW_LOCAL := Local(Closed, 0, 0, false, 0, 0)

  datatype BreakerConfig = BreakerConfig(defaultOpen: Time, threshold: int, jitter: real)

  const DEFAULT_OPEN: Time := 30_000_000_000

  // NewCircuitBreaker's corrections.
  function Normalize(cfg: BreakerConfig): (n: BreakerConfig)
    ensures n.defaultOpen > 0 && n.threshold > 0 && n.jitter >= 0.0
    ensures n == cfg <==> cfg.defaultOpen > 0 && cfg.threshold > 0 && cfg.jitter >= 0.0
    ensures cfg.defaultOpen <= 0 && cfg.threshold <= 0 && cfg.jitter < 0.0 ==> n == BreakerConfig(30_000_000_000, 5, 0.0)
  {
    BreakerConfig(if cfg.defaultOpen <= 0 then DEFAULT_OPEN else cfg.defaultOpen,
                  if cfg.threshold <= 0 then 5 else cfg.threshold,
                  if cfg.jitter < 0.0 then 0.0 else cfg.jitter)
  }

  datatype LimitKind = SpendLimit | AbuseGuard | WindowLimit | BurstRate | Capacity | TokenRate | UnknownLimit
                     | OtherLimit(name: string)

  /** A breaker call; `now` is the breaker's clock reading, `later` the reading taken when the manager is updated. */
  datatype Call =
    | AllowProbe(id: string, now: Time, later: Time, rand: real)
    | RecordSuccess(id: string, later: Time)
    | RecordFailure(id: string, now: Time, later: Time, err: Option<string>)
    | RecordLimit(id: string, kind: LimitKind, retryAfter: Time, retryAt: Option<Time>, message: string, now: Time, later: Time)
    | TripCircuit(id: string, cooldown: Time, now: Time, later: Time)

  // Both automata; snap is None when the breaker has no manager.
  datatype World = World(states: map<string, Local>, snap: Option<Snapshot>)

  function LocalOf(states: map<string, Local>, id: string): Local {
    if id in states then states[id] else NEW_LOCAL
  }

  function Update(sc: Config, snap: Option<Snapshot>, op: Op): Option<Snapshot> {
    if snap.None? then None else Some(Publish(sc, op, snap.value))
  }

  // time.Duration of a float truncates towards zero.
  function Trunc(r: real): int {
    if r >= 0.0 then r.Floor else -((-r).Floor)
  }

  function JitterFactor(rand: real, jitter: real): real {
    1.0 + (rand * 2.0 - 1.0) * jitter
  }

  function Jittered(c: Time, rand: real, jitter: real): Time {
    Trunc(c as real * JitterFactor(rand, jitter))
  }

  function BaseCooldown(cfg: BreakerConfig, st: Local): Time {
    if st.cooldown <= 0 then cfg.defaultOpen else st.cooldown
  }

  function Cooldown(cfg: BreakerConfig, st: Local, rand: real): Time {
    var c := BaseCooldown(cfg, st);
    if cfg.jitter > 0.0 then Jittered(c, rand, cfg.jitter) else c
  }

  function AdminBlocks(snap: Option<Snapshot>, id: string): bool {
    snap.Some? && id in snap.value.providers && snap.value.providers[id].admin == AdminDisabled
  }

  datatype Verdict = Verdict(world: World, allowed: bool)

  function Probe(cfg: BreakerConfig, sc: Config, w: World, c: Call): Verdict
    requires c.AllowProbe?
  {
    if AdminBlocks(w.snap, c.id) then Verdict(w, false)
    else
      var st := LocalOf(w.states, c.id);
      var kept := w.(states := w.states[c.id := st]);
      match st.circuit
      case Open =>
        if c.now - st.openedAt >= Cooldown(cfg, st, c.rand) then
          Verdict(World(w.states[c.id := st.(circuit := HalfOpen, probeInFlight := true, successes := 0)],
                        Update(sc, w.snap, Sync(c.id, HalfOpen, true, c.later))), true)
        else Verdict(kept, false)
      case HalfOpen =>
        if !st.probeInFlight then
          Verdict(World(w.states[c.id := st.(probeInFlight := true)],
                        Update(sc, w.snap, Sync(c.id, HalfOpen, true, c.later))), true)
        else Verdict(kept, false)
      case _ => Verdict(kept, true)
  }

  function Success(sc: Config, w: World, c: Call): World
    requires c.RecordSuccess?
  {
    var st := LocalOf(w.states, c.id);
    World(w.states[c.id := st.(successes := st.successes + 1, failures := 0, probeInFlight := false,
                               circuit := if st.circuit == HalfOpen then Closed else st.circuit)],
          Update(sc, w.snap, Op.RecordSuccess(c.id, c.later)))
  }

  // The failure trips the circuit.
  predicate Trips(cfg: BreakerConfig, st: Local) {
    st.circuit == HalfOpen || (st.circuit == Closed && st.failures + 1 >= cfg.threshold)
  }

  function FailedLocal(cfg: BreakerConfig, st: Local, now: Time): Local {
    var counted := st.(failures := st.failures + 1, successes := 0);
    if st.circuit == HalfOpen then
      counted.(circuit := Open, openedAt := now, probeInFlight := false,
               cooldown := if st.cooldown <= 0 then cfg.defaultOpen else st.cooldown)
    else if Trips(cfg, st) then counted.(circuit := Open, openedAt := now, cooldown := cfg.defaultOpen)
    else counted
  }

  function SyncIf(trips: bool, sc: Config, snap: Option<Snapshot>, id: string, later: Time): Option<Snapshot> {
    if trips then Update(sc, snap, Sync(id, Open, false, later)) else snap
  }

  function Failure(cfg: BreakerConfig, sc: Config, w: World, c: Call): World
    requires c.RecordFailure?
  {
    var st := LocalOf(w.states, c.id);
    World(w.states[c.id := FailedLocal(cfg, st, c.now)],
          Update(sc, SyncIf(Trips(cfg, st), sc, w.snap, c.id, c.later), Op.RecordFailure(c.id, c.later, c.err)))
  }

  // The limit opens the local circuit; a kind outside the named ones only counts as a failure.
  predicate LimitTrips(cfg: BreakerConfig, kind: LimitKind, st: Local) {
    !kind.WindowLimit? && (kind.OtherLimit? ==> st.failures + 1 >= cfg.threshold)
  }

  function LimitedLocal(cfg: BreakerConfig, kind: LimitKind, st: Local, retryAfter: Time, now: Time): Local {
    st.(openedAt := now, probeInFlight := false, cooldown := if retryAfter <= 0 then cfg.defaultOpen else retryAfter,
        failures := if kind.OtherLimit? then st.failures + 1 else st.failures,
        circuit := if LimitTrips(cfg, kind, st) then Open else st.circuit)
  }

  function LimitMirror(sc: Config, snap: Option<Snapshot>, c: Call, trips: bool): Option<Snapshot>
    requires c.RecordLimit?
  {
    match c.kind
    case SpendLimit => Update(sc, snap, Exhaust(c.id, c.now, c.message))
    case AbuseGuard => Update(sc, snap, Exhaust(c.id, c.now, c.message))
    case WindowLimit => Update(sc, snap, QuotaWindow(c.id, c.now, c.retryAt, c.message))
    case OtherLimit(_) => SyncIf(trips, sc, snap, c.id, c.later)
    case _ => Update(sc, SyncIf(true, sc, snap, c.id, c.later), Op.Trip(c.id, c.now, c.message))
  }

  function Limit(cfg: BreakerConfig, sc: Config, w: World, c: Call): World
    requires c.RecordLimit?
  {
    if c.id == "" then w
    else
      var st := LocalOf(w.states, c.id);
      World(w.states[c.id := LimitedLocal(cfg, c.kind, st, c.retryAfter, c.now)],
            LimitMirror(sc, w.snap, c, LimitTrips(cfg, c.kind, st)))
  }

  function TripStep(cfg: BreakerConfig, sc: Config, w: World, c: Call): World
    requires c.TripCircuit?
  {
    var st := LocalOf(w.states, c.id);
    World(w.states[c.id := st.(circuit := Open, openedAt := c.now, probeInFlight := false,
                               cooldown := if c.cooldown > 0 then c.cooldown else cfg.defaultOpen)],
          Update(sc, w.snap, Sync(c.id, Open, false, c.later)))
  }

  function Step(cfg: BreakerConfig, sc: Config, w: World, c: Call): Verdict {
    match c
    case AllowProbe(_, _, _, _) => Probe(cfg, sc, w, c)
    case RecordSuccess(_, _) => Verdict(Success(sc, w, c), false)
    case RecordFailure(_, _, _, _) => Verdict(Failure(cfg, sc, w, c), false)
    case RecordLimit(_, _, _, _, _, _, _) => Verdict(Limit(cfg, sc, w, c), false)
    case TripCircuit(_, _, _, _) => Verdict(TripStep(cfg, sc, w, c), false)
  }

  /** The breaker object over its manager object. */
  class CircuitBreaker {
    const cfg: BreakerConfig
    const smCfg: Config
    const sm: StateManager?
    var states: map<string, Local>

    ghost predicate Valid() {
      sm != null ==> sm.cfg == smCfg
    }

    ghost function State(): World
      reads this, sm
    {
      World(states, if sm == null then None else Some(sm.snapshot))
    }

    constructor (sm: StateManager?, smCfg: Config, cfg: BreakerConfig)
      requires sm != null ==> sm.cfg == smCfg
      ensures Valid() && this.sm == sm && this.smCfg == smCfg && this.cfg == Normalize(cfg) && states == map[]
    {
      this.sm, this.smCfg, this.cfg, states := sm, smCfg, Normalize(cfg), map[];
    }

    method GetOrCreate(id: string) returns (st: Local)
      modifies this`states
      ensures st == LocalOf(old(states), id) && states == old(states)[id := st]
    {
      if id !in states {
        states := states[id := NEW_LOCAL];
      }
      st := states[id];
      assert states == old(states)[id := st];
    }

    method UpdateManager(op: Op)
      requires Valid()
      modifies sm
      ensures State() == old(State()).(snap := Update(smCfg, old(State()).snap, op))
    {
      if sm != null {
        sm.Update(op);
      }
    }

    // syncToStateManager opening the circuit.
    method SyncOpen(trips: bool, id: string, later: Time)
      requires Valid()
      modifies sm
      ensures State() == old(State()).(snap := SyncIf(trips, smCfg, old(State()).snap, id, later))
    {
      if trips {
        UpdateManager(Sync(id, Open, false, later));
      }
    }

    method ReportFailure(id: string, later: Time, err: Option<string>)
      requires Valid()
      modifies sm
      ensures State() == old(State()).(snap := Update(smCfg, old(State()).snap, Op.RecordFailure(id, later, err)))
    {
      if sm != null {
        sm.RecordFailure(id, later, err);
      }
    }

    method MirrorLimit(c: Call, trips: bool)
      requires Valid() && c.RecordLimit?
      modifies sm
      ensures State() == old(State()).(snap := LimitMirror(smCfg, old(State()).snap, c, trips))
    {
      match c.kind {
        case SpendLimit => UpdateManager(Exhaust(c.id, c.now, c.message));
        case AbuseGuard => UpdateManager(Exhaust(c.id, c.now, c.message));
        case WindowLimit => UpdateManager(QuotaWindow(c.id, c.now, c.retryAt, c.message));
        case OtherLimit(_) => SyncOpen(trips, c.id, c.later);
        case _ =>
          SyncOpen(true, c.id, c.later);
          UpdateManager(Op.Trip(c.id, c.now, c.message));
      }
    }

    method AllowProbe(id: string, now: Time, later: Time, rand: real) returns (allowed: bool)
      requires Valid()
      modifies this, sm
      ensures Verdict(State(), allowed) == Step(cfg, smCfg, old(State()), Call.AllowProbe(id, now, later, rand))
    {
      if sm != null && id in sm.snapshot.providers && sm.snapshot.providers[id].admin == AdminDisabled {
        return false;
      }
      var st := GetOrCreate(id);
      match st.circuit {
        case Open =>
          var cooldown := st.cooldown;
          if cooldown <= 0 {
            cooldown := cfg.defaultOpen;
          }
          if cfg.jitter > 0.0 {
            cooldown := Jittered(cooldown, rand, cfg.jitter);
          }
          if now - st.openedAt >= cooldown {
            states := states[id := st.(circuit := HalfOpen, probeInFlight := true, successes := 0)];
            UpdateManager(Sync(id, HalfOpen, true, later));
            return true;
          }
          return false;
        case HalfOpen =>
          if !st.probeInFlight {
            states := states[id := st.(probeInFlight := true)];
            UpdateManager(Sync(id, HalfOpen, true, later));
            return true;
          }
          return false;
        case _ =>
          return true;
      }
    }

    method RecordSuccess(id: string, later: Time)
      requires Valid()
      modifies this, sm
      ensures Verdict(State(), false) == Step(cfg, smCfg, old(State()), Call.RecordSuccess(id, later))
    {
      var st := GetOrCreate(id);
      st := st.(successes := st.successes + 1);
      st := st.(failures := 0);
      st := st.(probeInFlight := false);
      if st.circuit == HalfOpen {
        st := st.(circuit := Closed);
      }
      states := states[id := st];
      if sm != null {
        sm.RecordSuccess(id, later);
      }
    }

    // The part of RecordFailure that works on the local state.
    method CountFailure(before: Local, now: Time) returns (st: Local, trips: bool)
      ensures st == FailedLocal(cfg, before, now) && trips == Trips(cfg, before)
    {
      st, trips := before, false;
      st := st.(failures := st.failures + 1);
      st := st.(successes := 0);
      if st.circuit == HalfOpen {
        st := st.(circuit := Open, openedAt := now, probeInFlight := false);
        if st.cooldown <= 0 {
          st := st.(cooldown := cfg.defaultOpen);
        }
        trips := true;
      } else if st.circuit == Closed {
        if st.failures >= cfg.threshold {
          st := st.(circuit := Open, openedAt := now, cooldown := cfg.defaultOpen);
          trips := true;
        }
      }
    }

    method RecordFailure(id: string, now: Time, later: Time, err: Option<string>)
      requires Valid()
      modifies this, sm
      ensures State() == Failure(cfg, smCfg, old(State()), Call.RecordFailure(id, now, later, err))
    {
      var st := GetOrCreate(id);
      var after, trips := CountFailure(st, now);
      states := states[id := after];
      SyncOpen(trips, id, later);
      ReportFailure(id, later, err);
    }

    // The part of RecordLimitError that works on the local state.
    method CountLimit(before: Local, kind: LimitKind, retryAfter: Time, now: Time) returns (st: Local, trips: bool)
      ensures st == LimitedLocal(cfg, kind, before, retryAfter, now) && trips == LimitTrips(cfg, kind, before)
    {
      st, trips := before, false;
      var cooldown := retryAfter;
      if cooldown <= 0 {
        cooldown := cfg.defaultOpen;
      }
      st := st.(cooldown := cooldown, openedAt := now, probeInFlight := false);
      match kind {
        case WindowLimit =>
        case OtherLimit(_) =>
          st := st.(failures := st.failures + 1);
          if st.failures >= cfg.threshold {
            st := st.(circuit := Open);
            trips := true;
          }
        case _ =>
          st := st.(circuit := Open);
          trips := true;
      }
    }

    method RecordLimitError(id: string, kind: LimitKind, retryAfter: Time, retryAt: Option<Time>, message: string,
                            now: Time, later: Time)
      requires Valid()
      modifies this, sm
      ensures State() == Limit(cfg, smCfg, old(State()), RecordLimit(id, kind, retryAfter, retryAt, message, now, later))
    {
      if id == "" {
        return;
      }
      var st := GetOrCreate(id);
      var after, trips := CountLimit(st, kind, retryAfter, now);
      states := states[id := after];
      MirrorLimit(RecordLimit(id, kind, retryAfter, retryAt, message, now, later), trips);
    }

    method TripCircuit(id: string, cooldown: Time, now: Time, later: Time)
      requires Valid()
      modifies this, sm
      ensures Verdict(State(), false) == Step(cfg, smCfg, old(State()), Call.TripCircuit(id, cooldown, now, later))
    {
      var st := GetOrCreate(id);
      st := st.(circuit := Open, openedAt := now, probeInFlight := false);
      if cooldown > 0 {
        st := st.(cooldown := cooldown);
      } else {
        st := st.(cooldown := cfg.defaultOpen);
      }
      states := states[id := st];
      UpdateManager(Sync(id, Open, false, later));
    }
  }

  // ---------------------------------------------------------------- runs

  // A breaker call, or a manager update made by somebody else.
  datatype Action = Breaker(call: Call) | Manager(op: Op)

  function Act(cfg: BreakerConfig, sc: Config, w: World, a: Action): Verdict {
    match a
    case Breaker(c) => Step(cfg, sc, w, c)
    case Manager(op) => Verdict(w.(snap := Update(sc, w.snap, op)), false)
  }

  function Run(cfg: BreakerConfig, sc: Config, w: World, actions: seq<Action>): World {
    if actions == [] then w else Act(cfg, sc, Run(cfg, sc, w, DropLast(actions)), Last(actions)).world
  }

  // Nobody but the breaker touches the circuit of provider id.
  predicate Permitted(a: Action, id: string) {
    a.Manager? ==> a.op.OnModels() || a.op.id != id || a.op.SetAdminState? || a.op.ResetQuota?
  }

  ghost predicate AllPermitted(actions: seq<Action>, id: string) {
    forall a :: a in actions ==> Permitted(a, id)
  }

  // Registered with a closed circuit and no failures, unknown to the breaker.
  predicate Registered(w: World, id: string) {
    && id !in w.states && w.snap.Some? && id in w.snap.value.providers
    && w.snap.value.providers[id].circuit == Closed && w.snap.value.providers[id].failures == 0
  }

  /** The two automata are in the same circuit state. */
  predicate Agree(w: World, id: string) {
    && w.snap.Some? && id in w.snap.value.providers
    && w.snap.value.providers[id].circuit == LocalOf(w.states, id).circuit
  }

  // The inductive form: recognised circuits, and the manager never counts more failures than the breaker.
  predicate Lockstep(w: World, id: string) {
    && Agree(w, id)
    && !LocalOf(w.states, id).circuit.CircuitOther?
    && 0 <= w.snap.value.providers[id].failures <= LocalOf(w.states, id).failures
  }

  predicate ThresholdsFit(cfg: BreakerConfig, sc: Config) {
    cfg.threshold <= sc.failureThreshold || cfg.threshold <= 1
  }

  lemma {:induction false} ProbeLockstep(cfg: BreakerConfig, sc: Config, w: World, c: Call, id: string)
    requires Lockstep(w, id) && c.AllowProbe?
    ensures Lockstep(Probe(cfg, sc, w, c).world, id)
  {
  }

  lemma {:induction false} FailureLockstep(cfg: BreakerConfig, sc: Config, w: World, c: Call, id: string)
    requires Lockstep(w, id) && c.RecordFailure? && ThresholdsFit(cfg, sc)
    ensures Lockstep(Failure(cfg, sc, w, c), id)
  {
    if c.id == id {
      var st := LocalOf(w.states, id);
      FailureMirror(sc, w.snap.value, id, c.later, c.err, Trips(cfg, st));
    }
  }

  // What the manager shows after a failure: what it was told first, if the breaker trips, and then its own count.
  lemma {:induction false} FailureMirror(sc: Config, s: Snapshot, id: string, later: Time, err: Option<string>, trips: bool)
    requires id in s.providers
    ensures var s' := Update(sc, SyncIf(trips, sc, Some(s), id, later), Op.RecordFailure(id, later, err)); var p := s.providers[id];
      && s'.Some? && id in s'.value.providers && s'.value.providers[id].failures == p.failures + 1
      && s'.value.providers[id].circuit
         == if trips || p.circuit == HalfOpen || (p.circuit == Closed && p.failures + 1 >= sc.failureThreshold) then Open
            else p.circuit
  {
  }

  lemma {:induction false} LimitLockstep(cfg: BreakerConfig, sc: Config, w: World, c: Call, id: string)
    requires Lockstep(w, id) && c.RecordLimit?
    ensures Lockstep(Limit(cfg, sc, w, c), id)
  {
    if c.id != "" {
      MirrorCircuit(sc, w.snap, c, LimitTrips(cfg, c.kind, LocalOf(w.states, c.id)), id);
    }
  }

  // What the manager shows of provider id after a limit: open when it trips, otherwise as before.
  lemma {:induction false} MirrorCircuit(sc: Config, snap: Option<Snapshot>, c: Call, trips: bool, id: string)
    requires c.RecordLimit? && snap.Some? && id in snap.value.providers
    requires !c.kind.OtherLimit? ==> trips == !c.kind.WindowLimit?
    ensures var s := LimitMirror(sc, snap, c, trips); var p := snap.value.providers[id];
      && s.Some? && id in s.value.providers && s.value.providers[id].failures == p.failures
      && s.value.providers[id].circuit == if c.id == id && trips then Open else p.circuit
  {
  }

  lemma {:induction false} ActLockstep(cfg: BreakerConfig, sc: Config, w: World, a: Action, id: string)
    requires Lockstep(w, id) && Permitted(a, id) && ThresholdsFit(cfg, sc)
    ensures Lockstep(Act(cfg, sc, w, a).world, id)
  {
    if a.Breaker? {
      match a.call
      case AllowProbe(_, _, _, _) => ProbeLockstep(cfg, sc, w, a.call, id);
      case RecordFailure(_, _, _, _) => FailureLockstep(cfg, sc, w, a.call, id);
      case RecordLimit(_, _, _, _, _, _, _) => LimitLockstep(cfg, sc, w, a.call, id);
      case _ =>
    }
  }

  lemma {:induction false} RunNext(cfg: BreakerConfig, sc: Config, w: World, actions: seq<Action>, k: nat)
    requires k < |actions|
    ensures Run(cfg, sc, w, actions[..k + 1]) == Act(cfg, sc, Run(cfg, sc, w, actions[..k]), actions[k]).world
  {
    assert DropLast(actions[..k + 1]) == actions[..k];
  }

  lemma {:induction false} RunLockstep(cfg: BreakerConfig, sc: Config, w: World, actions: seq<Action>, id: string)
    requires Registered(w, id) && AllPermitted(actions, id) && ThresholdsFit(cfg, sc)
    ensures Lockstep(Run(cfg, sc, w, actions), id)
    decreases |actions|
  {
    if actions != [] {
      RunLockstep(cfg, sc, w, DropLast(actions), id);
      ActLockstep(cfg, sc, Run(cfg, sc, w, DropLast(actions)), Last(actions), id);
    }
  }

  // ---------------------------------------------------------------- the thresholds matter

  function Failures(id: string, n: nat): seq<Action> {
    seq(n, _ => Breaker(Call.RecordFailure(id, 0, 0, None)))
  }

  // After n failures, fewer than the breaker's threshold.
  lemma {:induction false} FailuresCount(cfg: BreakerConfig, sc: Config, w: World, id: string, n: nat)
    requires Registered(w, id) && n < cfg.threshold
    ensures var w' := Run(cfg, sc, w, Failures(id, n));
      && w'.snap.Some? && id in w'.snap.value.providers
      && LocalOf(w'.states, id).circuit == Closed && LocalOf(w'.states, id).failures == n
      && w'.snap.value.providers[id].failures == n
      && (w'.snap.value.providers[id].circuit == Closed <==> n == 0 || n < sc.failureThreshold)
      && (w'.snap.value.providers[id].circuit == Closed || w'.snap.value.providers[id].circuit == Open)
  {
    if n > 0 {
      FailuresCount(cfg, sc, w, id, n - 1);
      assert DropLast(Failures(id, n)) == Failures(id, n - 1);
    }
  }

  /** Three failures open the manager's circuit of threshold 3 and leave the breaker's of threshold 5 closed. */
  lemma {:induction false} ThresholdsApart(cfg: BreakerConfig, sc: Config, w: World, id: string)
    requires Registered(w, id) && cfg.threshold == 5 && sc.failureThreshold == 3
    ensures var w' := Run(cfg, sc, w, Failures(id, 3));
      w'.snap.Some? && id in w'.snap.value.providers && w'.snap.value.providers[id].circuit == Open
      && LocalOf(w'.states, id).circuit == Closed
  {
    FailuresCount(cfg, sc, w, id, 3);
  }

  /** Every permitted run keeps the circuits equal exactly when the breaker does not tolerate more failures than the
      manager. */
  lemma {:induction false} AgreeForeverIff(cfg: BreakerConfig, sc: Config, w: World, id: string)
    requires Registered(w, id) && cfg.threshold > 0
    ensures (forall actions :: AllPermitted(actions, id) ==> Agree(Run(cfg, sc, w, actions), id))
            <==> ThresholdsFit(cfg, sc)
  {
    if ThresholdsFit(cfg, sc) {
      forall actions | AllPermitted(actions, id) ensures Agree(Run(cfg, sc, w, actions), id) {
        RunLockstep(cfg, sc, w, actions, id);
      }
    } else {
      var n := if sc.failureThreshold < 1 then 1 else sc.failureThreshold;
      FailuresCount(cfg, sc, w, id, n);
      assert AllPermitted(Failures(id, n), id);
      assert !Agree(Run(cfg, sc, w, Failures(id, n)), id);
    }
  }

  // ---------------------------------------------------------------- the probe flags

  predicate FlagsEqual(w: World, id: string) {
    w.snap.Some? && id in w.snap.value.providers && w.snap.value.providers[id].probeInFlight == LocalOf(w.states, id).probeInFlight
  }

  /** A call of id made while its probe is in flight that clears only one of the flags: a success or a limit that the
      manager's closure does not take for the end of the probe, or a trip by threshold that the breaker does not. */
  predicate ClearsOne(cfg: BreakerConfig, w: World, c: Call, id: string) {
    var st := LocalOf(w.states, id);
    && c.id == id && st.probeInFlight
    && match c
       case RecordSuccess(_, _) => st.circuit == Open
       case RecordFailure(_, _, _, _) => st.circuit == Closed && Trips(cfg, st)
       case RecordLimit(_, kind, _, _, _, _, _) =>
         id != "" && (kind == SpendLimit || kind == AbuseGuard || kind == WindowLimit
                      || (kind.OtherLimit? && !LimitTrips(cfg, kind, st)))
       case _ => false
  }

  lemma {:induction false} FailureFlags(cfg: BreakerConfig, sc: Config, w: World, c: Call, id: string)
    requires Lockstep(w, id) && FlagsEqual(w, id) && c.RecordFailure?
    ensures FlagsEqual(Failure(cfg, sc, w, c), id) <==> !ClearsOne(cfg, w, c, id)
  {
  }

  // What the manager shows of the flag after a limit.
  lemma {:induction false} MirrorFlag(sc: Config, snap: Option<Snapshot>, c: Call, trips: bool, id: string)
    requires c.RecordLimit? && snap.Some? && id in snap.value.providers
    requires !c.kind.OtherLimit? ==> trips == !c.kind.WindowLimit?
    ensures var s := LimitMirror(sc, snap, c, trips); var p := snap.value.providers[id];
      && s.Some? && id in s.value.providers
      && s.value.providers[id].probeInFlight
         == (p.probeInFlight && !(c.id == id && trips && c.kind != SpendLimit && c.kind != AbuseGuard))
  {
  }

  lemma {:induction false} LimitFlags(cfg: BreakerConfig, sc: Config, w: World, c: Call, id: string)
    requires Lockstep(w, id) && FlagsEqual(w, id) && c.RecordLimit?
    ensures FlagsEqual(Limit(cfg, sc, w, c), id) <==> !ClearsOne(cfg, w, c, id)
  {
    if c.id != "" {
      MirrorFlag(sc, w.snap, c, LimitTrips(cfg, c.kind, LocalOf(w.states, c.id)), id);
    }
  }

  /** In step and with equal flags, a call leaves them different exactly when it clears only one. */
  lemma {:induction false} FlagsStayEqualIff(cfg: BreakerConfig, sc: Config, w: World, c: Call, id: string)
    requires Lockstep(w, id) && FlagsEqual(w, id)
    ensures FlagsEqual(Step(cfg, sc, w, c).world, id) <==> !ClearsOne(cfg, w, c, id)
  {
    match c
    case RecordFailure(_, _, _, _) => FailureFlags(cfg, sc, w, c, id);
    case RecordLimit(_, _, _, _, _, _, _) => LimitFlags(cfg, sc, w, c, id);
    case _ =>
  }

  // A probe of id is in flight.
  predicate Held(w: World, id: string) {
    LocalOf(w.states, id).circuit == HalfOpen && LocalOf(w.states, id).probeInFlight
  }

  // The breaker's flag is set only in HalfOpen.
  predicate FlagInHalfOpen(w: World, id: string) {
    LocalOf(w.states, id).probeInFlight ==> LocalOf(w.states, id).circuit == HalfOpen
  }

  lemma {:induction false} ActFlagInHalfOpen(cfg: BreakerConfig, sc: Config, w: World, a: Action, id: string)
    requires FlagInHalfOpen(w, id)
    ensures FlagInHalfOpen(Act(cfg, sc, w, a).world, id)
  {
  }

  lemma {:induction false} RunFlagInHalfOpen(cfg: BreakerConfig, sc: Config, w: World, actions: seq<Action>, id: string)
    requires id !in w.states
    ensures FlagInHalfOpen(Run(cfg, sc, w, actions), id)
    decreases |actions|
  {
    if actions != [] {
      RunFlagInHalfOpen(cfg, sc, w, DropLast(actions), id);
      ActFlagInHalfOpen(cfg, sc, Run(cfg, sc, w, DropLast(actions)), Last(actions), id);
    }
  }

  /** A limit, met while a probe is in flight, that ends the probe for the breaker alone: spending, abuse, a quota window,
      or an unrecognised kind below the threshold. */
  predicate EndsForBreakerOnly(cfg: BreakerConfig, w: World, c: Call, id: string) {
    && c.id == id && id != "" && Held(w, id) && c.RecordLimit?
    && (c.kind == SpendLimit || c.kind == AbuseGuard || c.kind == WindowLimit
        || (c.kind.OtherLimit? && LocalOf(w.states, id).failures + 1 < cfg.threshold))
  }

  // With the flag set only in HalfOpen, nothing else clears one flag.
  lemma {:induction false} ClearsOneIff(cfg: BreakerConfig, w: World, c: Call, id: string)
    requires FlagInHalfOpen(w, id)
    ensures ClearsOne(cfg, w, c, id) <==> EndsForBreakerOnly(cfg, w, c, id)
  {
  }

  ghost predicate NoneSeparates(cfg: BreakerConfig, sc: Config, w: World, actions: seq<Action>, id: string) {
    forall k :: 0 <= k < |actions| && actions[k].Breaker? ==>
      !EndsForBreakerOnly(cfg, Run(cfg, sc, w, actions[..k]), actions[k].call, id)
  }

  lemma {:induction false} FlagsOverRun(cfg: BreakerConfig, sc: Config, w: World, actions: seq<Action>, id: string, k: nat)
    requires Registered(w, id) && !w.snap.value.providers[id].probeInFlight
    requires AllPermitted(actions, id) && ThresholdsFit(cfg, sc) && NoneSeparates(cfg, sc, w, actions, id) && k <= |actions|
    ensures FlagsEqual(Run(cfg, sc, w, actions[..k]), id)
    decreases k
  {
    if k > 0 {
      FlagsOverRun(cfg, sc, w, actions, id, k - 1);
      FlagsNext(cfg, sc, w, actions, id, k - 1);
    }
  }

  // A step of the run keeps the flags equal exactly when it does not end a probe for the breaker only.
  lemma {:induction false} FlagsNext(cfg: BreakerConfig, sc: Config, w: World, actions: seq<Action>, id: string, k: nat)
    requires Registered(w, id) && AllPermitted(actions, id) && ThresholdsFit(cfg, sc) && k < |actions|
    requires FlagsEqual(Run(cfg, sc, w, actions[..k]), id)
    ensures FlagsEqual(Run(cfg, sc, w, actions[..k + 1]), id)
            <==> (actions[k].Breaker? ==> !EndsForBreakerOnly(cfg, Run(cfg, sc, w, actions[..k]), actions[k].call, id))
  {
    var before := actions[..k];
    assert AllPermitted(before, id) by {
      assert forall a :: a in before ==> a in actions;
    }
    RunLockstep(cfg, sc, w, before, id);
    RunFlagInHalfOpen(cfg, sc, w, before, id);
    RunNext(cfg, sc, w, actions, k);
    assert Permitted(actions[k], id);
    ActFlags(cfg, sc, Run(cfg, sc, w, before), actions[k], id);
  }

  /** Over every permitted run from a registered provider whose flag is not set: the flags are equal at every point exactly
      when no limit that ends a probe for the breaker only is met while one is in flight. */
  lemma {:induction false} FlagsOverRunIff(cfg: BreakerConfig, sc: Config, w: World, actions: seq<Action>, id: string)
    requires Registered(w, id) && !w.snap.value.providers[id].probeInFlight
    requires AllPermitted(actions, id) && ThresholdsFit(cfg, sc)
    ensures (forall k :: 0 <= k <= |actions| ==> FlagsEqual(Run(cfg, sc, w, actions[..k]), id))
            <==> NoneSeparates(cfg, sc, w, actions, id)
  {
    if NoneSeparates(cfg, sc, w, actions, id) {
      forall k | 0 <= k <= |actions| ensures FlagsEqual(Run(cfg, sc, w, actions[..k]), id) {
        FlagsOverRun(cfg, sc, w, actions, id, k);
      }
    }
    if forall k :: 0 <= k <= |actions| ==> FlagsEqual(Run(cfg, sc, w, actions[..k]), id) {
      forall k | 0 <= k < |actions| && actions[k].Breaker?
        ensures !EndsForBreakerOnly(cfg, Run(cfg, sc, w, actions[..k]), actions[k].call, id)
      {
        assert FlagsEqual(Run(cfg, sc, w, actions[..k]), id) && FlagsEqual(Run(cfg, sc, w, actions[..k + 1]), id);
        FlagsNext(cfg, sc, w, actions, id, k);
      }
    }
  }

  lemma {:induction false} ActFlags(cfg: BreakerConfig, sc: Config, w: World, a: Action, id: string)
    requires Lockstep(w, id) && FlagsEqual(w, id) && FlagInHalfOpen(w, id) && Permitted(a, id)
    ensures FlagsEqual(Act(cfg, sc, w, a).world, id) <==> (a.Breaker? ==> !EndsForBreakerOnly(cfg, w, a.call, id))
  {
    if a.Breaker? {
      FlagsStayEqualIff(cfg, sc, w, a.call, id);
      ClearsOneIff(cfg, w, a.call, id);
    }
  }

  /** They do come apart: a registered provider is tripped, probed after its cooldown, and meets a quota-window limit. */
  lemma {:induction false} ProbeFlagsDiverge(cfg: BreakerConfig, sc: Config, w: World, id: string, probe: Call, limit: Call)
    requires Registered(w, id) && id != "" && w.snap.value.providers[id].admin != AdminDisabled
    requires probe.AllowProbe? && probe.id == id && limit.RecordLimit? && limit.id == id && limit.kind == WindowLimit
    requires probe.now >= Cooldown(cfg, NEW_LOCAL.(cooldown := cfg.defaultOpen), probe.rand)
    ensures var trip := TripCircuit(id, 0, 0, 0);
            var w1 := Step(cfg, sc, w, trip).world;
            var v2 := Step(cfg, sc, w1, probe);
            var w3 := Step(cfg, sc, v2.world, limit).world;
            && v2.allowed && Agree(w3, id) && w3.snap.value.providers[id].probeInFlight && !w3.states[id].probeInFlight
  {
  }

  // ---------------------------------------------------------------- admin and single probes

  // Admin state of an existing provider.
  function AdminOf(w: World, id: string): Option<Admin> {
    if w.snap.Some? && id in w.snap.value.providers then Some(w.snap.value.providers[id].admin) else None
  }

  /** No breaker call changes the admin state of any registered provider. */
  lemma {:induction false} BreakerKeepsAdmin(cfg: BreakerConfig, sc: Config, w: World, c: Call, id: string)
    requires AdminOf(w, id).Some?
    ensures AdminOf(Step(cfg, sc, w, c).world, id) == AdminOf(w, id)
  {
    match c
    case RecordFailure(_, _, _, _) => FailureKeepsAdmin(cfg, sc, w, c, id);
    case RecordLimit(_, _, _, _, _, _, _) => LimitKeepsAdmin(cfg, sc, w, c, id);
    case _ =>
  }

  lemma {:induction false} FailureKeepsAdmin(cfg: BreakerConfig, sc: Config, w: World, c: Call, id: string)
    requires AdminOf(w, id).Some? && c.RecordFailure?
    ensures AdminOf(Failure(cfg, sc, w, c), id) == AdminOf(w, id)
  {
  }

  lemma {:induction false} LimitKeepsAdmin(cfg: BreakerConfig, sc: Config, w: World, c: Call, id: string)
    requires AdminOf(w, id).Some? && c.RecordLimit?
    ensures AdminOf(Limit(cfg, sc, w, c), id) == AdminOf(w, id)
  {
    if c.id != "" {
      MirrorKeepsAdmin(sc, w.snap.value, c, LimitTrips(cfg, c.kind, LocalOf(w.states, c.id)), id);
    }
  }

  lemma {:induction false} MirrorKeepsAdmin(sc: Config, s: Snapshot, c: Call, trips: bool, id: string)
    requires c.RecordLimit? && id in s.providers
    ensures var s' := LimitMirror(sc, Some(s), c, trips);
      s'.Some? && id in s'.value.providers && s'.value.providers[id].admin == s.providers[id].admin
  {
  }

  // Breaker calls that end a probe of id: a report, a limit or a trip.
  predicate Ends(a: Action, id: string) {
    a.Breaker? && a.call.id == id && !a.call.AllowProbe?
  }

  // The k-th action is a probe of id granted outside Closed.
  ghost predicate Granted(cfg: BreakerConfig, sc: Config, w: World, actions: seq<Action>, k: nat, id: string) {
    && k < |actions| && actions[k].Breaker? && actions[k].call.AllowProbe? && actions[k].call.id == id
    && var before := Run(cfg, sc, w, actions[..k]);
       var c := LocalOf(before.states, id).circuit;
       (c == Open || c == HalfOpen) && Step(cfg, sc, before, actions[k].call).allowed
  }

  lemma {:induction false} HeldStays(cfg: BreakerConfig, sc: Config, w: World, a: Action, id: string)
    requires Held(w, id) && !Ends(a, id)
    ensures Held(Act(cfg, sc, w, a).world, id)
  {
  }

  lemma {:induction false} HeldOverRun(cfg: BreakerConfig, sc: Config, w: World, actions: seq<Action>, lo: nat, hi: nat, id: string)
    requires lo <= hi <= |actions| && Held(Run(cfg, sc, w, actions[..lo]), id)
    requires forall m :: lo <= m < hi ==> !Ends(actions[m], id)
    ensures Held(Run(cfg, sc, w, actions[..hi]), id)
    decreases hi - lo
  {
    if lo < hi {
      HeldOverRun(cfg, sc, w, actions, lo, hi - 1, id);
      RunNext(cfg, sc, w, actions, hi - 1);
      HeldStays(cfg, sc, Run(cfg, sc, w, actions[..hi - 1]), actions[hi - 1], id);
    }
  }

  lemma {:induction false} GrantHolds(cfg: BreakerConfig, sc: Config, w: World, actions: seq<Action>, k: nat, id: string)
    requires Granted(cfg, sc, w, actions, k, id)
    ensures !Held(Run(cfg, sc, w, actions[..k]), id) && Held(Run(cfg, sc, w, actions[..k + 1]), id)
  {
    RunNext(cfg, sc, w, actions, k);
  }

  /** From any state and over any run, two breaker probes are never granted outside Closed without a report, limit or
      trip of that provider between them. */
  lemma {:induction false} GrantsAreSeparated(cfg: BreakerConfig, sc: Config, w: World, actions: seq<Action>, id: string, i: nat, j: nat)
    requires i < j && Granted(cfg, sc, w, actions, i, id) && Granted(cfg, sc, w, actions, j, id)
    ensures exists m :: i < m < j && Ends(actions[m], id)
  {
    GrantHolds(cfg, sc, w, actions, i, id);
    GrantHolds(cfg, sc, w, actions, j, id);
    if forall m :: i < m < j ==> !Ends(actions[m], id) {
      HeldOverRun(cfg, sc, w, actions, i + 1, j, id);
    }
  }

  // ---------------------------------------------------------------- jitter

  function Shortest(cfg: BreakerConfig, base: Time): real {
    base as real * (1.0 - cfg.jitter)
  }

  function Longest(cfg: BreakerConfig, base: Time): real {
    base as real * (1.0 + cfg.jitter)
  }

  /** The effective cooldown lies within the jitter ratio of the configured one, up to the truncation; a ratio above 1, which
      the constructor accepts, can make it negative. */
  lemma {:induction false} JitterBounds(cfg: BreakerConfig, st: Local, rand: real)
    requires 0.0 <= rand < 1.0 && 0.0 <= cfg.jitter && cfg.defaultOpen > 0
    ensures Shortest(cfg, BaseCooldown(cfg, st)) - 1.0 < Cooldown(cfg, st, rand) as real <= Longest(cfg, BaseCooldown(cfg, st))
    ensures cfg.jitter <= 1.0 ==> 0 <= Cooldown(cfg, st, rand)
  {
    var c := BaseCooldown(cfg, st);
    JitteredBounds(c, rand, cfg.jitter);
    if cfg.jitter == 0.0 {
      assert c as real * (1.0 - 0.0) == c as real == c as real * (1.0 + 0.0);
    }
  }

  lemma {:induction false} JitteredBounds(c: Time, rand: real, j: real)
    requires 0.0 <= rand < 1.0 && 0.0 <= j && c > 0
    ensures c as real * (1.0 - j) - 1.0 < Jittered(c, rand, j) as real <= c as real * (1.0 + j)
    ensures j <= 1.0 ==> 0 <= Jittered(c, rand, j)
  {
    var base, factor := c as real, JitterFactor(rand, j);
    var low, scaled, high := base * (1.0 - j), base * factor, base * (1.0 + j);
    SwingBounds(rand * 2.0 - 1.0, j, factor - 1.0);
    ScaleBounds(base, 1.0 - j, factor, low, scaled);
    ScaleBounds(base, factor, 1.0 + j, scaled, high);
    ScaleBounds(base, 0.0, 1.0 + j, 0.0, high);
    if j <= 1.0 {
      ScaleBounds(base, 0.0, factor, 0.0, scaled);
    }
    TruncBounds(scaled);
  }

  lemma {:induction false} SwingBounds(x: real, jitter: real, swing: real)
    requires -1.0 <= x <= 1.0 && 0.0 <= jitter && swing == x * jitter
    ensures -jitter <= swing <= jitter
  {
    assert (x + 1.0) * jitter >= 0.0 && (1.0 - x) * jitter >= 0.0;
    assert (x + 1.0) * jitter == swing + jitter && (1.0 - x) * jitter == jitter - swing;
  }

  lemma {:induction false} TruncBounds(r: real)
    ensures r >= 0.0 ==> 0 <= Trunc(r) && r - 1.0 < Trunc(r) as real <= r
    ensures r <= 0.0 ==> Trunc(r) <= 0 && r <= Trunc(r) as real < r + 1.0
  {
  }

  lemma {:induction false} ScaleBounds(base: real, f: real, g: real, low: real, high: real)
    requires base >= 0.0 && f <= g && low == base * f && high == base * g
    ensures low <= high
  {
    assert base * (g - f) >= 0.0;
  }
}
