/** Provider runtime state (pkg/state/types.go) and the operations of StateManager (pkg/state/state.go) as the
    functions its closures apply to a snapshot, together with the manager object. */
module State {
  import opened Common

  // Clock readings and durations, in nanoseconds.
  type Time = int

  // These are string types in the source; the zero value "" is XOther("").
  datatype Admin = AdminEnabled | AdminDisabled | AdminOther(name: string)
  datatype Health = Healthy | Degraded | Unavailable | HealthOther(name: string)
  datatype Quota = QuotaHealthy | QuotaLow | QuotaExhausted | QuotaUnknown | QuotaOther(name: string)
  datatype Circuit = Closed | Open | HalfOpen | CircuitOther(name: string)

  datatype Provider = Provider(
    admin: Admin, health: Health, quota: Quota, circuit: Circuit, credential: string,
    lastAttempt: Time, lastSuccess: Time, observedAt: Time, validUntil: Time, source: string, error: string,
    openedAt: Time, probeInFlight: bool, successes: int, failures: int)

  const ZERO := Provider(AdminOther(""), HealthOther(""), QuotaOther(""), CircuitOther(""), "", 0, 0, 0, 0, "", "",
                         0, false, 0, 0)

  datatype Model = Model(id: string, provider: string, enabled: bool, contextLimit: int, maxOutput: int,
                         scores: Option<map<string, real>>, pricingTag: string)

  datatype Snapshot = Snapshot(version: nat, providers: map<string, Provider>, models: map<string, Model>)

  datatype Config = Config(openDuration: Time, failureThreshold: int)

  // A model alias as the catalog lists it.  A Go map is a reference: at names the catalog's map whose contents scores is.
  datatype Alias = Alias(provider: string, contextLimit: int, maxOutput: int, scores: Option<map<string, real>>, at: nat,
                         pricingTag: string)

  // The closures passed to Update: the manager's own, the circuit breaker's, and those that write models.  SetScore is one
  // no caller passes today: it writes a model's score map in place.
  datatype Op =
    | SetProvider(id: string, p: Provider)
    | SetAdminState(id: string, admin: Admin)
    | AllowProbe(id: string, now: Time)
    | RecordSuccess(id: string, now: Time)
    | RecordFailure(id: string, now: Time, err: Option<string>)
    | ResetQuota(id: string, now: Time)
    | RecoverCircuit(id: string, now: Time)
    | Sync(id: string, circuit: Circuit, probe: bool, now: Time)
    | Exhaust(id: string, now: Time, message: string)
    | QuotaWindow(id: string, now: Time, retryAt: Option<Time>, message: string)
    | Trip(id: string, now: Time, message: string)
    | SyncCatalog(gone: set<string>, aliases: map<string, Alias>)
    | ToggleModel(id: string, enabled: bool)
    | SetScore(id: string, benchmark: string, score: real)
  {
    predicate OnModels() {
      SyncCatalog? || ToggleModel? || SetScore?
    }

    // The closures that write the zero value's entry when the provider is missing.
    predicate CreatesMissing() {
      SetProvider? || Exhaust? || QuotaWindow? || Trip?
    }
  }

  // ---------------------------------------------------------------- what a closure does to its provider

  function SetCircuit(p: Provider, circuit: Circuit, probe: bool, now: Time): Provider {
    p.(circuit := circuit, probeInFlight := probe, observedAt := now,
       openedAt := if circuit == Open then now else p.openedAt)
  }

  function ElapsedOpen(cfg: Config, p: Provider, now: Time): bool {
    now - p.openedAt >= cfg.openDuration
  }

  // The value a probe closure assigns to the captured `allowed`; an unrecognised circuit leaves it as it was.
  function Answer(cfg: Config, p: Option<Provider>, now: Time, stale: bool): bool {
    if p.None? || p.value.admin == AdminDisabled then false
    else
      match p.value.circuit
      case Closed => true
      case Open => ElapsedOpen(cfg, p.value, now)
      case HalfOpen => !p.value.probeInFlight
      case CircuitOther(_) => stale
  }

  function Probe(cfg: Config, p: Provider, now: Time): Provider {
    if p.admin == AdminDisabled then p
    else if p.circuit == Open && ElapsedOpen(cfg, p, now) then
      p.(circuit := HalfOpen, probeInFlight := true, successes := 0, observedAt := now)
    else if p.circuit == HalfOpen then p.(probeInFlight := true)
    else p
  }

  function Succeed(p: Provider, now: Time): Provider {
    p.(lastSuccess := now, lastAttempt := now, observedAt := now, error := "", failures := 0,
       successes := p.successes + 1,
       health := if p.health == Unavailable || p.health == Degraded then Healthy else p.health,
       circuit := if p.circuit == HalfOpen then Closed else p.circuit,
       probeInFlight := if p.circuit == HalfOpen || p.circuit == Closed then false else p.probeInFlight)
  }

  function Fail(cfg: Config, p: Provider, now: Time, err: Option<string>): Provider {
    var q := p.(lastAttempt := now, observedAt := now, successes := 0, failures := p.failures + 1,
                error := if err.Some? then err.value else p.error);
    if p.circuit == HalfOpen then q.(circuit := Open, openedAt := now, probeInFlight := false, health := Unavailable)
    else if p.circuit == Closed && q.failures >= cfg.failureThreshold then
      q.(circuit := Open, openedAt := now, health := Degraded)
    else q
  }

  function Touch(cfg: Config, op: Op, p: Provider): Provider {
    match op
    case SetProvider(_, q) => q
    case SetAdminState(_, a) => p.(admin := a)
    case AllowProbe(_, now) => Probe(cfg, p, now)
    case RecordSuccess(_, now) => Succeed(p, now)
    case RecordFailure(_, now, err) => Fail(cfg, p, now, err)
    case ResetQuota(_, now) => p.(quota := QuotaHealthy, observedAt := now)
    case RecoverCircuit(_, now) =>
      p.(circuit := Closed, probeInFlight := false, failures := 0, observedAt := now,
         health := if p.health == Unavailable then Healthy else p.health)
    case Sync(_, circuit, probe, now) => SetCircuit(p, circuit, probe, now)
    case Exhaust(_, now, message) =>
      p.(quota := QuotaExhausted, circuit := Open, openedAt := now, health := Unavailable, observedAt := now, error := message)
    case QuotaWindow(_, now, retryAt, message) =>
      p.(quota := QuotaExhausted, validUntil := if retryAt.Some? then retryAt.value else p.validUntil,
         observedAt := now, error := message)
    case Trip(_, now, message) =>
      p.(circuit := Open, openedAt := now, health := Degraded, observedAt := now, error := message)
    case _ => p
  }

  // The model an alias becomes; one that is known already stays switched on or off.
  function Listed(models: map<string, Model>, id: string, alias: Alias): Model {
    Model(id, alias.provider, id in models ==> models[id].enabled, alias.contextLimit, alias.maxOutput, alias.scores, alias.pricingTag)
  }

  // What a closure does to the models.
  function TouchModels(op: Op, models: map<string, Model>): map<string, Model> {
    match op
    case SyncCatalog(gone, aliases) => (models - gone) + map id | id in aliases :: Listed(models - gone, id, aliases[id])
    case ToggleModel(id, enabled) =>
      models[id := (if id in models then models[id] else Model(id, "", false, 0, 0, None, "")).(enabled := enabled)]
    case SetScore(id, benchmark, score) =>
      if id in models && models[id].scores.Some? then
        models[id := models[id].(scores := Some(models[id].scores.value[benchmark := score]))]
      else models
    case _ => models
  }

  function Lookup(s: Snapshot, id: string): Option<Provider> {
    if id in s.providers then Some(s.providers[id]) else None
  }

  // The closure run on a cloned snapshot.
  function Apply(cfg: Config, op: Op, s: Snapshot): Snapshot {
    if op.OnModels() then s.(models := TouchModels(op, s.models))
    else if op.id in s.providers then s.(providers := s.providers[op.id := Touch(cfg, op, s.providers[op.id])])
    else if op.CreatesMissing() then s.(providers := s.providers[op.id := Touch(cfg, op, ZERO)])
    else s
  }

  // The answer left in the caller's `allowed` (false for operations that capture nothing).
  function AnswerOf(cfg: Config, op: Op, s: Snapshot, stale: bool): bool {
    if op.AllowProbe? then Answer(cfg, Lookup(s, op.id), op.now, stale) else stale
  }

  function NextVersion(v: nat): nat {
    (v + 1) % TWO64
  }

  // What one successful Update publishes.
  function Publish(cfg: Config, op: Op, s: Snapshot): Snapshot {
    Apply(cfg, op, s).(version := NextVersion(s.version))
  }

  /** The manager used by one caller at a time; UpdateProtocol has the interleaved runs. */
  class StateManager {
    const cfg: Config
    var snapshot: Snapshot

    constructor (cfg: Config)
      ensures this.cfg == cfg && snapshot == Snapshot(1, map[], map[])
    {
      this.cfg, snapshot := cfg, Snapshot(1, map[], map[]);
    }

    method Put(id: string, p: Provider)
      modifies this
      ensures snapshot == old(snapshot).(version := NextVersion(old(snapshot).version),
                                         providers := old(snapshot).providers[id := p])
    {
      snapshot := Snapshot(NextVersion(snapshot.version), snapshot.providers[id := p], snapshot.models);
    }

    // An Update whose closure writes nothing still publishes a new version.
    method PutNothing()
      modifies this
      ensures snapshot == old(snapshot).(version := NextVersion(old(snapshot).version))
    {
      snapshot := snapshot.(version := NextVersion(snapshot.version));
    }

    method AllowProbe(id: string, now: Time) returns (allowed: bool)
      modifies this
      ensures snapshot == Publish(cfg, Op.AllowProbe(id, now), old(snapshot))
      ensures allowed == Answer(cfg, Lookup(old(snapshot), id), now, false)
    {
      allowed := false;
      if id !in snapshot.providers {
        PutNothing();
        return;
      }
      var p := snapshot.providers[id];
      if p.admin == AdminDisabled {
      } else if p.circuit == Closed {
        allowed := true;
      } else if p.circuit == Open {
        if now - p.openedAt >= cfg.openDuration {
          p := p.(circuit := HalfOpen);
          p := p.(probeInFlight := true);
          p := p.(successes := 0);
          p := p.(observedAt := now);
          allowed := true;
        }
      } else if p.circuit == HalfOpen {
        if !p.probeInFlight {
          p := p.(probeInFlight := true);
          allowed := true;
        }
      }
      Put(id, p);
    }

    method RecordSuccess(id: string, now: Time)
      modifies this
      ensures snapshot == Publish(cfg, Op.RecordSuccess(id, now), old(snapshot))
    {
      if id !in snapshot.providers {
        PutNothing();
        return;
      }
      var p := snapshot.providers[id];
      p := p.(lastSuccess := now, lastAttempt := now, observedAt := now, error := "");
      p := p.(failures := 0);
      p := p.(successes := p.successes + 1);
      if p.health == Unavailable || p.health == Degraded {
        p := p.(health := Healthy);
      }
      if p.circuit == HalfOpen {
        p := p.(circuit := Closed, probeInFlight := false);
      } else if p.circuit == Closed {
        p := p.(probeInFlight := false);
      }
      Put(id, p);
    }

    method RecordFailure(id: string, now: Time, err: Option<string>)
      modifies this
      ensures snapshot == Publish(cfg, Op.RecordFailure(id, now, err), old(snapshot))
    {
      if id !in snapshot.providers {
        PutNothing();
        return;
      }
      var p := snapshot.providers[id];
      p := p.(lastAttempt := now, observedAt := now, successes := 0);
      p := p.(failures := p.failures + 1);
      if err.Some? {
        p := p.(error := err.value);
      }
      if p.circuit == HalfOpen {
        p := p.(circuit := Open, openedAt := now, probeInFlight := false, health := Unavailable);
      } else if p.circuit == Closed {
        if p.failures >= cfg.failureThreshold {
          p := p.(circuit := Open, openedAt := now, health := Degraded);
        }
      }
      Put(id, p);
    }

    // An Update with any other closure.
    method Update(op: Op)
      modifies this
      ensures snapshot == Publish(cfg, op, old(snapshot))
    {
      if op.OnModels() {
        snapshot := Snapshot(NextVersion(snapshot.version), snapshot.providers, TouchModels(op, snapshot.models));
      } else if op.id in snapshot.providers {
        Put(op.id, Touch(cfg, op, snapshot.providers[op.id]));
      } else if op.CreatesMissing() {
        Put(op.id, Touch(cfg, op, ZERO));
      } else {
        PutNothing();
      }
    }
  }
}
