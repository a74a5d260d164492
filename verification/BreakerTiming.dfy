/** How long the circuit breaker keeps a provider's circuit open, and how many failures open it (pkg/quota/breaker.go), over
    runs of breaker calls and manager updates. */
module BreakerTiming {
  import opened Common
  import opened State
  import opened Breaker

  function OrDefault(d: Time, cfg: BreakerConfig): Time {
    if d > 0 then d else cfg.defaultOpen
  }

  // The failures of id are so many that one more opens the circuit.
  predicate AtThreshold(cfg: BreakerConfig, w: World, id: string) {
    LocalOf(w.states, id).failures + 1 >= cfg.threshold
  }

  /** The call, made in w, opens the breaker's circuit of id at reading n, or opens it again. */
  predicate OpensAt(cfg: BreakerConfig, w: World, c: Call, id: string, n: Time) {
    var circuit := LocalOf(w.states, id).circuit;
    && c.id == id
    && match c
       case AllowProbe(_, _, _, _) => false
       case RecordSuccess(_, _) => false
       case RecordFailure(_, now, _, _) => now == n && (circuit == HalfOpen || (circuit == Closed && AtThreshold(cfg, w, id)))
       case TripCircuit(_, _, now, _) => now == n
       case RecordLimit(_, kind, _, _, _, now, _) =>
         && now == n && id != ""
         && match kind
            case WindowLimit => circuit == Open
            case OtherLimit(_) => circuit == Open || AtThreshold(cfg, w, id)
            case _ => true
  }

  // The cooldown a call gives to id, if it sets one.
  function CooldownGiven(cfg: BreakerConfig, w: World, c: Call, id: string): Option<Time> {
    if c.id != id then None
    else
      match c
      case TripCircuit(_, cooldown, _, _) => Some(OrDefault(cooldown, cfg))
      case RecordLimit(_, _, retryAfter, _, _, _, _) => if id == "" then None else Some(OrDefault(retryAfter, cfg))
      case RecordFailure(_, _, _, _) =>
        if LocalOf(w.states, id).circuit == Closed && AtThreshold(cfg, w, id) then Some(cfg.defaultOpen) else None
      case _ => None
  }

  /** The cooldown last given to id in the run, the default one if none was. */
  function CooldownAfter(cfg: BreakerConfig, sc: Config, w: World, actions: seq<Action>, id: string): Time {
    if actions == [] then cfg.defaultOpen
    else
      var front, a := DropLast(actions), Last(actions);
      var given := if a.Breaker? then CooldownGiven(cfg, Run(cfg, sc, w, front), a.call, id) else None;
      if given.Some? then given.value else CooldownAfter(cfg, sc, w, front, id)
  }

  predicate DisabledIn(w: World, id: string) {
    w.snap.Some? && id in w.snap.value.providers && w.snap.value.providers[id].admin == AdminDisabled
  }

  predicate ProbeOf(a: Action, id: string) {
    a.Breaker? && a.call.AllowProbe? && a.call.id == id && 0.0 <= a.call.rand < 1.0
  }

  /** Before the cooldown c since n is over, whatever the jitter; and after it, whatever the jitter. */
  predicate TooEarly(cfg: BreakerConfig, n: Time, c: Time, now: Time) {
    if cfg.jitter == 0.0 then now < n + c else (now - n) as real <= Shortest(cfg, c) - 1.0
  }

  predicate LateEnough(cfg: BreakerConfig, n: Time, c: Time, now: Time) {
    if cfg.jitter == 0.0 then now >= n + c else (now - n) as real >= Longest(cfg, c)
  }

  function Allowed(cfg: BreakerConfig, sc: Config, w: World, actions: seq<Action>, j: nat): bool
    requires j < |actions|
  {
    Act(cfg, sc, Run(cfg, sc, w, actions[..j]), actions[j]).allowed
  }

  // ---------------------------------------------------------------- the cooldown in force

  lemma {:induction false} CallCooldown(cfg: BreakerConfig, sc: Config, w: World, c: Call, id: string)
    requires cfg.defaultOpen > 0
    ensures var given := CooldownGiven(cfg, w, c, id);
      BaseCooldown(cfg, LocalOf(Step(cfg, sc, w, c).world.states, id))
      == if given.Some? then given.value else BaseCooldown(cfg, LocalOf(w.states, id))
  {
  }

  lemma {:induction false} RunCooldown(cfg: BreakerConfig, sc: Config, w: World, actions: seq<Action>, id: string)
    requires cfg.defaultOpen > 0 && id !in w.states
    ensures BaseCooldown(cfg, LocalOf(Run(cfg, sc, w, actions).states, id)) == CooldownAfter(cfg, sc, w, actions, id)
    decreases |actions|
  {
    if actions != [] {
      RunCooldown(cfg, sc, w, DropLast(actions), id);
      if Last(actions).Breaker? {
        CallCooldown(cfg, sc, Run(cfg, sc, w, DropLast(actions)), Last(actions).call, id);
      }
    }
  }

  // ---------------------------------------------------------------- single actions

  // The breaker's circuit of id is open since n, with cooldown c.
  predicate OpenSince(cfg: BreakerConfig, w: World, id: string, n: Time, c: Time) {
    var st := LocalOf(w.states, id);
    st.circuit == Open && st.openedAt == n && BaseCooldown(cfg, st) == c
  }

  predicate LimitOrTrip(a: Action, id: string) {
    a.Breaker? && a.call.id == id && (a.call.RecordLimit? || a.call.TripCircuit?)
  }

  lemma {:induction false} OpenNow(cfg: BreakerConfig, sc: Config, w: World, call: Call, id: string, n: Time)
    requires OpensAt(cfg, w, call, id, n)
    ensures var st := LocalOf(Step(cfg, sc, w, call).world.states, id); st.circuit == Open && st.openedAt == n
  {
  }

  lemma {:induction false} CooldownBounds(cfg: BreakerConfig, st: Local, rand: real, n: Time, now: Time)
    requires 0.0 <= rand < 1.0 && cfg.jitter >= 0.0 && cfg.defaultOpen > 0
    ensures TooEarly(cfg, n, BaseCooldown(cfg, st), now) ==> now - n < Cooldown(cfg, st, rand)
    ensures LateEnough(cfg, n, BaseCooldown(cfg, st), now) ==> now - n >= Cooldown(cfg, st, rand)
  {
    if cfg.jitter > 0.0 {
      JitterBounds(cfg, st, rand);
      var base := BaseCooldown(cfg, st);
      CompareBounds(Shortest(cfg, base), Longest(cfg, base), Cooldown(cfg, st, rand), now - n);
    }
  }

  lemma {:induction false} CompareBounds(low: real, high: real, cooldown: Time, elapsed: Time)
    requires low - 1.0 < cooldown as real <= high
    ensures elapsed as real <= low - 1.0 ==> elapsed < cooldown
    ensures elapsed as real >= high ==> elapsed >= cooldown
  {
  }

  lemma {:induction false} ProbeWhenOpen(cfg: BreakerConfig, sc: Config, w: World, a: Action, id: string, n: Time, c: Time)
    requires OpenSince(cfg, w, id, n, c) && ProbeOf(a, id) && cfg.jitter >= 0.0 && cfg.defaultOpen > 0
    ensures var v := Act(cfg, sc, w, a);
      && (DisabledIn(w, id) || TooEarly(cfg, n, c, a.call.now) ==> !v.allowed && OpenSince(cfg, v.world, id, n, c))
      && (!DisabledIn(w, id) && LateEnough(cfg, n, c, a.call.now) ==> v.allowed)
      && (v.allowed ==> Held(v.world, id))
  {
    CooldownBounds(cfg, LocalOf(w.states, id), a.call.rand, n, a.call.now);
  }

  lemma {:induction false} OtherWhenOpen(cfg: BreakerConfig, sc: Config, w: World, a: Action, id: string, n: Time, c: Time)
    requires OpenSince(cfg, w, id, n, c) && !LimitOrTrip(a, id) && !(a.Breaker? && a.call.AllowProbe? && a.call.id == id)
    ensures OpenSince(cfg, Act(cfg, sc, w, a).world, id, n, c)
  {
  }

  lemma {:induction false} StillOpen(cfg: BreakerConfig, sc: Config, w: World, a: Action, id: string, n: Time, c: Time)
    requires OpenSince(cfg, w, id, n, c) && cfg.jitter >= 0.0 && cfg.defaultOpen > 0 && !LimitOrTrip(a, id)
    requires a.Breaker? && a.call.AllowProbe? && a.call.id == id ==>
               ProbeOf(a, id) && (TooEarly(cfg, n, c, a.call.now) || DisabledIn(w, id))
    ensures OpenSince(cfg, Act(cfg, sc, w, a).world, id, n, c)
  {
    if ProbeOf(a, id) {
      ProbeWhenOpen(cfg, sc, w, a, id, n, c);
    } else {
      OtherWhenOpen(cfg, sc, w, a, id, n, c);
    }
  }

  // ---------------------------------------------------------------- runs

  // From lo up to hi there is no limit or trip of id, and the random numbers drawn for its probes are in range.
  ghost predicate NoLimitOrTrip(actions: seq<Action>, lo: nat, hi: nat, id: string) {
    forall m :: lo <= m < hi && m < |actions| ==>
      && !LimitOrTrip(actions[m], id)
      && (actions[m].Breaker? && actions[m].call.AllowProbe? && actions[m].call.id == id ==> ProbeOf(actions[m], id))
  }

  ghost predicate NoneEnds(actions: seq<Action>, lo: nat, hi: nat, id: string) {
    forall m :: lo <= m < hi && m < |actions| ==> !Ends(actions[m], id)
  }

  // The probes of id from lo up to hi come too early, or while it is disabled.
  ghost predicate ProbedTooEarly(cfg: BreakerConfig, sc: Config, w: World, actions: seq<Action>, lo: nat, hi: nat, id: string,
                                 n: Time, c: Time) {
    forall m :: lo <= m < hi && m < |actions| ==> EarlyAt(cfg, sc, w, actions, m, id, n, c)
  }

  predicate EarlyAt(cfg: BreakerConfig, sc: Config, w: World, actions: seq<Action>, m: nat, id: string, n: Time, c: Time)
    requires m < |actions|
  {
    ProbeOf(actions[m], id) ==> TooEarly(cfg, n, c, actions[m].call.now) || DisabledIn(Run(cfg, sc, w, actions[..m]), id)
  }

  // The k-th action opens the circuit of id at n, and c is the cooldown in force then.
  ghost predicate OpenedAt(cfg: BreakerConfig, sc: Config, w: World, actions: seq<Action>, k: nat, id: string, n: Time, c: Time) {
    && k < |actions| && actions[k].Breaker? && OpensAt(cfg, Run(cfg, sc, w, actions[..k]), actions[k].call, id, n)
    && c == CooldownAfter(cfg, sc, w, actions[..k + 1], id)
  }

  // A breaker as NewCircuitBreaker makes it, that has not seen id.
  predicate Unseen(cfg: BreakerConfig, w: World, id: string) {
    cfg.defaultOpen > 0 && cfg.jitter >= 0.0 && id !in w.states
  }

  lemma {:induction false} OpenAfter(cfg: BreakerConfig, sc: Config, w: World, actions: seq<Action>, k: nat, id: string, n: Time, c: Time)
    requires Unseen(cfg, w, id) && OpenedAt(cfg, sc, w, actions, k, id, n, c)
    ensures OpenSince(cfg, Run(cfg, sc, w, actions[..k + 1]), id, n, c)
  {
    RunNext(cfg, sc, w, actions, k);
    OpenNow(cfg, sc, Run(cfg, sc, w, actions[..k]), actions[k].call, id, n);
    RunCooldown(cfg, sc, w, actions[..k + 1], id);
  }

  lemma {:induction false} StaysOpen(cfg: BreakerConfig, sc: Config, w: World, actions: seq<Action>, lo: nat, hi: nat, id: string, n: Time, c: Time)
    requires Unseen(cfg, w, id) && lo <= hi <= |actions| && OpenSince(cfg, Run(cfg, sc, w, actions[..lo]), id, n, c)
    requires NoLimitOrTrip(actions, lo, hi, id) && ProbedTooEarly(cfg, sc, w, actions, lo, hi, id, n, c)
    ensures OpenSince(cfg, Run(cfg, sc, w, actions[..hi]), id, n, c)
    decreases hi
  {
    if lo < hi {
      StaysOpen(cfg, sc, w, actions, lo, hi - 1, id, n, c);
      NextOpen(cfg, sc, w, actions, hi - 1, id, n, c);
    }
  }

  lemma {:induction false} NextOpen(cfg: BreakerConfig, sc: Config, w: World, actions: seq<Action>, k: nat, id: string, n: Time, c: Time)
    requires Unseen(cfg, w, id) && k < |actions| && OpenSince(cfg, Run(cfg, sc, w, actions[..k]), id, n, c)
    requires NoLimitOrTrip(actions, k, k + 1, id) && ProbedTooEarly(cfg, sc, w, actions, k, k + 1, id, n, c)
    ensures OpenSince(cfg, Run(cfg, sc, w, actions[..k + 1]), id, n, c)
  {
    RunNext(cfg, sc, w, actions, k);
    assert EarlyAt(cfg, sc, w, actions, k, id, n, c);
    StillOpen(cfg, sc, Run(cfg, sc, w, actions[..k]), actions[k], id, n, c);
  }

  lemma {:induction false} TimedAnswer(cfg: BreakerConfig, sc: Config, w: World, actions: seq<Action>, lo: nat, j: nat, id: string, n: Time, c: Time)
    requires Unseen(cfg, w, id) && lo <= j < |actions| && OpenSince(cfg, Run(cfg, sc, w, actions[..lo]), id, n, c)
    requires NoLimitOrTrip(actions, lo, j + 1, id) && ProbedTooEarly(cfg, sc, w, actions, lo, j, id, n, c) && ProbeOf(actions[j], id)
    ensures var before := Run(cfg, sc, w, actions[..j]); var now := actions[j].call.now;
      && (DisabledIn(before, id) || TooEarly(cfg, n, c, now) ==> !Allowed(cfg, sc, w, actions, j))
      && (!DisabledIn(before, id) && LateEnough(cfg, n, c, now) ==> Allowed(cfg, sc, w, actions, j))
      && (Allowed(cfg, sc, w, actions, j) ==> Held(Run(cfg, sc, w, actions[..j + 1]), id))
  {
    StaysOpen(cfg, sc, w, actions, lo, j, id, n, c);
    ProbeWhenOpen(cfg, sc, Run(cfg, sc, w, actions[..j]), actions[j], id, n, c);
    RunNext(cfg, sc, w, actions, j);
  }

  // While the probes are refused the circuit is open; once one is granted it is held until a report.
  lemma {:induction false} OpenOrHeld(cfg: BreakerConfig, sc: Config, w: World, actions: seq<Action>, lo: nat, hi: nat, id: string, n: Time, c: Time)
    requires Unseen(cfg, w, id) && lo <= hi <= |actions| && OpenSince(cfg, Run(cfg, sc, w, actions[..lo]), id, n, c)
    requires NoneEnds(actions, lo, hi, id)
    ensures var w' := Run(cfg, sc, w, actions[..hi]); OpenSince(cfg, w', id, n, c) || Held(w', id)
    decreases hi
  {
    if lo < hi {
      OpenOrHeld(cfg, sc, w, actions, lo, hi - 1, id, n, c);
      RunNext(cfg, sc, w, actions, hi - 1);
      var before, a := Run(cfg, sc, w, actions[..hi - 1]), actions[hi - 1];
      if Held(before, id) {
        HeldStays(cfg, sc, before, a, id);
      } else {
        OpenNext(cfg, sc, before, a, id, n, c);
      }
    }
  }

  lemma {:induction false} OpenNext(cfg: BreakerConfig, sc: Config, w: World, a: Action, id: string, n: Time, c: Time)
    requires OpenSince(cfg, w, id, n, c) && !Ends(a, id)
    ensures var w' := Act(cfg, sc, w, a).world; OpenSince(cfg, w', id, n, c) || Held(w', id)
  {
  }

  lemma {:induction false} HeldRefuses(cfg: BreakerConfig, sc: Config, w: World, a: Action, id: string)
    requires Held(w, id) && ProbeOf(a, id)
    ensures !Act(cfg, sc, w, a).allowed
  {
  }

  /** Over any run of a breaker that had not seen the provider, after a call that opens its circuit at reading n with cooldown
      c (the default for failures in a row, the limit's or the trip's own if positive, and for a failed probe the one given
      last):
      - with no limit or trip after it (reports do not matter), the probes that come too early or of a disabled provider are
        refused, and the first other one that comes late enough is granted and left in flight;
      - with no report either, a probe that comes too early is refused even after that one. */
  lemma {:induction false} OpenForCooldown(cfg: BreakerConfig, sc: Config, w: World, actions: seq<Action>, id: string, k: nat, j: nat,
                                          n: Time, c: Time)
    requires Unseen(cfg, w, id) && k < j < |actions| && ProbeOf(actions[j], id)
    requires OpenedAt(cfg, sc, w, actions, k, id, n, c)
    ensures NoLimitOrTrip(actions, k + 1, j, id) && ProbedTooEarly(cfg, sc, w, actions, k + 1, j, id, n, c) ==>
      var before := Run(cfg, sc, w, actions[..j]); var now := actions[j].call.now;
      && (DisabledIn(before, id) || TooEarly(cfg, n, c, now) ==> !Allowed(cfg, sc, w, actions, j))
      && (!DisabledIn(before, id) && LateEnough(cfg, n, c, now) ==> Allowed(cfg, sc, w, actions, j))
      && (Allowed(cfg, sc, w, actions, j) ==> Held(Run(cfg, sc, w, actions[..j + 1]), id))
    ensures NoneEnds(actions, k + 1, j, id) && TooEarly(cfg, n, c, actions[j].call.now) ==> !Allowed(cfg, sc, w, actions, j)
  {
    OpenAfter(cfg, sc, w, actions, k, id, n, c);
    if NoLimitOrTrip(actions, k + 1, j, id) && ProbedTooEarly(cfg, sc, w, actions, k + 1, j, id, n, c) {
      TimedAnswer(cfg, sc, w, actions, k + 1, j, id, n, c);
    }
    if NoneEnds(actions, k + 1, j, id) && TooEarly(cfg, n, c, actions[j].call.now) {
      OpenOrHeld(cfg, sc, w, actions, k + 1, j, id, n, c);
      var before := Run(cfg, sc, w, actions[..j]);
      if Held(before, id) {
        HeldRefuses(cfg, sc, before, actions[j], id);
      } else {
        ProbeWhenOpen(cfg, sc, before, actions[j], id, n, c);
      }
    }
  }

  // ---------------------------------------------------------------- what opens it

  // Reports, quota-window limits, limits of an unrecognised kind, and manager updates.
  predicate Counts(a: Action) {
    a.Breaker? ==> a.call.RecordSuccess? || a.call.RecordFailure?
                   || (a.call.RecordLimit? && (a.call.kind.WindowLimit? || a.call.kind.OtherLimit?))
  }

  predicate FailureOf(a: Action, id: string) {
    a.Breaker? && a.call.id == id && (a.call.RecordFailure? || (a.call.RecordLimit? && a.call.kind.OtherLimit? && id != ""))
  }

  // The failures of id since its last success.
  function InARow(actions: seq<Action>, id: string): nat {
    if actions == [] then 0
    else
      var a := Last(actions);
      if a.Breaker? && a.call.RecordSuccess? && a.call.id == id then 0
      else InARow(DropLast(actions), id) + if FailureOf(a, id) then 1 else 0
  }

  ghost predicate OnceInARow(actions: seq<Action>, id: string, n: int) {
    exists k :: 0 <= k <= |actions| && InARow(actions[..k], id) >= n
  }

  lemma {:induction false} OnceLast(actions: seq<Action>, id: string, n: int)
    requires actions != []
    ensures OnceInARow(actions, id, n) <==> OnceInARow(DropLast(actions), id, n) || InARow(actions, id) >= n
  {
    var front := DropLast(actions);
    assert forall k :: 0 <= k <= |front| ==> front[..k] == actions[..k];
    assert actions[..|actions|] == actions;
  }

  lemma {:induction false} CountStep(cfg: BreakerConfig, sc: Config, w: World, a: Action, id: string)
    requires Counts(a) && (LocalOf(w.states, id).circuit == Closed || LocalOf(w.states, id).circuit == Open)
    ensures var st, st' := LocalOf(w.states, id), LocalOf(Act(cfg, sc, w, a).world.states, id);
      && st'.failures == (if a.Breaker? && a.call.RecordSuccess? && a.call.id == id then 0
                          else st.failures + if FailureOf(a, id) then 1 else 0)
      && st'.circuit == if FailureOf(a, id) && st.failures + 1 >= cfg.threshold then Open else st.circuit
  {
  }

  lemma {:induction false} RunCounts(cfg: BreakerConfig, sc: Config, w: World, actions: seq<Action>, id: string)
    requires cfg.threshold >= 1 && LocalOf(w.states, id).circuit == Closed && LocalOf(w.states, id).failures == 0
    requires forall a :: a in actions ==> Counts(a)
    ensures var st := LocalOf(Run(cfg, sc, w, actions).states, id);
      && st.failures == InARow(actions, id) && (st.circuit == Closed || st.circuit == Open)
      && (st.circuit == Open <==> OnceInARow(actions, id, cfg.threshold))
    decreases |actions|
  {
    if actions == [] {
      assert actions[..0] == [];
    } else {
      RunCounts(cfg, sc, w, DropLast(actions), id);
      OnceLast(actions, id, cfg.threshold);
      CountStep(cfg, sc, Run(cfg, sc, w, DropLast(actions)), Last(actions), id);
    }
  }

  /** As long as nothing else opens it, the circuit of a provider the breaker has not seen is open exactly when its failures
      once came `threshold` in a row; limits of an unrecognised kind are failures too. */
  lemma {:induction false} OpensIff(cfg: BreakerConfig, sc: Config, w: World, actions: seq<Action>, id: string)
    requires cfg.threshold >= 1 && id !in w.states && forall a :: a in actions ==> Counts(a)
    ensures LocalOf(Run(cfg, sc, w, actions).states, id).circuit == Open <==> OnceInARow(actions, id, cfg.threshold)
  {
    RunCounts(cfg, sc, w, actions, id);
  }

  /** And so it is, from any state, after a probe has succeeded. */
  lemma {:induction false} OpensAgainIff(cfg: BreakerConfig, sc: Config, w: World, success: Call, actions: seq<Action>, id: string)
    requires cfg.threshold >= 1 && Held(w, id) && success.RecordSuccess? && success.id == id && forall a :: a in actions ==> Counts(a)
    ensures LocalOf(Run(cfg, sc, Step(cfg, sc, w, success).world, actions).states, id).circuit == Open
            <==> OnceInARow(actions, id, cfg.threshold)
  {
    RunCounts(cfg, sc, Step(cfg, sc, w, success).world, actions, id);
  }

  // ---------------------------------------------------------------- what closes it

  /** After a granted probe the first report decides: a success closes the circuit and every probe of an enabled provider is
      granted from then on, until a failure, a limit or a trip; a failure opens it again from its own reading on. */
  lemma {:induction false} FirstReportDecides(cfg: BreakerConfig, sc: Config, w: World, actions: seq<Action>, k: nat, j: nat, id: string)
    requires k < j < |actions| && Breaker.Granted(cfg, sc, w, actions, k, id) && NoneEnds(actions, k + 1, j, id)
    requires actions[j].Breaker? && actions[j].call.id == id
    ensures actions[j].call.RecordFailure? ==>
      OpensAt(cfg, Run(cfg, sc, w, actions[..j]), actions[j].call, id, actions[j].call.now)
    ensures actions[j].call.RecordSuccess? ==> ClosedIn(Run(cfg, sc, w, actions[..j + 1]), id)
  {
    GrantHolds(cfg, sc, w, actions, k, id);
    HeldOverRun(cfg, sc, w, actions, k + 1, j, id);
    RunNext(cfg, sc, w, actions, j);
  }

  predicate ClosedIn(w: World, id: string) {
    LocalOf(w.states, id).circuit == Closed
  }

  lemma {:induction false} StaysClosed(cfg: BreakerConfig, sc: Config, w: World, actions: seq<Action>, lo: nat, hi: nat, id: string)
    requires lo <= hi <= |actions| && ClosedIn(Run(cfg, sc, w, actions[..lo]), id)
    requires forall m :: lo <= m < hi ==> !Ends(actions[m], id) || actions[m].call.RecordSuccess?
    ensures ClosedIn(Run(cfg, sc, w, actions[..hi]), id)
    decreases hi
  {
    if lo < hi {
      StaysClosed(cfg, sc, w, actions, lo, hi - 1, id);
      RunNext(cfg, sc, w, actions, hi - 1);
      ClosedNext(cfg, sc, Run(cfg, sc, w, actions[..hi - 1]), actions[hi - 1], id);
    }
  }

  lemma {:induction false} ClosedNext(cfg: BreakerConfig, sc: Config, w: World, a: Action, id: string)
    requires ClosedIn(w, id) && (!Ends(a, id) || a.call.RecordSuccess?)
    ensures ClosedIn(Act(cfg, sc, w, a).world, id)
    ensures a.Breaker? && a.call.AllowProbe? && a.call.id == id ==> (Act(cfg, sc, w, a).allowed <==> !DisabledIn(w, id))
  {
  }

  /** From a closed circuit, as a provider the breaker has not seen has it, every probe of an enabled provider is granted until
      a failure, a limit or a trip. */
  lemma {:induction false} ClosedGrants(cfg: BreakerConfig, sc: Config, w: World, actions: seq<Action>, lo: nat, j: nat, id: string)
    requires lo <= j < |actions| && ((id !in w.states && lo == 0) || ClosedIn(Run(cfg, sc, w, actions[..lo]), id))
    requires forall m :: lo <= m < j ==> !Ends(actions[m], id) || actions[m].call.RecordSuccess?
    requires actions[j].Breaker? && actions[j].call.AllowProbe? && actions[j].call.id == id
    ensures Allowed(cfg, sc, w, actions, j) <==> !DisabledIn(Run(cfg, sc, w, actions[..j]), id)
  {
    assert actions[..0] == [];
    StaysClosed(cfg, sc, w, actions, lo, j, id);
    ClosedNext(cfg, sc, Run(cfg, sc, w, actions[..j]), actions[j], id);
  }

  // ---------------------------------------------------------------- what the manager is told

  // Open since reading t, with no probe in flight.
  predicate OpenedIn(q: Provider, t: Time) {
    q.circuit == Open && q.openedAt == t && !q.probeInFlight
  }

  /** A limit of each kind, in what the manager shows of its provider before and after. */
  predicate LimitShown(cfg: BreakerConfig, w: World, c: Call, p: Provider, q: Provider)
    requires c.RecordLimit?
  {
    match c.kind
    case WindowLimit =>
      && q.quota == QuotaExhausted && q.error == c.message && q.circuit == p.circuit && q.openedAt == p.openedAt && q.health == p.health
      && q.validUntil == if c.retryAt.Some? then c.retryAt.value else p.validUntil
    case OtherLimit(_) =>
      if AtThreshold(cfg, w, c.id) then OpenedIn(q, c.later) && q.quota == p.quota && q.health == p.health && q.error == p.error
      else q == p
    case SpendLimit => q.quota == QuotaExhausted && q.circuit == Open && q.openedAt == c.now && q.health == Unavailable && q.error == c.message
    case AbuseGuard => q.quota == QuotaExhausted && q.circuit == Open && q.openedAt == c.now && q.health == Unavailable && q.error == c.message
    case _ => q.quota == p.quota && OpenedIn(q, c.now) && q.health == Degraded && q.error == c.message
  }

  lemma {:induction false} LimitIsShown(cfg: BreakerConfig, sc: Config, w: World, c: Call)
    requires c.RecordLimit? && c.id != "" && w.snap.Some? && c.id in w.snap.value.providers
    ensures var w' := Step(cfg, sc, w, c).world;
      && w'.snap.Some? && c.id in w'.snap.value.providers
      && LimitShown(cfg, w, c, w.snap.value.providers[c.id], w'.snap.value.providers[c.id])
  {
    var s := w.snap.value;
    match c.kind
    case OtherLimit(_) => SyncShown(sc, s, c.id, c.later);
    case SpendLimit =>
    case AbuseGuard =>
    case WindowLimit =>
    case _ => TripShown(sc, s, c.id, c.now, c.later, c.message);
  }

  // The manager's entry after the breaker opened its circuit.
  lemma {:induction false} SyncShown(sc: Config, s: Snapshot, id: string, later: Time)
    requires id in s.providers
    ensures var s' := Publish(sc, Sync(id, Open, false, later), s); var p := s.providers[id];
      && id in s'.providers && OpenedIn(s'.providers[id], later)
      && s'.providers[id] == p.(circuit := Open, openedAt := later, probeInFlight := false, observedAt := later)
  {
  }

  lemma {:induction false} TripShown(sc: Config, s: Snapshot, id: string, now: Time, later: Time, message: string)
    requires id in s.providers
    ensures var s' := Publish(sc, Op.Trip(id, now, message), Publish(sc, Sync(id, Open, false, later), s)); var p := s.providers[id];
      && id in s'.providers && OpenedIn(s'.providers[id], now)
      && s'.providers[id].quota == p.quota && s'.providers[id].health == Degraded && s'.providers[id].error == message
  {
    SyncShown(sc, s, id, later);
  }

  lemma {:induction false} FailureShown(cfg: BreakerConfig, sc: Config, w: World, c: Call)
    requires c.RecordFailure? && w.snap.Some? && c.id in w.snap.value.providers
    ensures var w' := Step(cfg, sc, w, c).world;
      && w'.snap.Some? && c.id in w'.snap.value.providers
      && CallShown(cfg, w, c, false, w.snap.value.providers[c.id], w'.snap.value.providers[c.id])
  {
    SyncShown(sc, w.snap.value, c.id, c.later);
  }

  /** The other calls: a granted probe outside Closed, a trip by failures or outright, and plain reports. */
  predicate CallShown(cfg: BreakerConfig, w: World, c: Call, allowed: bool, p: Provider, q: Provider)
    requires !c.RecordLimit?
  {
    var circuit := LocalOf(w.states, c.id).circuit;
    match c
    case AllowProbe(_, _, later, _) =>
      if allowed && (circuit == Open || circuit == HalfOpen) then q == p.(circuit := HalfOpen, probeInFlight := true, observedAt := later)
      else q == p
    case RecordSuccess(_, later) => q.failures == 0 && q.lastSuccess == later && q.error == "" && (p.circuit == HalfOpen ==> q.circuit == Closed)
    case RecordFailure(_, _, later, _) =>
      && q.failures == p.failures + 1 && q.lastAttempt == later
      && (circuit == HalfOpen || (circuit == Closed && AtThreshold(cfg, w, c.id)) ==> OpenedIn(q, later))
    case TripCircuit(_, _, _, later) => OpenedIn(q, later)
    case _ => true
  }

  lemma {:induction false} CallIsShown(cfg: BreakerConfig, sc: Config, w: World, c: Call)
    requires !c.RecordLimit? && w.snap.Some? && c.id in w.snap.value.providers
    ensures var v := Step(cfg, sc, w, c);
      && v.world.snap.Some? && c.id in v.world.snap.value.providers
      && CallShown(cfg, w, c, v.allowed, w.snap.value.providers[c.id], v.world.snap.value.providers[c.id])
  {
    match c
    case RecordFailure(_, _, _, _) => FailureShown(cfg, sc, w, c);
    case TripCircuit(_, _, _, later) => SyncShown(sc, w.snap.value, c.id, later);
    case RecordSuccess(_, _) =>
    case AllowProbe(_, _, _, _) => ProbeShown(cfg, sc, w, c);
    case _ =>
  }

  lemma {:induction false} ProbeShown(cfg: BreakerConfig, sc: Config, w: World, c: Call)
    requires c.AllowProbe? && w.snap.Some? && c.id in w.snap.value.providers
    ensures var v := Step(cfg, sc, w, c);
      && v.world.snap.Some? && c.id in v.world.snap.value.providers
      && CallShown(cfg, w, c, v.allowed, w.snap.value.providers[c.id], v.world.snap.value.providers[c.id])
  {
  }

  /** What the manager shows of a registered provider after any breaker call about it: which quota, health, error and circuit,
      open since which reading; and every other provider as before. */
  lemma {:induction false} ManagerIsTold(cfg: BreakerConfig, sc: Config, w: World, c: Call, other: string)
    requires w.snap.Some?
    ensures var v := Step(cfg, sc, w, c);
      && v.world.snap.Some?
      && (c.id in w.snap.value.providers ==>
            && c.id in v.world.snap.value.providers
            && var p, q := w.snap.value.providers[c.id], v.world.snap.value.providers[c.id];
               if !c.RecordLimit? then CallShown(cfg, w, c, v.allowed, p, q)
               else if c.id != "" then LimitShown(cfg, w, c, p, q)
               else q == p)
      && (other != c.id && other in w.snap.value.providers ==>
            other in v.world.snap.value.providers && v.world.snap.value.providers[other] == w.snap.value.providers[other])
  {
    if c.id in w.snap.value.providers {
      if !c.RecordLimit? {
        CallIsShown(cfg, sc, w, c);
      } else if c.id != "" {
        LimitIsShown(cfg, sc, w, c);
      }
    }
    if other != c.id && other in w.snap.value.providers {
      OthersStay(cfg, sc, w, c, other);
    }
  }

  lemma {:induction false} OthersStay(cfg: BreakerConfig, sc: Config, w: World, c: Call, other: string)
    requires w.snap.Some? && other != c.id && other in w.snap.value.providers
    ensures var w' := Step(cfg, sc, w, c).world;
      w'.snap.Some? && other in w'.snap.value.providers && w'.snap.value.providers[other] == w.snap.value.providers[other]
  {
    match c
    case RecordLimit(_, _, _, _, _, _, _) => LimitLeavesOthers(cfg, sc, w, c, other);
    case RecordFailure(_, _, _, _) => FailureLeavesOthers(cfg, sc, w, c, other);
    case _ =>
  }

  lemma {:induction false} UpdateLeavesOthers(sc: Config, s: Snapshot, op: Op, other: string)
    requires !op.OnModels() && op.id != other && other in s.providers
    ensures var s' := Publish(sc, op, s); other in s'.providers && s'.providers[other] == s.providers[other]
  {
  }

  lemma {:induction false} FailureLeavesOthers(cfg: BreakerConfig, sc: Config, w: World, c: Call, other: string)
    requires c.RecordFailure? && w.snap.Some? && other != c.id && other in w.snap.value.providers
    ensures var w' := Step(cfg, sc, w, c).world;
      w'.snap.Some? && other in w'.snap.value.providers && w'.snap.value.providers[other] == w.snap.value.providers[other]
  {
    var s, sync, op := w.snap.value, Sync(c.id, Open, false, c.later), Op.RecordFailure(c.id, c.later, c.err);
    UpdateLeavesOthers(sc, s, sync, other);
    UpdateLeavesOthers(sc, s, op, other);
    UpdateLeavesOthers(sc, Publish(sc, sync, s), op, other);
  }

  lemma {:induction false} LimitLeavesOthers(cfg: BreakerConfig, sc: Config, w: World, c: Call, other: string)
    requires c.RecordLimit? && w.snap.Some? && other != c.id && other in w.snap.value.providers
    ensures var w' := Step(cfg, sc, w, c).world;
      w'.snap.Some? && other in w'.snap.value.providers && w'.snap.value.providers[other] == w.snap.value.providers[other]
  {
    var s, sync, trip := w.snap.value, Sync(c.id, Open, false, c.later), Op.Trip(c.id, c.now, c.message);
    UpdateLeavesOthers(sc, s, sync, other);
    UpdateLeavesOthers(sc, Publish(sc, sync, s), trip, other);
    UpdateLeavesOthers(sc, s, Exhaust(c.id, c.now, c.message), other);
    UpdateLeavesOthers(sc, s, QuotaWindow(c.id, c.now, c.retryAt, c.message), other);
  }
}
