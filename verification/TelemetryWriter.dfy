/** The telemetry writer (pkg/storage/writer.go): a bounded queue, one worker that batches, and Close.  Producers, the
    worker and the closing call interleave; writing a batch appends it to a log together with whether it succeeded. */
module TelemetryWriter {
  import opened Common

  // Where the worker is.  Parked is blocked on an empty open queue; Flushing writes the last batch before exiting.
  datatype Pc = Receiving | Parked | Draining | Writing | Flushing | Exited

  // The database the batches go to, and whether closing it worked.
  datatype Database = Opened | Shut(ok: bool)

  // The call that closed the queue: it waits for the worker, closes the database, and returns the worker's error joined
  // with the database's.
  datatype Closer = NotCalled | Awaiting | Returned(flush: Option<nat>, dbFailed: bool)
  {
    predicate Fails() {
      Returned? && (flush.Some? || dbFailed)
    }
  }

  /** accepted is every record a producer was told was taken, oldest first; results says which batches of log were
      written.  An error is named by the index of the batch that failed. */
  datatype Sys<T> = Sys(cap: nat, batchSize: int, queue: seq<T>, closed: bool, pc: Pc, batch: seq<T>,
                        log: seq<seq<T>>, results: seq<bool>, firstErr: Option<nat>, flushErr: Option<nat>,
                        closer: Closer, db: Database, accepted: seq<T>)

  datatype Step<T> = Offer(item: T) | CloseCall | Work(ok: bool) | Await(dbCloses: bool)

  datatype Admission = Admitted | QueueFull | WriterClosed

  function Init<T>(cap: nat, batchSize: int): Sys<T> {
    Sys(cap, batchSize, [], false, Receiving, [], [], [], None, None, NotCalled, Opened, [])
  }

  function MaxBatch(batchSize: int): nat {
    if batchSize < 1 then 1 else batchSize
  }

  // A waiting receiver takes the record at once, so a queue of capacity 0 can still admit.
  function Answer<T>(s: Sys<T>): Admission {
    if s.closed then WriterClosed
    else if s.pc == Parked || |s.queue| < s.cap then Admitted
    else QueueFull
  }

  function Enqueued<T>(s: Sys<T>, item: T): Sys<T> {
    if Answer(s) != Admitted then s
    else if s.pc == Parked then s.(batch := s.batch + [item], pc := Draining, accepted := s.accepted + [item])
    else s.(queue := s.queue + [item], accepted := s.accepted + [item])
  }

  function Close<T>(s: Sys<T>): Sys<T> {
    if s.closed then s
    else s.(closed := true, closer := Awaiting, pc := if s.pc == Parked then Receiving else s.pc)
  }

  function Take<T>(s: Sys<T>): Sys<T>
    requires s.queue != []
  {
    s.(batch := s.batch + [s.queue[0]], queue := s.queue[1..], pc := Draining)
  }

  // writeBatch does nothing with an empty batch; the first error of the worker's life is the one kept.
  function Write<T>(s: Sys<T>, ok: bool): Sys<T> {
    if s.batch == [] then s
    else s.(log := s.log + [s.batch], results := s.results + [ok], batch := [],
            firstErr := if s.firstErr.None? && !ok then Some(|s.log|) else s.firstErr)
  }

  function Exit<T>(s: Sys<T>): Sys<T> {
    s.(pc := Exited, flushErr := s.firstErr)
  }

  function WorkerStep<T>(s: Sys<T>, ok: bool): Sys<T> {
    match s.pc
    case Receiving =>
      if s.queue != [] then Take(s)
      else if !s.closed then s.(pc := Parked)
      else if s.batch == [] then Exit(s)
      else s.(pc := Flushing)
    case Draining =>
      if |s.batch| >= s.batchSize then s.(pc := Writing)
      else if s.queue != [] then Take(s)
      else if s.closed then s.(pc := Flushing)
      else s.(pc := Writing)
    case Writing => Write(s, ok).(pc := Receiving)
    case Flushing => Exit(Write(s, ok))
    case Parked => s
    case Exited => s
  }

  function Exec<T>(s: Sys<T>, step: Step<T>): Sys<T> {
    match step
    case Offer(item) => Enqueued(s, item)
    case CloseCall => Close(s)
    case Work(ok) => WorkerStep(s, ok)
    case Await(closes) =>
      if s.closer.Awaiting? && s.pc.Exited? then s.(closer := Returned(s.flushErr, !closes), db := Shut(closes)) else s
  }

  function Run<T>(s: Sys<T>, steps: seq<Step<T>>): Sys<T> {
    if steps == [] then s else Exec(Run(s, DropLast(steps)), Last(steps))
  }

  function Flatten<T>(log: seq<seq<T>>): seq<T> {
    if log == [] then [] else Flatten(DropLast(log)) + Last(log)
  }

  lemma {:induction false} FlattenAppend<T>(log: seq<seq<T>>, batch: seq<T>)
    ensures Flatten(log + [batch]) == Flatten(log) + batch
  {
    assert DropLast(log + [batch]) == log;
  }

  // ---------------------------------------------------------------- the invariant

  /** Every accepted record is in exactly one place, in order. */
  predicate Conserved<T(==)>(s: Sys<T>) {
    s.accepted == Flatten(s.log) + s.batch + s.queue
  }

  ghost predicate Bounded<T>(s: Sys<T>) {
    && |s.queue| <= s.cap && |s.batch| <= MaxBatch(s.batchSize)
    && (forall i :: 0 <= i < |s.log| ==> 1 <= |s.log[i]| <= MaxBatch(s.batchSize))
  }

  ghost predicate Placed<T>(s: Sys<T>) {
    && (s.pc.Receiving? || s.pc.Parked? || s.pc.Exited? <==> s.batch == [])
    && (s.pc.Parked? ==> s.queue == [] && !s.closed)
    && (s.pc.Flushing? || s.pc.Exited? ==> s.queue == [] && s.closed)
    && (s.closer.NotCalled? <==> !s.closed)
    && (s.closer.Returned? <==> s.db.Shut?)
    && (s.closer.Returned? ==> s.pc.Exited? && s.closer.flush == s.flushErr && s.closer.dbFailed == !s.db.ok)
  }

  // The index of the first batch that failed.
  ghost predicate FirstFailure(results: seq<bool>, e: Option<nat>) {
    match e
    case None => forall i :: 0 <= i < |results| ==> results[i]
    case Some(k) => k < |results| && !results[k] && forall i :: 0 <= i < k ==> results[i]
  }

  ghost predicate Errors<T>(s: Sys<T>) {
    && |s.results| == |s.log| && FirstFailure(s.results, s.firstErr)
    && (s.pc.Exited? ==> s.flushErr == s.firstErr)
  }

  ghost predicate Inv<T(!new)>(s: Sys<T>) {
    Conserved(s) && Bounded(s) && Placed(s) && Errors(s)
  }

  lemma {:induction false} TakeInv<T(!new)>(s: Sys<T>)
    requires Inv(s) && s.queue != [] && (s.pc.Receiving? || (s.pc.Draining? && |s.batch| < s.batchSize))
    ensures Inv(Take(s))
  {
    assert s.batch + s.queue == (s.batch + [s.queue[0]]) + s.queue[1..];
    AppendAssoc(Flatten(s.log), s.batch, s.queue);
    AppendAssoc(Flatten(s.log), s.batch + [s.queue[0]], s.queue[1..]);
  }

  lemma {:induction false} WriteConserves<T(!new)>(s: Sys<T>, ok: bool)
    requires Conserved(s)
    ensures Conserved(Write(s, ok))
  {
    FlattenAppend(s.log, s.batch);
    var flat := Flatten(s.log) + s.batch;
    assert flat + [] == flat;
  }

  lemma {:induction false} WriteErrors<T(!new)>(s: Sys<T>, ok: bool)
    requires |s.results| == |s.log| && FirstFailure(s.results, s.firstErr)
    ensures var w := Write(s, ok); |w.results| == |w.log| && FirstFailure(w.results, w.firstErr)
  {
  }

  lemma {:induction false} WriteBounded<T(!new)>(s: Sys<T>, ok: bool)
    requires Bounded(s)
    ensures Bounded(Write(s, ok))
  {
  }

  // The worker's bookkeeping around a write touches none of this.
  lemma {:induction false} SameRecords<T(!new)>(s: Sys<T>, s': Sys<T>)
    requires s' == s.(pc := s'.pc, flushErr := s'.flushErr)
    requires Conserved(s) && Bounded(s)
    ensures Conserved(s') && Bounded(s')
  {
  }

  lemma {:induction false} WriteInv<T(!new)>(s: Sys<T>, ok: bool)
    requires Inv(s) && (s.pc.Writing? || s.pc.Flushing?)
    ensures Inv(WorkerStep(s, ok))
  {
    WriteConserves(s, ok);
    WriteErrors(s, ok);
    WriteBounded(s, ok);
    SameRecords(Write(s, ok), WorkerStep(s, ok));
  }

  lemma {:induction false} EnqueueInv<T(!new)>(s: Sys<T>, item: T)
    requires Inv(s)
    ensures Inv(Enqueued(s, item))
  {
    assert (Flatten(s.log) + s.batch + s.queue) + [item] == Flatten(s.log) + s.batch + (s.queue + [item]);
    assert s.queue == [] ==>
      (Flatten(s.log) + s.batch + s.queue) + [item] == Flatten(s.log) + (s.batch + [item]) + s.queue;
  }

  lemma {:induction false} ExecInv<T(!new)>(s: Sys<T>, step: Step<T>)
    requires Inv(s)
    ensures Inv(Exec(s, step))
  {
    match step
    case Offer(item) => EnqueueInv(s, item);
    case CloseCall =>
    case Await(_) =>
    case Work(ok) =>
      if s.pc.Writing? || s.pc.Flushing? {
        WriteInv(s, ok);
      } else if s.queue != [] && (s.pc.Receiving? || (s.pc.Draining? && |s.batch| < s.batchSize)) {
        TakeInv(s);
      }
  }

  lemma {:induction false} RunInv<T(!new)>(s: Sys<T>, steps: seq<Step<T>>)
    requires Inv(s)
    ensures Inv(Run(s, steps))
    decreases |steps|
  {
    if steps != [] {
      RunInv(s, DropLast(steps));
      ExecInv(Run(s, DropLast(steps)), Last(steps));
    }
  }

  /** Over every run: accepted records are the logged batches, then the worker's batch, then the queue; the queue never
      exceeds its capacity, nor a batch max(1, batchSize); no empty batch is written. */
  lemma {:induction false} NothingLostOrRepeated<T(!new)>(cap: nat, batchSize: int, steps: seq<Step<T>>)
    ensures var s := Run(Init(cap, batchSize), steps); Conserved(s) && Bounded(s)
  {
    RunInv(Init(cap, batchSize), steps);
  }

  /** When the closing call has returned, the batches are exactly what was accepted and the worker had exited before the
      database was closed; it reports an error exactly when some batch of the writer's life failed (not only the last
      flush) or the database did not close, and of the batches it names the first that failed. */
  lemma {:induction false} CloseHandsOverEverything<T(!new)>(cap: nat, batchSize: int, steps: seq<Step<T>>)
    requires Run(Init(cap, batchSize), steps).closer.Returned?
    ensures var s := Run(Init(cap, batchSize), steps);
      && Flatten(s.log) == s.accepted && s.pc.Exited? && s.db.Shut? && FirstFailure(s.results, s.closer.flush)
      && (s.closer.Fails() <==> !s.db.ok || exists i :: 0 <= i < |s.results| && !s.results[i])
  {
    RunInv(Init(cap, batchSize), steps);
    var s := Run(Init(cap, batchSize), steps);
    assert Flatten(s.log) + [] + [] == Flatten(s.log);
  }

  lemma {:induction false} AcceptsIff<T>(s: Sys<T>, step: Step<T>)
    ensures Exec(s, step).accepted
            == if step.Offer? && Answer(s) == Admitted then s.accepted + [step.item] else s.accepted
    ensures s.closed ==> Exec(s, step).closed
  {
  }

  /** In every reachable state: a record is refused as late exactly once Close was called, refused for want of room exactly when
      cap records wait and no receiver does, and accepted otherwise, as the newest of those that wait. */
  lemma {:induction false} AdmissionIs<T(!new)>(cap: nat, batchSize: int, steps: seq<Step<T>>, item: T)
    ensures var s := Run(Init(cap, batchSize), steps); var s' := Exec(s, Offer(item));
      && (Answer(s) == WriterClosed <==> exists k :: 0 <= k < |steps| && steps[k] == CloseCall)
      && (Answer(s) == QueueFull <==> !s.closed && |s.queue| == cap && s.pc != Parked)
      && (Answer(s) == Admitted ==> s'.accepted == s.accepted + [item] && s'.batch + s'.queue == s.batch + s.queue + [item])
      && (Answer(s) != Admitted ==> s' == s)
  {
    var s0: Sys<T> := Init(cap, batchSize);
    RunInv(s0, steps);
    RunClosed(s0, steps);
    var s := Run(s0, steps);
    AppendAssoc(s.batch, s.queue, [item]);
  }

  lemma {:induction false} RunClosed<T(!new)>(s0: Sys<T>, steps: seq<Step<T>>)
    ensures Run(s0, steps).cap == s0.cap
    ensures Run(s0, steps).closed <==> s0.closed || exists k :: 0 <= k < |steps| && steps[k] == CloseCall
    decreases |steps|
  {
    if steps != [] {
      var front := DropLast(steps);
      RunClosed(s0, front);
      StepClosed(Run(s0, front), Last(steps));
      assert forall k :: 0 <= k < |front| ==> front[k] == steps[k];
      assert steps[|steps| - 1] == Last(steps);
    }
  }

  lemma {:induction false} StepClosed<T(!new)>(s: Sys<T>, step: Step<T>)
    ensures Exec(s, step).cap == s.cap && (Exec(s, step).closed <==> s.closed || step == CloseCall)
  {
  }

  /** While it drains, the worker takes one record after the other, oldest first, until the batch is full or nothing waits. */
  lemma {:induction false} DrainsUntil<T(!new)>(s: Sys<T>, ok: bool)
    requires s.pc == Draining
    ensures var s' := Exec(s, Work(ok));
      && (s'.pc == Draining <==> |s.batch| < s.batchSize && s.queue != [])
      && (s'.pc == Draining ==> s'.batch == s.batch + [s.queue[0]] && s'.queue == s.queue[1..])
      && (s'.pc != Draining ==> s'.batch == s.batch && s'.queue == s.queue)
  {
  }

  /** Nothing is accepted after Close. */
  lemma {:induction false} ClosedAcceptsNothing<T>(s: Sys<T>, steps: seq<Step<T>>)
    requires s.closed
    ensures Run(s, steps).closed && Run(s, steps).accepted == s.accepted
    decreases |steps|
  {
    if steps != [] {
      ClosedAcceptsNothing(s, DropLast(steps));
      AcceptsIff(Run(s, DropLast(steps)), Last(steps));
    }
  }

  // ---------------------------------------------------------------- the worker exits

  function Weight(pc: Pc): nat {
    match pc
    case Draining => 3
    case Writing => 2
    case Receiving => 1
    case Flushing => 1
    case Parked => 0
    case Exited => 0
  }

  // Worker steps still to come once the queue is closed, at most.
  function Measure<T>(s: Sys<T>): nat {
    3 * |s.queue| + Weight(s.pc)
  }

  function WorkerSteps<T>(steps: seq<Step<T>>): nat {
    if steps == [] then 0 else WorkerSteps(DropLast(steps)) + if Last(steps).Work? then 1 else 0
  }

  lemma {:induction false} StepMeasure<T(!new)>(s: Sys<T>, step: Step<T>)
    requires Inv(s) && s.closed
    ensures var s' := Exec(s, step); Measure(s') <= Measure(s) && (step.Work? && !s.pc.Exited? ==> Measure(s') < Measure(s))
    ensures s.pc.Exited? ==> Exec(s, step).pc.Exited?
  {
  }

  /** Once the queue is closed the worker has exited after 3 * |queue| + 3 of its own steps, whatever else runs. */
  lemma {:induction false} WorkerExits<T(!new)>(s: Sys<T>, steps: seq<Step<T>>)
    requires Inv(s) && s.closed
    ensures Inv(Run(s, steps)) && Run(s, steps).closed
    ensures !Run(s, steps).pc.Exited? ==> WorkerSteps(steps) + Measure(Run(s, steps)) <= Measure(s)
    ensures WorkerSteps(steps) >= 3 * |s.queue| + 3 ==> Run(s, steps).pc.Exited?
    decreases |steps|
  {
    RunInv(s, steps);
    if steps != [] {
      var mid := Run(s, DropLast(steps));
      WorkerExits(s, DropLast(steps));
      StepMeasure(mid, Last(steps));
      AcceptsIff(mid, Last(steps));
    }
  }

  // ---------------------------------------------------------------- the object

  /** The writer's fields.  Each assignment of the worker's loop is one step of the machine above. */
  class Writer<T(!new)> {
    const cap: nat
    const batchSize: int
    var queue: seq<T>
    var closed: bool
    var pc: Pc
    var batch: seq<T>
    var log: seq<seq<T>>
    var results: seq<bool>
    var firstErr: Option<nat>
    var flushErr: Option<nat>
    var closer: Closer
    var db: Database
    ghost var accepted: seq<T>

    ghost function State(): Sys<T>
      reads this
    {
      Sys(cap, batchSize, queue, closed, pc, batch, log, results, firstErr, flushErr, closer, db, accepted)
    }

    constructor (cap: nat, batchSize: int)
      ensures State() == Init(cap, batchSize)
    {
      this.cap, this.batchSize := cap, batchSize;
      queue, closed, pc, batch, log, results := [], false, Receiving, [], [], [];
      firstErr, flushErr, closer, db, accepted := None, None, NotCalled, Opened, [];
    }

    method Enqueue(item: T) returns (r: Admission)
      modifies this
      ensures r == Answer(old(State())) && State() == Enqueued(old(State()), item)
    {
      if closed {
        return WriterClosed;
      }
      if pc == Parked {
        batch, pc := batch + [item], Draining;
      } else if |queue| < cap {
        queue := queue + [item];
      } else {
        return QueueFull;
      }
      accepted := accepted + [item];
      return Admitted;
    }

    method WriteBatch(ok: bool)
      modifies this`log, this`results, this`batch, this`firstErr
      ensures State() == Write(old(State()), ok)
    {
      if batch != [] {
        log, results := log + [batch], results + [ok];
        if firstErr.None? && !ok {
          firstErr := Some(|log| - 1);
        }
        batch := [];
      }
    }

    // The state is what the worker steps so far have made of start, where the queue was closed already.
    ghost predicate Traced(start: Sys<T>, steps: seq<Step<T>>)
      reads this
    {
      && State() == Run(start, steps) && Inv(State()) && closed && accepted == start.accepted
      && forall step :: step in steps ==> step.Work?
    }

    // Appends one worker step to the trace.
    ghost method Trace(start: Sys<T>, steps: seq<Step<T>>, was: Sys<T>, ok: bool) returns (steps': seq<Step<T>>)
      requires was == Run(start, steps) && State() == WorkerStep(was, ok) && Inv(was)
      requires was.closed && was.accepted == start.accepted && forall step :: step in steps ==> step.Work?
      ensures Traced(start, steps')
    {
      steps' := steps + [Work(ok)];
      assert DropLast(steps') == steps;
      ExecInv(was, Work(ok));
      AcceptsIff(was, Work(ok));
    }

    method Receive(ghost start: Sys<T>, ghost steps: seq<Step<T>>) returns (ghost steps': seq<Step<T>>)
      requires Traced(start, steps) && queue != [] && (pc == Receiving || (pc == Draining && |batch| < batchSize))
      modifies this`batch, this`queue, this`pc
      ensures Traced(start, steps') && pc == Draining && queue == old(queue)[1..]
    {
      ghost var was := State();
      batch, queue, pc := batch + [queue[0]], queue[1..], Draining;
      steps' := Trace(start, steps, was, true);
    }

    // Writes the batch; then the worker exits if it saw the queue closed, and receives again if not.
    method Settle(ghost start: Sys<T>, ghost steps: seq<Step<T>>, ok: bool, flushing: bool) returns (ghost steps': seq<Step<T>>)
      requires Traced(start, steps) && pc == if flushing then Flushing else Writing
      modifies this`log, this`results, this`batch, this`firstErr, this`flushErr, this`pc
      ensures Traced(start, steps') && pc == if flushing then Exited else Receiving
    {
      ghost var was := State();
      WriteBatch(ok);
      if flushing {
        flushErr := firstErr;
      }
      pc := if flushing then Exited else Receiving;
      steps' := Trace(start, steps, was, ok);
    }

    // The drain loop: the batch takes what the queue holds, up to its size.
    method Fill(ghost start: Sys<T>, ghost steps: seq<Step<T>>) returns (ghost steps': seq<Step<T>>)
      requires Traced(start, steps) && pc == Draining
      modifies this`batch, this`queue, this`pc
      ensures Traced(start, steps') && pc == Draining && |queue| <= |old(queue)| && (|batch| >= batchSize || queue == [])
    {
      steps' := steps;
      while |batch| < batchSize && queue != []
        invariant Traced(start, steps') && pc == Draining && |queue| <= |old(queue)|
        decreases |queue|
      {
        steps' := Receive(start, steps');
      }
    }

    /** The worker's loop over a closed queue; outcomes says which batch writes succeed.  It hands over everything that
        was accepted, by steps of the machine alone. */
    method Finish(outcomes: nat -> bool) returns (ghost steps: seq<Step<T>>)
      requires Inv(State()) && closed && pc == Receiving
      modifies this
      ensures pc == Exited && State() == Run(old(State()), steps) && forall step :: step in steps ==> step.Work?
      ensures Flatten(log) == accepted == old(accepted)
    {
      steps := [];
      ghost var start := State();
      while queue != [] && pc == Receiving
        invariant Traced(start, steps) && (pc == Receiving || pc == Exited)
        decreases |queue|
      {
        steps := Receive(start, steps);
        steps := Fill(start, steps);
        ghost var was := State();
        var flushing := |batch| < batchSize;
        pc := if flushing then Flushing else Writing;
        steps := Trace(start, steps, was, true);
        var ok := outcomes(|log|);
        steps := Settle(start, steps, ok, flushing);
      }
      if pc == Receiving {
        ghost var was := State();
        flushErr, pc := firstErr, Exited;
        steps := Trace(start, steps, was, true);
      }
      assert Flatten(log) + [] + [] == Flatten(log);
    }
  }

  // ---------------------------------------------------------------- an error long before Close

  function FailedThenClosed(): seq<Step<int>> {
    [Offer(7), Work(true), Work(true), Work(false), Work(true), CloseCall, Work(true), Work(true), Await(true)]
  }

  lemma {:induction false} RunAppend(s: Sys<int>, steps: seq<Step<int>>, step: Step<int>)
    ensures Run(s, steps + [step]) == Exec(Run(s, steps), step)
  {
    assert DropLast(steps + [step]) == steps;
  }

  /** Close reports a batch that failed long before it, when nothing was left to flush. */
  lemma {:induction false} OldErrorIsReported() returns (s: Sys<int>)
    ensures s == Run(Init(1, 1), FailedThenClosed())
    ensures s.closer == Returned(Some(0), false) && s.results == [false] && s.log == [[7]]
  {
    var s0: Sys<int> := Init(1, 1);
    var steps := FailedThenClosed();
    s := s0;
    var i := 0;
    while i < 9
      invariant 0 <= i <= 9 && s == Run(s0, steps[..i])
      invariant i == 1 ==> s == s0.(queue := [7], accepted := [7])
      invariant i == 2 ==> s == s0.(batch := [7], pc := Draining, accepted := [7])
      invariant i == 3 ==> s == s0.(batch := [7], pc := Writing, accepted := [7])
      invariant i == 4 ==> s == s0.(log := [[7]], results := [false], firstErr := Some(0), accepted := [7])
      invariant i == 5 ==> s == s0.(log := [[7]], results := [false], firstErr := Some(0), accepted := [7], pc := Parked)
      invariant i == 6 ==> s == s0.(log := [[7]], results := [false], firstErr := Some(0), accepted := [7], closed := true, closer := Awaiting)
      invariant i == 7 || i == 8 ==> s == s0.(log := [[7]], results := [false], firstErr := Some(0), flushErr := Some(0), accepted := [7],
                                              closed := true, closer := Awaiting, pc := Exited)
      invariant i == 9 ==> s.closer == Returned(Some(0), false) && s.results == [false] && s.log == [[7]]
    {
      assert steps[..i + 1] == steps[..i] + [steps[i]];
      RunAppend(s0, steps[..i], steps[i]);
      s := Exec(s, steps[i]);
      i := i + 1;
    }
    assert steps[..9] == steps;
  }
}
