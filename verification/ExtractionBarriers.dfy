/** Automatic memory extraction against ResetSession (sessionExtractionBarrier, BeginExtraction and ResetSession of
    internal/llm/session.go, extractPendingBatch of internal/llm/agent.go).  Each step is one section under the
    session mutex or under one barrier's mutex; a barrier that reads the session's epoch does so while its own mutex
    keeps everyone else away from it, so reading and acting are one step. */
module ExtractionBarriers {
  import opened Text

  datatype State = Pending | Writing | Done | Aborted

  /** One barrier.  done names the channel that its waiters use; a commit that ends normally replaces it. */
  datatype Barrier = Barrier(epoch: nat, state: State, aborted: bool, cancelled: bool, done: nat, doneClosed: bool)

  predicate Terminated(b: Barrier) { b.state in {Done, Aborted} }

  predicate Invalid(b: Barrier, epoch: nat) { b.aborted || b.cancelled || epoch != b.epoch }

  function Finish(b: Barrier, s: State): Barrier { b.(state := s, doneClosed := true) }

  function TryBegin(b: Barrier, epoch: nat): Barrier {
    if b.state != Pending then b
    else if Invalid(b, epoch) then Finish(b, Aborted)
    else b.(state := Writing)
  }

  function End(b: Barrier, epoch: nat, newChannel: nat): Barrier {
    match b.state
    case Writing => if Invalid(b, epoch) then Finish(b, Aborted)
        else b.(state := Pending, done := newChannel, doneClosed := false)
    case Pending => Finish(b, Done)
    case _ => b
  }

  function Close(b: Barrier): Barrier {
    if b.state in {Pending, Writing} then Finish(b, Done) else b
  }

  /** The locked part of AbortAndWait; a caller that finds Writing then waits on the channel it saw here. */
  function Abort(b: Barrier): Barrier {
    if b.state == Writing then b.(aborted := true) else Finish(b.(aborted := true), Aborted)
  }

  /** The barrier object itself. */
  class ExtractionBarrier {
    const epoch: nat
    var state: State
    var aborted: bool
    var cancelled: bool
    var done: nat
    var doneClosed: bool

    ghost function View(): Barrier reads this { Barrier(epoch, state, aborted, cancelled, done, doneClosed) }

    constructor (epoch: nat, channel: nat)
      ensures View() == Barrier(epoch, Pending, false, false, channel, false)
    {
      this.epoch := epoch;
      state, aborted, cancelled, done, doneClosed := Pending, false, false, channel, false;
    }

    method TryBeginCommit(current: nat) returns (ok: bool)
      modifies this
      ensures View() == TryBegin(old(View()), current)
      ensures ok <==> old(state) == Pending && state == Writing
    {
      if state != Pending { return false; }
      if aborted || cancelled || current != epoch {
        state, doneClosed := Aborted, true;
        return false;
      }
      state := Writing;
      return true;
    }

    method EndCommit(current: nat, newChannel: nat)
      modifies this
      ensures View() == End(old(View()), current, newChannel)
    {
      match state {
        case Writing =>
          doneClosed := true;
          if aborted || cancelled || current != epoch {
            state := Aborted;
          } else {
            state, done, doneClosed := Pending, newChannel, false;
          }
        case Pending => state, doneClosed := Done, true;
        case _ =>
      }
    }

    method CloseBarrier()
      modifies this
      ensures View() == Close(old(View()))
    {
      if state == Pending || state == Writing { state, doneClosed := Done, true; }
    }

    method AbortAndWait() returns (waitOn: Option<nat>)
      modifies this
      ensures View() == Abort(old(View()))
      ensures waitOn == if old(state) == Writing then Some(old(done)) else None
    {
      aborted := true;
      if state == Writing { return Some(done); }
      state, doneClosed := Aborted, true;
      return None;
    }
  }

  // ---------- the session and its extractions ----------

  /** batch is the epoch at which the batch was enqueued; validated says that the worker has seen its validator hold. */
  datatype Job = Job(barrier: Barrier, batch: nat, validated: bool)

  /** A reset between bumping the epoch and returning: barriers it has collected, has yet to abort, and waits for. */
  datatype Reset = Reset(collected: set<nat>, todo: set<nat>, waiting: Option<(nat, nat)>)

  datatype System = System(epoch: nat, jobs: map<nat, Job>, registered: set<nat>, closed: set<nat>, nextChannel: nat,
                           reset: Option<Reset>)

  const Init := System(1, map[], {}, {}, 0, None)

  datatype Step =
    | Begin(j: nat, batch: nat)
    | Validate(j: nat)
    | TryBeginCommit(j: nat)
    | EndCommit(j: nat)
    | CloseJob(j: nat)
    | Unregister(j: nat)
    | CancelJob(j: nat)
    | ResetBegin
    | ResetAbort(j: nat)
    | ResetResume
    | ResetReturn

  predicate Enabled(y: System, st: Step) {
    match st
    case Begin(j, batch) => j !in y.jobs && batch <= y.epoch
    case Validate(j) => j in y.jobs
    case TryBeginCommit(j) => j in y.jobs && y.jobs[j].validated
    case EndCommit(j) => j in y.jobs
    case CloseJob(j) => j in y.jobs && y.jobs[j].barrier.state != Writing  // the worker closes after its writes
    case Unregister(j) => j in y.jobs && Terminated(y.jobs[j].barrier)
    case CancelJob(j) => j in y.jobs
    case ResetBegin => y.reset.None?                                        // resetMu
    case ResetAbort(j) => y.reset.Some? && j in y.reset.value.todo && j in y.jobs && y.reset.value.waiting.None?
    case ResetResume => y.reset.Some? && y.reset.value.waiting.Some? && y.reset.value.waiting.value.1 in y.closed
    case ResetReturn => y.reset.Some? && y.reset.value.todo == {} && y.reset.value.waiting.None?
  }

  /** Channels closed by taking a barrier from b to c. */
  function ClosedBy(b: Barrier, c: Barrier): set<nat> {
    if c.doneClosed || c.done != b.done then {b.done} else {}
  }

  function SetBarrier(y: System, j: nat, c: Barrier): System
    requires j in y.jobs
  {
    y.(jobs := y.jobs[j := y.jobs[j].(barrier := c)], closed := y.closed + ClosedBy(y.jobs[j].barrier, c))
  }

  function CancelAll(jobs: map<nat, Job>, which: set<nat>): map<nat, Job> {
    map j | j in jobs :: if j in which then jobs[j].(barrier := jobs[j].barrier.(cancelled := true)) else jobs[j]
  }

  function Next(y: System, st: Step): System
    requires Enabled(y, st)
  {
    match st
    case Begin(j, batch) =>
      y.(jobs := y.jobs[j := Job(Barrier(y.epoch, Pending, false, false, y.nextChannel, false), batch, false)],
         registered := y.registered + {j}, nextChannel := y.nextChannel + 1)
    case Validate(j) =>
      if !y.jobs[j].barrier.cancelled && y.epoch == y.jobs[j].batch
          then y.(jobs := y.jobs[j := y.jobs[j].(validated := true)]) else y
    case TryBeginCommit(j) => SetBarrier(y, j, TryBegin(y.jobs[j].barrier, y.epoch))
    case EndCommit(j) =>
      SetBarrier(y, j, End(y.jobs[j].barrier, y.epoch, y.nextChannel)).(nextChannel := y.nextChannel + 1)
    case CloseJob(j) => SetBarrier(y, j, Close(y.jobs[j].barrier))
    case Unregister(j) => y.(registered := y.registered - {j})
    case CancelJob(j) => SetBarrier(y, j, y.jobs[j].barrier.(cancelled := true))
    case ResetBegin =>
      y.(epoch := y.epoch + 1, jobs := CancelAll(y.jobs, y.registered),
         reset := Some(Reset(y.registered, y.registered, None)))
    case ResetAbort(j) =>
      var r, b := y.reset.value, y.jobs[j].barrier;
      var waiting := if b.state == Writing then Some((j, b.done)) else None;
      SetBarrier(y, j, Abort(b)).(reset := Some(r.(todo := r.todo - {j}, waiting := waiting)))
    case ResetResume => y.(reset := Some(y.reset.value.(waiting := None)))
    case ResetReturn => y.(registered := y.registered - y.reset.value.collected, reset := None)
  }

  // ---------- invariants ----------

  predicate Owns(r: Reset, j: nat) { j in r.todo || (r.waiting.Some? && r.waiting.value.0 == j) }

  ghost predicate JobOk(y: System, j: nat)
    requires j in y.jobs
  {
    var b, job := y.jobs[j].barrier, y.jobs[j];
    && b.epoch <= y.epoch && job.batch <= b.epoch
    && (job.validated ==> job.batch == b.epoch)
    && (b.state == Writing ==> job.validated)
    && b.done < y.nextChannel
    && (b.done in y.closed <==> b.doneClosed)
    && (b.doneClosed <==> Terminated(b))
    && (!Terminated(b) ==> j in y.registered)
    && (b.epoch < y.epoch && !Terminated(b) ==> y.reset.Some? && Owns(y.reset.value, j))
  }

  ghost predicate ResetOk(y: System) {
    y.reset.Some? ==>
      var r := y.reset.value;
      && (forall j :: Owns(r, j) ==> j in r.collected)
      && (forall j :: j in r.collected ==> j in y.jobs && y.jobs[j].barrier.epoch < y.epoch)
      && (r.waiting.Some? ==>
           var b := y.jobs[r.waiting.value.0].barrier;
           b.aborted && b.done == r.waiting.value.1 && (b.state == Writing || Terminated(b)))
  }

  ghost predicate Inv(y: System) {
    && y.registered <= y.jobs.Keys
    && (forall n :: n in y.closed ==> n < y.nextChannel)
    && (forall i, j :: i in y.jobs && j in y.jobs && i != j ==> y.jobs[i].barrier.done != y.jobs[j].barrier.done)
    && (forall j :: j in y.jobs ==> JobOk(y, j))
    && ResetOk(y)
  }

  lemma BarrierStepKeeps(y: System, j: nat, c: Barrier)
    requires Inv(y) && j in y.jobs
    requires var b := y.jobs[j].barrier;
      && c.epoch == b.epoch && c.done == b.done && (b.aborted ==> c.aborted)
      && (b.doneClosed ==> c.doneClosed) && (c.doneClosed <==> Terminated(c)) && (Terminated(b) ==> Terminated(c))
      && (c.state == Writing ==> y.jobs[j].validated)
      && (c.state == Pending ==> b.state == Pending)
    ensures Inv(SetBarrier(y, j, c))
  {
    var z := SetBarrier(y, j, c);
    forall i | i in z.jobs ensures JobOk(z, i) { assert JobOk(y, i); }
  }

  lemma EndKeeps(y: System, j: nat)
    requires Inv(y) && Enabled(y, EndCommit(j))
    ensures Inv(Next(y, EndCommit(j)))
  {
    var z := Next(y, EndCommit(j));
    forall i | i in z.jobs ensures JobOk(z, i) { assert JobOk(y, i); }
  }

  lemma ResetBeginKeeps(y: System)
    requires Inv(y) && y.reset.None?
    ensures Inv(Next(y, ResetBegin))
  {
    var z := Next(y, ResetBegin);
    forall j | j in z.jobs ensures JobOk(z, j) { assert JobOk(y, j); }
    forall j | j in y.registered ensures z.jobs[j].barrier.epoch < z.epoch { assert JobOk(y, j); }
  }

  lemma ResetAbortKeeps(y: System, j: nat)
    requires Inv(y) && Enabled(y, ResetAbort(j))
    ensures Inv(Next(y, ResetAbort(j)))
  {
    assert JobOk(y, j);
    var z := Next(y, ResetAbort(j));
    forall i | i in z.jobs ensures JobOk(z, i) { assert JobOk(y, i); }
  }

  lemma BeginKeeps(y: System, j: nat, batch: nat)
    requires Inv(y) && Enabled(y, Begin(j, batch))
    ensures Inv(Next(y, Begin(j, batch)))
  {
    var z := Next(y, Begin(j, batch));
    forall i | i in z.jobs ensures JobOk(z, i) { if i != j { assert JobOk(y, i); } }
    forall i | i in y.jobs ensures y.jobs[i].barrier.done != y.nextChannel { assert JobOk(y, i); }
  }

  lemma ValidateKeeps(y: System, j: nat)
    requires Inv(y) && j in y.jobs
    ensures Inv(Next(y, Validate(j)))
  {
    var z := Next(y, Validate(j));
    forall i | i in z.jobs ensures JobOk(z, i) { assert JobOk(y, i); }
  }

  lemma UnregisterKeeps(y: System, j: nat)
    requires Inv(y) && Enabled(y, Unregister(j))
    ensures Inv(Next(y, Unregister(j)))
  {
    var z := Next(y, Unregister(j));
    forall i | i in z.jobs ensures JobOk(z, i) { assert JobOk(y, i); }
  }

  lemma ResumeKeeps(y: System)
    requires Inv(y) && Enabled(y, ResetResume)
    ensures Inv(Next(y, ResetResume))
  {
    var z := Next(y, ResetResume);
    forall i | i in z.jobs ensures JobOk(z, i) { assert JobOk(y, i); }
  }

  lemma ReturnKeeps(y: System)
    requires Inv(y) && Enabled(y, ResetReturn)
    ensures Inv(Next(y, ResetReturn))
  {
    var z := Next(y, ResetReturn);
    forall i | i in z.jobs ensures JobOk(z, i) { assert JobOk(y, i); }
  }

  lemma StepKeeps(y: System, st: Step)
    requires Inv(y) && Enabled(y, st)
    ensures Inv(Next(y, st))
  {
    match st
    case Begin(j, batch) => BeginKeeps(y, j, batch);
    case Validate(j) => ValidateKeeps(y, j);
    case TryBeginCommit(j) => assert JobOk(y, j); BarrierStepKeeps(y, j, TryBegin(y.jobs[j].barrier, y.epoch));
    case EndCommit(j) => EndKeeps(y, j);
    case CloseJob(j) => assert JobOk(y, j); BarrierStepKeeps(y, j, Close(y.jobs[j].barrier));
    case CancelJob(j) => assert JobOk(y, j); BarrierStepKeeps(y, j, y.jobs[j].barrier.(cancelled := true));
    case ResetBegin => ResetBeginKeeps(y);
    case ResetAbort(j) => ResetAbortKeeps(y, j);
    case Unregister(j) => UnregisterKeeps(y, j);
    case ResetResume => ResumeKeeps(y);
    case ResetReturn => ReturnKeeps(y);
  }

  // ---------- runs ----------

  ghost predicate ValidRun(y: System, steps: seq<Step>)
    decreases |steps|
  {
    steps == [] || (Enabled(y, steps[0]) && ValidRun(Next(y, steps[0]), steps[1..]))
  }

  ghost function Run(y: System, steps: seq<Step>): System
    requires ValidRun(y, steps)
    decreases |steps|
  {
    if steps == [] then y else Run(Next(y, steps[0]), steps[1..])
  }

  lemma {:induction false} RunKeeps(y: System, steps: seq<Step>)
    requires Inv(y) && ValidRun(y, steps)
    ensures Inv(Run(y, steps))
    decreases |steps|
  {
    if steps != [] {
      StepKeeps(y, steps[0]);
      RunKeeps(Next(y, steps[0]), steps[1..]);
    }
  }

  /** In every run, a barrier of an earlier epoch that is writing is one the reset in progress is still to wait for;
      so none is writing once ResetSession has returned. */
  lemma NoStaleWriterAfterReset(steps: seq<Step>, j: nat)
    requires ValidRun(Init, steps) && j in Run(Init, steps).jobs
    ensures var y := Run(Init, steps);
      y.jobs[j].barrier.epoch < y.epoch && !Terminated(y.jobs[j].barrier) ==> y.reset.Some? && Owns(y.reset.value, j)
    ensures var y := Run(Init, steps);
      y.reset.None? && y.jobs[j].barrier.epoch < y.epoch ==> Terminated(y.jobs[j].barrier)
  {
    RunKeeps(Init, steps);
    assert JobOk(Run(Init, steps), j);
  }

  predicate StartsWriting(y: System, j: nat) {
    && Enabled(y, TryBeginCommit(j)) && y.jobs[j].barrier.state != Writing
    && Next(y, TryBeginCommit(j)).jobs[j].barrier.state == Writing
  }

  /** In every run, a batch that is writing was enqueued in the epoch of its barrier, and that epoch is the present one
      or one that a reset in progress is ending, which still has to wait for this very batch.  It starts to write only
      in its own epoch; so no batch ever writes after the end of the epoch in which it was enqueued. */
  lemma WritesOnlyInOwnEpoch(steps: seq<Step>, j: nat)
    requires ValidRun(Init, steps) && j in Run(Init, steps).jobs
    ensures var y := Run(Init, steps);
      var job := y.jobs[j];
      && (job.barrier.state == Writing ==>
            && job.batch == job.barrier.epoch
            && (job.batch == y.epoch || (y.reset.Some? && Owns(y.reset.value, j))))
      && (StartsWriting(y, j) ==> job.batch == y.epoch)
  {
    RunKeeps(Init, steps);
    assert JobOk(Run(Init, steps), j);
  }

  /** Termination is for ever. */
  lemma {:induction false} TerminatedStays(y: System, steps: seq<Step>, j: nat)
    requires ValidRun(y, steps) && j in y.jobs && Terminated(y.jobs[j].barrier)
    ensures var z := Run(y, steps); j in z.jobs && Terminated(z.jobs[j].barrier)
    decreases |steps|
  {
    if steps != [] { TerminatedStays(Next(y, steps[0]), steps[1..], j); }
  }

  /** Whoever waits in AbortAndWait waits on the channel that the present writer will close, however many commits
      the barrier has been through; and when the wait is over the barrier is finished for good. */
  lemma WaitsOnTheRightChannel(steps: seq<Step>)
    requires ValidRun(Init, steps)
    requires var y := Run(Init, steps); y.reset.Some? && y.reset.value.waiting.Some?
    ensures var y := Run(Init, steps);
      var (j, ch) := y.reset.value.waiting.value;
      && j in y.jobs
      && (ch !in y.closed ==>
            && y.jobs[j].barrier.state == Writing && y.jobs[j].barrier.done == ch
            && ch in Next(y, EndCommit(j)).closed)
      && (ch in y.closed ==> Terminated(y.jobs[j].barrier))
  {
    RunKeeps(Init, steps);
    var y := Run(Init, steps);
    assert Owns(y.reset.value, y.reset.value.waiting.value.0);
    assert JobOk(y, y.reset.value.waiting.value.0);
  }

  predicate ResetStep(st: Step) { st.ResetAbort? || st.ResetResume? || st.ResetReturn? }

  /** A reset leaves the extractions of the new epoch alone. */
  lemma ResetSparesNewEpoch(steps: seq<Step>, st: Step, j: nat)
    requires ValidRun(Init, steps) && ResetStep(st) && Enabled(Run(Init, steps), st)
    requires j in Run(Init, steps).jobs && Run(Init, steps).jobs[j].barrier.epoch == Run(Init, steps).epoch
    ensures var y := Run(Init, steps);
            Next(y, st).jobs[j] == y.jobs[j] && (j in y.registered ==> j in Next(y, st).registered)
  {
    RunKeeps(Init, steps);
    var y := Run(Init, steps);
    if st.ResetAbort? { assert Owns(y.reset.value, st.j); }
  }
}
