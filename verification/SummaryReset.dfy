/** A group summary on its way to the session and to the durable store, against ResetSession.  The compaction pipeline
    is internal/llm/group_compactor.go (snapshot, store generation, model call, commit, queued persistence); the reset
    is ResetSession of internal/llm/session.go followed by the store's Delete.  The compactor names the session by its
    owner and the reset by its conversation; both reach the same cell of the store (SummaryStore.UpsertRefinesCell,
    DeleteRefinesCell). */
module SummaryReset {
  import opened Text
  import opened GroupBuffer
  import opened SummaryStore
  import Runs = CompactionRuns

  /** A summary text on its way to the store, with the epoch it was prepared for.  origin counts the resets that had
      begun when the snapshot behind the text was taken. */
  datatype Pending = Pending(text: string, storeGeneration: nat, origin: nat)

  /** What RollbackPersistence was handed: the running summary as its caller read it. */
  datatype Read = Read(text: string, origin: nat)

  datatype System = System(
    database: bool,
    core: Runs.System, flightOrigin: nat, flightStore: Option<nat>, summaryOrigin: nat, previousOrigin: nat,
    cell: Cell, recordOrigin: nat,
    toQueue: Option<Pending>, pending: Option<Pending>, worker: Option<Pending>,
    resets: nat, resetting: bool, completed: nat, read: Option<Read>)

  datatype Step =
    | Core(e: Runs.Event)
    | Drop(seqno: nat, id: string)
    | Trigger(size: int)
    | CaptureStoreGeneration
    | Commit(text: string, saved: bool)
    | Queue
    | WorkerTake
    | WorkerUpsert(saved: bool)
    | ResetBegin
    | ResetDelete(saved: bool)
    | RollbackRead
    | RollbackRun(workerActive: bool, saved: bool)

  predicate Start(y: System) {
    && y.core == Runs.Init && y.flightStore.None?
    && y.toQueue.None? && y.pending.None? && y.worker.None? && y.read.None?
    && y.resets == 0 && y.completed == 0 && !y.resetting && y.recordOrigin == 0
  }

  predicate Enabled(y: System, st: Step) {
    match st
    case Core(e) => e.EAppend? || e.EPromote? || e.EDescribe? || e.EFail?
    case Drop(_, _) => true
    case Trigger(_) => y.core.flight.None? && y.toQueue.None?
    case CaptureStoreGeneration => y.core.flight.Some? && y.flightStore.None?
    case Commit(_, _) => y.core.flight.Some? && y.flightStore.Some?
    case Queue => y.toQueue.Some?
    case WorkerTake => y.pending.Some? && y.worker.None?
    case WorkerUpsert(_) => y.worker.Some?
    case ResetBegin => !y.resetting
    case ResetDelete(_) => y.resetting
    case RollbackRead => true
    case RollbackRun(_, _) => y.read.Some?
  }

  /** CommitGroupCompactWithPersistence; a SQL store writes inside it, a file store afterwards. */
  function DoCommit(y: System, text: string, saved: bool): System
    requires y.core.flight.Some? && y.flightStore.Some?
  {
    var ready := Committable(y.core.session, y.core.flight.value.snap, text);
    var expected := y.flightStore.value;
    var persisted := !y.database || (ready && CellOutcome(y.cell, TrimSpace(text), expected, saved) == Applied);
    var core := Runs.Next(y.core, Runs.ECommit(text, persisted));
    if ready && persisted then
      var z := y.(core := core, flightStore := None, previousOrigin := y.summaryOrigin,
                  summaryOrigin := y.flightOrigin);
      if y.database
      then z.(cell := CellUpsert(y.cell, TrimSpace(text), expected, saved), recordOrigin := y.flightOrigin)
      else z.(toQueue := Some(Pending(TrimSpace(text), expected, y.flightOrigin)))
    else y.(core := core, flightStore := None)
  }

  function DoRollback(y: System, workerActive: bool, saved: bool): System
    requires y.read.Some?
  {
    var text, origin, z := TrimSpace(y.read.value.text), y.read.value.origin, y.(read := None);
    var generation := y.cell.generation;
    var applied := CellOutcome(y.cell, text, generation, saved) == Applied;
    var written := z.(cell := CellUpsert(y.cell, text, generation, saved),
                      recordOrigin := if applied then origin else y.recordOrigin);
    if text == "" then z.(cell := CellDelete(y.cell, saved), pending := if y.database then y.pending else None)
    else if y.database then written
    else if workerActive || !applied then z.(pending := Some(Pending(text, generation, origin)))
    else written.(pending := None)
  }

  function Next(y: System, st: Step): System
    requires Enabled(y, st)
  {
    match st
    case Core(e) => y.(core := Runs.Next(y.core, e), flightStore := if e.EFail? then None else y.flightStore)
    case Drop(seqno, id) =>
      y.(core := Runs.Next(y.core, Runs.EDrop(seqno, id)),
         summaryOrigin := if Polluted(y.core.session, TrimSpace(id)) then y.previousOrigin else y.summaryOrigin)
    case Trigger(size) => y.(core := Runs.Next(y.core, Runs.ETrigger(size)), flightOrigin := y.resets,
                             flightStore := None)
    case CaptureStoreGeneration => y.(flightStore := Some(y.cell.generation))
    case Commit(text, saved) => DoCommit(y, text, saved)
    case Queue => y.(pending := y.toQueue, toQueue := None)
    case WorkerTake => y.(worker := y.pending)
    case WorkerUpsert(saved) =>
      var p := y.worker.value;
      var o := CellOutcome(y.cell, p.text, p.storeGeneration, saved);
      y.(cell := CellUpsert(y.cell, p.text, p.storeGeneration, saved),
         recordOrigin := if o == Applied then p.origin else y.recordOrigin,
         pending := if o != Failed && y.pending == Some(p) then None else y.pending, worker := None)
    case ResetBegin => y.(core := Runs.Next(y.core, Runs.EResetSession), resets := y.resets + 1, resetting := true)
    case ResetDelete(saved) =>
      y.(cell := CellDelete(y.cell, saved), resetting := false,
         completed := if CellDeletes(y.cell, saved) then y.resets else y.completed)
    case RollbackRead => y.(read := Some(Read(y.core.session.summary, y.summaryOrigin)))
    case RollbackRun(active, saved) => DoRollback(y, active, saved)
  }

  // ---------- invariants ----------

  /** A text that could still be written does not come from before a completed reset. */
  predicate PendingOk(y: System, p: Option<Pending>) {
    p.Some? ==>
      && p.value.storeGeneration <= y.cell.generation
      && (p.value.storeGeneration == y.cell.generation ==> p.value.origin >= y.completed)
  }

  ghost predicate Inv(y: System) {
    var s := y.core.session;
    && (y.core.flight.Some? ==> y.core.flight.value.snap.generation <= s.generation)
    && y.completed <= y.resets
    && (s.summary != "" ==> y.summaryOrigin == y.resets)
    && (s.prevSummary != "" ==> y.previousOrigin == y.resets)
    && (y.core.flight.Some? && y.core.flight.value.snap.generation == s.generation ==> y.flightOrigin == y.resets)
    && (y.core.flight.Some? && y.flightStore.Some? ==> y.flightStore.value <= y.cell.generation)
    && PendingOk(y, y.toQueue) && PendingOk(y, y.pending) && PendingOk(y, y.worker)
    && (y.cell.summary.Some? ==> y.recordOrigin >= y.completed)
  }

  lemma CommitKeeps(y: System, text: string, saved: bool)
    requires Inv(y) && Enabled(y, Commit(text, saved))
    ensures Inv(Next(y, Commit(text, saved)))
  {
    if !Committable(y.core.session, y.core.flight.value.snap, text) {
      FailedCommitKeeps(y, text, saved);
    } else if y.database {
      DatabaseCommitKeeps(y, text, saved);
    } else {
      FileCommitKeeps(y, text, saved);
    }
  }

  lemma FailedCommitKeeps(y: System, text: string, saved: bool)
    requires Inv(y) && Enabled(y, Commit(text, saved)) && !Committable(y.core.session, y.core.flight.value.snap, text)
    ensures Inv(Next(y, Commit(text, saved)))
  {
  }

  lemma FileCommitKeeps(y: System, text: string, saved: bool)
    requires Inv(y) && Enabled(y, Commit(text, saved)) && !y.database
    requires Committable(y.core.session, y.core.flight.value.snap, text)
    ensures Inv(Next(y, Commit(text, saved)))
  {
    var z, expected := Next(y, Commit(text, saved)), y.flightStore.value;
    assert z.toQueue == Some(Pending(TrimSpace(text), expected, y.flightOrigin));
  }

  lemma DatabaseCommitKeeps(y: System, text: string, saved: bool)
    requires Inv(y) && Enabled(y, Commit(text, saved)) && y.database
    requires Committable(y.core.session, y.core.flight.value.snap, text)
    ensures Inv(Next(y, Commit(text, saved)))
  {
    var z, expected := Next(y, Commit(text, saved)), y.flightStore.value;
    if CellOutcome(y.cell, TrimSpace(text), expected, saved) == Applied {
      assert z.recordOrigin == y.flightOrigin && expected == y.cell.generation;
    }
  }

  lemma StepKeeps(y: System, st: Step)
    requires Inv(y) && Enabled(y, st) && !st.RollbackRun?
    ensures Inv(Next(y, st))
  {
    match st
    case Core(e) => CoreKeeps(y, e);
    case Drop(seqno, id) => DropKeeps(y, seqno, id);
    case Trigger(size) => TriggerKeeps(y, size);
    case Commit(text, saved) => CommitKeeps(y, text, saved);
    case ResetBegin => ResetKeeps(y);
    case ResetDelete(saved) => ResetDeleteKeeps(y, saved);
    case WorkerUpsert(saved) => WorkerUpsertKeeps(y, saved);
    case _ => StoreKeeps(y, st);
  }

  lemma CoreKeeps(y: System, e: Runs.Event)
    requires Inv(y) && Enabled(y, Core(e))
    ensures Inv(Next(y, Core(e)))
  {
  }

  lemma DropKeeps(y: System, seqno: nat, id: string)
    requires Inv(y) && Enabled(y, Drop(seqno, id))
    ensures Inv(Next(y, Drop(seqno, id)))
  {
  }

  lemma TriggerKeeps(y: System, size: int)
    requires Inv(y) && Enabled(y, Trigger(size))
    ensures Inv(Next(y, Trigger(size)))
  {
  }

  lemma ResetKeeps(y: System)
    requires Inv(y) && Enabled(y, ResetBegin)
    ensures Inv(Next(y, ResetBegin))
  {
  }

  lemma ResetDeleteKeeps(y: System, saved: bool)
    requires Inv(y) && Enabled(y, ResetDelete(saved))
    ensures Inv(Next(y, ResetDelete(saved)))
  {
  }

  lemma WorkerUpsertKeeps(y: System, saved: bool)
    requires Inv(y) && Enabled(y, WorkerUpsert(saved))
    ensures Inv(Next(y, WorkerUpsert(saved)))
  {
  }

  /** Steps that leave session and store alone. */
  lemma StoreKeeps(y: System, st: Step)
    requires Inv(y) && Enabled(y, st)
    requires !st.Core? && !st.Drop? && !st.Trigger? && !st.Commit? && !st.ResetBegin? && !st.RollbackRun?
    requires !st.ResetDelete? && !st.WorkerUpsert?
    ensures Inv(Next(y, st))
  {
  }

  /** A roll-back with an up-to-date or empty text, or whose write fails in a SQL store, is like any other step. */
  lemma RollbackKeeps(y: System, active: bool, saved: bool)
    requires Inv(y) && y.read.Some?
    requires TrimSpace(y.read.value.text) == "" || y.read.value.origin >= y.completed ||
             (y.database && (y.cell.blocked || !saved))
    ensures Inv(Next(y, RollbackRun(active, saved)))
  {
    TrimTwice(y.read.value.text);
    var text := TrimSpace(y.read.value.text);
    if text == "" {
      EmptyRollbackKeeps(y, active, saved);
    } else if y.database {
      SqlRollbackKeeps(y, text, active, saved);
    } else {
      FileRollbackKeeps(y, text, active, saved);
    }
  }

  lemma EmptyRollbackKeeps(y: System, active: bool, saved: bool)
    requires Inv(y) && y.read.Some? && TrimSpace(y.read.value.text) == ""
    ensures Inv(Next(y, RollbackRun(active, saved)))
  {
  }

  lemma SqlRollbackKeeps(y: System, text: string, active: bool, saved: bool)
    requires Inv(y) && y.read.Some? && text == TrimSpace(y.read.value.text) == TrimSpace(text) && text != "" &&
             y.database
    requires y.read.value.origin >= y.completed || y.cell.blocked || !saved
    ensures Inv(Next(y, RollbackRun(active, saved)))
  {
  }

  lemma FileRollbackKeeps(y: System, text: string, active: bool, saved: bool)
    requires Inv(y) && y.read.Some? && text == TrimSpace(y.read.value.text) == TrimSpace(text) && text != "" &&
             !y.database
    requires y.read.value.origin >= y.completed
    ensures Inv(Next(y, RollbackRun(active, saved)))
  {
  }

  // ---------- runs ----------

  /** No roll-back runs with a summary read before a reset that has since completed. */
  predicate FreshRollback(y: System, st: Step) {
    st.RollbackRun? && y.read.Some? ==> TrimSpace(y.read.value.text) == "" || y.read.value.origin >= y.completed
  }

  ghost predicate ValidRun(y: System, steps: seq<Step>)
    decreases |steps|
  {
    steps == [] || (Enabled(y, steps[0]) && FreshRollback(y, steps[0]) && ValidRun(Next(y, steps[0]), steps[1..]))
  }

  ghost function Run(y: System, steps: seq<Step>): System
    requires ValidRun(y, steps)
    decreases |steps|
  {
    if steps == [] then y else Run(Next(y, steps[0]), steps[1..])
  }

  lemma {:induction false} RunKeeps(y: System, steps: seq<Step>)
    requires Inv(y) && ValidRun(y, steps)
    ensures Inv(Run(y, steps))
    decreases |steps|
  {
    if steps != [] {
      if steps[0].RollbackRun? {
        RollbackKeeps(y, steps[0].workerActive, steps[0].saved);
      } else {
        StepKeeps(y, steps[0]);
      }
      RunKeeps(Next(y, steps[0]), steps[1..]);
    }
  }

  /** Neither the running summary nor what the store holds comes from a snapshot older than the last reset whose
      deletion succeeded. */
  predicate Promise(y: System) {
    && (y.core.session.summary != "" ==> y.summaryOrigin >= y.completed)
    && (y.cell.summary.Some? ==> y.recordOrigin >= y.completed)
  }

  /** In every such run, neither the running summary nor what the store holds for the session comes from a snapshot
      older than the last reset whose deletion succeeded. */
  lemma NoSummaryFromBeforeReset(start: System, steps: seq<Step>)
    requires Start(start) && ValidRun(start, steps)
    ensures Promise(Run(start, steps))
  {
    RunKeeps(start, steps);
  }

  // ---------- exactly when a roll-back keeps the promise ----------

  /** The promise holds now and in every continuation in which no further stale roll-back runs. */
  ghost predicate KeptForGood(y: System) { forall steps :: ValidRun(y, steps) ==> Promise(Run(y, steps)) }

  /** The store refuses every write, the text is empty or not older than the last completed reset, or the one write
      that a SQL store makes fails. */
  predicate HarmlessRollback(y: System, saved: bool)
    requires y.read.Some?
  {
    || TrimSpace(y.read.value.text) == "" || y.read.value.origin >= y.completed
    || y.cell.blocked || (y.database && !saved)
  }

  /** A store that cannot be written to keeps what it has. */
  ghost predicate BlockedInv(y: System) {
    && y.cell.blocked && y.completed <= y.resets
    && (y.core.session.summary != "" ==> y.summaryOrigin == y.resets)
    && (y.core.session.prevSummary != "" ==> y.previousOrigin == y.resets)
    && (y.core.flight.Some? ==> y.core.flight.value.snap.generation <= y.core.session.generation)
    && (y.core.flight.Some? && y.core.flight.value.snap.generation == y.core.session.generation ==>
          y.flightOrigin == y.resets)
    && (y.cell.summary.Some? ==> y.recordOrigin >= y.completed)
  }

  lemma BlockedStepKeeps(y: System, st: Step)
    requires BlockedInv(y) && Enabled(y, st)
    ensures BlockedInv(Next(y, st))
  {
    match st
    case Commit(text, saved) => BlockedCommitKeeps(y, text, saved);
    case RollbackRun(active, saved) => BlockedRollbackKeeps(y, active, saved);
    case _ =>
  }

  lemma BlockedCommitKeeps(y: System, text: string, saved: bool)
    requires BlockedInv(y) && Enabled(y, Commit(text, saved))
    ensures BlockedInv(Next(y, Commit(text, saved)))
  {
  }

  lemma BlockedRollbackKeeps(y: System, active: bool, saved: bool)
    requires BlockedInv(y) && y.read.Some?
    ensures BlockedInv(Next(y, RollbackRun(active, saved)))
  {
  }

  lemma {:induction false} BlockedRunKeeps(y: System, steps: seq<Step>)
    requires BlockedInv(y) && ValidRun(y, steps)
    ensures Promise(Run(y, steps))
    decreases |steps|
  {
    if steps != [] {
      BlockedStepKeeps(y, steps[0]);
      BlockedRunKeeps(Next(y, steps[0]), steps[1..]);
    }
  }

  lemma HarmlessIsKept(y: System, active: bool, saved: bool)
    requires Inv(y) && y.read.Some? && HarmlessRollback(y, saved)
    ensures KeptForGood(Next(y, RollbackRun(active, saved)))
  {
    var z := Next(y, RollbackRun(active, saved));
    if y.cell.blocked {
      assert BlockedInv(y);
      BlockedStepKeeps(y, RollbackRun(active, saved));
      forall steps | ValidRun(z, steps) ensures Promise(Run(z, steps)) { BlockedRunKeeps(z, steps); }
    } else {
      RollbackKeeps(y, active, saved);
      forall steps | ValidRun(z, steps) ensures Promise(Run(z, steps)) { RunKeeps(z, steps); }
    }
  }

  lemma Nothing(y: System)
    ensures ValidRun(y, []) && Run(y, []) == y
  {
  }

  lemma Cons(y: System, st: Step, rest: seq<Step>)
    requires Enabled(y, st) && FreshRollback(y, st) && ValidRun(Next(y, st), rest)
    ensures ValidRun(y, [st] + rest) && Run(y, [st] + rest) == Run(Next(y, st), rest)
  {
    assert ([st] + rest)[1..] == rest;
  }

  /** A stale text that waits for the worker is stored sooner or later. */
  lemma PendingIsStored(z: System) returns (steps: seq<Step>)
    requires z.pending.Some? && !z.cell.blocked && TrimSpace(z.pending.value.text) != ""
    requires z.pending.value.storeGeneration == z.cell.generation && z.pending.value.origin < z.completed
    ensures ValidRun(z, steps) && !Promise(Run(z, steps))
  {
    var idle := if z.worker.Some? then Next(z, WorkerUpsert(false)) else z;
    var taken := Next(idle, WorkerTake);
    var stored := Next(taken, WorkerUpsert(true));
    Nothing(stored);
    Cons(taken, WorkerUpsert(true), []);
    Cons(idle, WorkerTake, [WorkerUpsert(true)] + []);
    steps := [WorkerTake] + ([WorkerUpsert(true)] + []);
    if z.worker.Some? {
      Cons(z, WorkerUpsert(false), steps);
      steps := [WorkerUpsert(false)] + steps;
    }
  }

  lemma StaleIsNotKept(y: System, active: bool, saved: bool)
    requires Inv(y) && y.read.Some? && !HarmlessRollback(y, saved)
    ensures !KeptForGood(Next(y, RollbackRun(active, saved)))
  {
    TrimTwice(y.read.value.text);
    var z := Next(y, RollbackRun(active, saved));
    if y.database || (!active && saved) {
      Nothing(z);
      assert !Promise(Run(z, []));
    } else {
      var steps := PendingIsStored(z);
      assert !Promise(Run(z, steps));
    }
  }

  /** After a roll-back the promise holds for good if and only if the roll-back is harmless.  RollbackPersistence
      writes, or leaves to be written, under the store's present generation, whatever has happened since its caller
      read. */
  lemma RollbackKeepsExactly(start: System, steps: seq<Step>, active: bool, saved: bool)
    requires Start(start) && ValidRun(start, steps) && Run(start, steps).read.Some?
    ensures var y := Run(start, steps);
      KeptForGood(Next(y, RollbackRun(active, saved))) <==> HarmlessRollback(y, saved)
  {
    RunKeeps(start, steps);
    var y := Run(start, steps);
    if HarmlessRollback(y, saved) {
      HarmlessIsKept(y, active, saved);
    } else {
      StaleIsNotKept(y, active, saved);
    }
  }

  /** The condition cannot be dropped: a roll-back that read the summary before a reset restores it to the store
      after the reset has deleted it, since it asks for the store's generation only when it writes. */
  lemma StaleRollbackRestores(y: System)
    requires Inv(y) && !y.database && !y.cell.blocked && !y.resetting && y.core.session.summary != ""
    requires Trimmed(y.core.session.summary)
    ensures var z := Next(Next(Next(Next(y, RollbackRead), ResetBegin), ResetDelete(true)), RollbackRun(false, true));
      && z.completed == y.resets + 1 && z.recordOrigin == y.resets && z.cell.summary == Some(y.core.session.summary)
  {
    TrimSpaceShape(y.core.session.summary);
  }
}
