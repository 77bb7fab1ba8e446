/** Distillation of committed batches into group memory, against concurrent drops and resets
    (groupDistillationBarrier, BeginGroupDistillation, DropGroupCompactSlotChecked and the two resets of
    internal/llm/session.go).  Every step is one section under the session mutex or under one barrier's mutex. */
module Distillation {
  import opened Text
  import opened GroupBuffer
  import Runs = CompactionRuns

  datatype BarrierState = Pending | Writing | Done | Aborted

  /** through and ids identify the snapshot being distilled. */
  datatype Barrier = Barrier(through: nat, ids: seq<string>, state: BarrierState, aborted: bool, cancelled: bool)

  // ---------- the barrier's own sections ----------

  predicate Live(b: Barrier) { b.state in {Pending, Writing} }

  function TryBegin(b: Barrier): Barrier {
    if b.state != Pending then b
    else if b.aborted || b.cancelled then b.(state := Aborted)
    else b.(state := Writing)
  }

  function End(b: Barrier): Barrier {
    match b.state
    case Writing => b.(state := if b.aborted || b.cancelled then Aborted else Done)
    case Pending => b.(state := Done)
    case _ => b
  }

  /** The locked part of AbortAndWait; the caller then waits if the barrier is being written through. */
  function Abort(b: Barrier): Barrier {
    var c := b.(aborted := true, cancelled := true);
    if b.state == Writing then c else c.(state := Aborted)
  }

  // ---------- calls in progress ----------

  /** A drop of one message ID (made when `horizon` messages had been accepted) or, without one, a reset. */
  datatype Dropped = Dropped(id: string, horizon: nat)
  datatype Call = Call(drop: Option<Dropped>, todo: set<nat>, waiting: Option<nat>)

  predicate Owns(c: Call, b: nat) { b in c.todo || c.waiting == Some(b) }

  predicate Returned(c: Call) { c.todo == {} && c.waiting.None? }

  datatype System = System(core: Runs.System, barriers: map<nat, Barrier>, registered: set<nat>, calls: map<nat, Call>)

  const Init := System(Runs.Init, map[], {}, map[])

  datatype Step =
    | Core(e: Runs.Event)
    | DropMessage(call: nat, seqno: nat, id: string)
    | Reset(call: nat, compactionOnly: bool)
    | Begin(b: nat, through: nat, ids: seq<string>)
    | TryBeginCommit(b: nat)
    | EndCommit(b: nat)
    | Cancel(b: nat)
    | Unregister(b: nat)
    | AbortAndWait(call: nat, b: nat)
    | Resume(call: nat)

  /** BeginGroupDistillation's test of the snapshot against what the session still vouches for. */
  predicate Vouched(s: Session, through: nat, ids: seq<string>) {
    && through in s.sources
    && (s.sources[through] != [] && ids != [] ==> s.sources[through][0] == ids[0])
    && forall i :: 0 <= i < |ids| ==> ids[i] !in s.revoked
  }

  predicate Enabled(y: System, st: Step) {
    match st
    case Core(e) => (e.EDrop? ==> TrimSpace(e.id) == "") && !e.EResetSession? && !e.EResetCompaction?
    case DropMessage(call, _, id) => call !in y.calls && TrimSpace(id) != ""
    case Reset(call, _) => call !in y.calls
    case Begin(b, _, _) => b !in y.barriers
    case TryBeginCommit(b) => b in y.barriers
    case EndCommit(b) => b in y.barriers
    case Cancel(b) => b in y.barriers
    case Unregister(b) => b in y.barriers && !Live(y.barriers[b])
    case AbortAndWait(call, b) => call in y.calls && b in y.calls[call].todo && b in y.barriers &&
        y.calls[call].waiting.None?
    case Resume(call) => call in y.calls && y.calls[call].waiting.Some? && y.calls[call].waiting.value in y.barriers &&
                         y.barriers[y.calls[call].waiting.value].state != Writing
  }

  function Holders(y: System, id: string): set<nat> {
    set b | b in y.registered && b in y.barriers && id in y.barriers[b].ids
  }

  function Next(y: System, st: Step): System
    requires Enabled(y, st)
  {
    match st
    case Core(e) => y.(core := Runs.Next(y.core, e))
    case DropMessage(call, seqno, id) =>
      y.(core := Runs.Next(y.core, Runs.EDrop(seqno, id)),
         calls := y.calls[call := Call(Some(Dropped(TrimSpace(id), y.core.session.lastSeq)), Holders(y, TrimSpace(id)),
                                       None)])
    case Reset(call, compactionOnly) =>
      y.(core := Runs.Next(y.core, if compactionOnly then Runs.EResetCompaction else Runs.EResetSession),
         registered := {}, calls := y.calls[call := Call(None, y.registered, None)])
    case Begin(b, through, ids) =>
      if Vouched(y.core.session, through, ids)
      then y.(barriers := y.barriers[b := Barrier(through, ids, Pending, false, false)],
              registered := y.registered + {b})
      else y.(barriers := y.barriers[b := Barrier(through, ids, Aborted, true, true)])
    case TryBeginCommit(b) => y.(barriers := y.barriers[b := TryBegin(y.barriers[b])])
    case EndCommit(b) => y.(barriers := y.barriers[b := End(y.barriers[b])])
    case Cancel(b) => y.(barriers := y.barriers[b := y.barriers[b].(cancelled := true)])
    case Unregister(b) =>
      var s := y.core.session;
      y.(registered := y.registered - {b},
         core := y.core.(session := s.(sources := s.sources - {y.barriers[b].through})))
    case AbortAndWait(call, b) =>
      var c := y.calls[call];
      var waiting := if y.barriers[b].state == Writing then Some(b) else None;
      y.(barriers := y.barriers[b := Abort(y.barriers[b])],
         calls := y.calls[call := c.(todo := c.todo - {b}, waiting := waiting)])
    case Resume(call) => y.(calls := y.calls[call := y.calls[call].(waiting := None)])
  }

  // ---------- invariants ----------

  predicate Matches(d: Dropped, b: Barrier) { b.through <= d.horizon && d.id in b.ids }

  ghost predicate OwnedByReset(y: System, b: nat) {
    exists r :: r in y.calls && y.calls[r].drop.None? && Owns(y.calls[r], b)
  }

  /** A barrier that may still write is registered, or a reset that unregistered it is about to abort it. */
  ghost predicate LiveIsTracked(y: System) {
    forall b :: b in y.barriers && Live(y.barriers[b]) ==> b in y.registered || OwnedByReset(y, b)
  }

  /** The session never again vouches for a snapshot from before the drop that holds the message. */
  ghost predicate Unvouched(y: Runs.System, d: Dropped) {
    var s := y.session;
    && d.horizon <= s.lastSeq
    && (d.id in s.revoked ||
        ((forall k :: k in s.sources ==> k > d.horizon) && (forall it :: it in s.buffer ==> it.seqno > d.horizon) &&
         (y.flight.Some? && y.flight.value.snap.generation == s.generation ==>
          y.flight.value.snap.through > d.horizon)))
  }

  ghost predicate DropCovers(y: System, call: nat)
    requires call in y.calls && y.calls[call].drop.Some?
  {
    var c := y.calls[call];
    && Unvouched(y.core, c.drop.value)
    && (forall b :: b in y.barriers && Matches(c.drop.value, y.barriers[b]) && Live(y.barriers[b]) ==>
        Owns(c, b) || OwnedByReset(y, b))
    && (forall b :: Owns(c, b) ==> b in y.barriers && c.drop.value.id in y.barriers[b].ids)
  }

  /** Whoever waits on a barrier has marked it, so the writer's EndCommit leaves it aborted. */
  ghost predicate WaitersMarked(y: System) {
    forall c :: c in y.calls ==>
      (y.calls[c].waiting.Some? ==>
        && y.calls[c].waiting.value in y.barriers
        && var b := y.barriers[y.calls[c].waiting.value]; b.aborted && b.state in {Writing, Aborted})
  }

  ghost predicate Inv(y: System) {
    && Runs.Inv(y.core)
    && y.registered <= y.barriers.Keys
    && LiveIsTracked(y) && WaitersMarked(y)
    && forall c :: c in y.calls && y.calls[c].drop.Some? ==> DropCovers(y, c)
  }

  lemma CoreKeepsUnvouched(y: Runs.System, e: Runs.Event, d: Dropped)
    requires Runs.Inv(y) && Unvouched(y, d)
    ensures Unvouched(Runs.Next(y, e), d)
  {
    match e
    case EAppend(m, staged, max) => if !Blank(m.content) { Runs.AppendShape(y.session, m, staged, max); }
    case EPromote(seqno, id) => SameNumbers(y.session.buffer, Runs.Next(y, e).session.buffer, d.horizon);
    case EDescribe(seqno, text) => SameNumbers(y.session.buffer, Runs.Next(y, e).session.buffer, d.horizon);
    case EDrop(seqno, id) => WithoutShape(y.session.buffer, seqno, TrimSpace(id));
    case ETrigger(size) => EligiblePrefix(y.session.buffer);
    case ECommit(text, persisted) => if y.flight.Some? { AfterShape(y.session.buffer, y.flight.value.snap.through); }
    case EFail =>
    case EResetSession =>
    case EResetCompaction =>
  }

  lemma SameNumbers(a: seq<Item>, b: seq<Item>, horizon: nat)
    requires |a| == |b| && forall i :: 0 <= i < |a| ==> b[i].seqno == a[i].seqno
    ensures (forall it :: it in a ==> it.seqno > horizon) ==> forall it :: it in b ==> it.seqno > horizon
  {
    if forall it :: it in a ==> it.seqno > horizon {
      forall it | it in b ensures it.seqno > horizon {
        var i :| 0 <= i < |b| && b[i] == it;
        assert a[i] in a;
      }
    }
  }

  lemma CoreEventKeeps(y: System, z: System, e: Runs.Event)
    requires Inv(y) && z == y.(core := Runs.Next(y.core, e))
    ensures Inv(z)
  {
    Runs.StepKeeps(y.core, e);
    forall c | c in z.calls && z.calls[c].drop.Some? ensures DropCovers(z, c) {
      assert DropCovers(y, c);
      CoreKeepsUnvouched(y.core, e, y.calls[c].drop.value);
      assert forall b :: OwnedByReset(y, b) ==> OwnedByReset(z, b);
    }
    assert forall b :: OwnedByReset(y, b) ==> OwnedByReset(z, b);
  }

  lemma DropMessageKeeps(y: System, call: nat, seqno: nat, id: string)
    requires Inv(y) && Enabled(y, DropMessage(call, seqno, id))
    ensures Inv(Next(y, DropMessage(call, seqno, id)))
  {
    var e := Runs.EDrop(seqno, id);
    var mid := y.(core := Runs.Next(y.core, e));
    CoreEventKeeps(y, mid, e);
    var z := Next(y, DropMessage(call, seqno, id));
    forall b | OwnedByReset(mid, b) ensures OwnedByReset(z, b) {
      var r :| r in mid.calls && mid.calls[r].drop.None? && Owns(mid.calls[r], b);
      assert z.calls[r] == mid.calls[r];
    }
    forall c | c in z.calls && z.calls[c].drop.Some? ensures DropCovers(z, c) {
      if c != call { assert DropCovers(mid, c); }
    }
  }

  lemma ResetKeeps(y: System, call: nat, compactionOnly: bool)
    requires Inv(y) && Enabled(y, Reset(call, compactionOnly))
    ensures Inv(Next(y, Reset(call, compactionOnly)))
  {
    var e := if compactionOnly then Runs.EResetCompaction else Runs.EResetSession;
    var mid := y.(core := Runs.Next(y.core, e));
    CoreEventKeeps(y, mid, e);
    var z := Next(y, Reset(call, compactionOnly));
    forall b | OwnedByReset(mid, b) || b in mid.registered ensures OwnedByReset(z, b) {
      if b in mid.registered {
        assert Owns(z.calls[call], b);
      } else {
        var r :| r in mid.calls && mid.calls[r].drop.None? && Owns(mid.calls[r], b);
        assert z.calls[r] == mid.calls[r];
      }
    }
    forall c | c in z.calls && z.calls[c].drop.Some? ensures DropCovers(z, c) { assert DropCovers(mid, c); }
  }

  /** Steps of one barrier that never revive it. */
  lemma BarrierStepKeeps(y: System, b: nat, next: Barrier)
    requires Inv(y) && b in y.barriers
    requires next.through == y.barriers[b].through && next.ids == y.barriers[b].ids
    requires Live(next) ==> Live(y.barriers[b])
    requires y.barriers[b].aborted ==>
               next.aborted && (y.barriers[b].state in {Writing, Aborted} ==> next.state in {Writing, Aborted})
    ensures Inv(y.(barriers := y.barriers[b := next]))
  {
    var z := y.(barriers := y.barriers[b := next]);
    assert forall n :: OwnedByReset(y, n) ==> OwnedByReset(z, n);
    forall c | c in z.calls && z.calls[c].drop.Some? ensures DropCovers(z, c) { assert DropCovers(y, c); }
  }

  lemma BeginKeeps(y: System, b: nat, through: nat, ids: seq<string>)
    requires Inv(y) && Enabled(y, Begin(b, through, ids))
    ensures Inv(Next(y, Begin(b, through, ids)))
  {
    var z := Next(y, Begin(b, through, ids));
    assert forall n :: OwnedByReset(y, n) ==> OwnedByReset(z, n);
    forall c | c in z.calls && z.calls[c].drop.Some? ensures DropCovers(z, c) { assert DropCovers(y, c); }
  }

  lemma UnregisterKeeps(y: System, b: nat)
    requires Inv(y) && Enabled(y, Unregister(b))
    ensures Inv(Next(y, Unregister(b)))
  {
    var z := Next(y, Unregister(b));
    assert forall n :: OwnedByReset(y, n) ==> OwnedByReset(z, n);
    forall c | c in z.calls && z.calls[c].drop.Some? ensures DropCovers(z, c) { assert DropCovers(y, c); }
  }

  lemma AbortKeeps(y: System, call: nat, b: nat)
    requires Inv(y) && Enabled(y, AbortAndWait(call, b))
    ensures Inv(Next(y, AbortAndWait(call, b)))
  {
    var mid := y.(barriers := y.barriers[b := Abort(y.barriers[b])]);
    BarrierStepKeeps(y, b, Abort(y.barriers[b]));
    var z := Next(y, AbortAndWait(call, b));
    CallStepKeeps(mid, z, call, b);
  }

  /** A call may let go of a barrier that is no longer live, or go from intending to abort it to waiting for it. */
  lemma CallStepKeeps(y: System, z: System, call: nat, b: nat)
    requires Inv(y) && call in y.calls && b in y.barriers
    requires call in z.calls && z == y.(calls := y.calls[call := z.calls[call]]) &&
             z.calls[call].drop == y.calls[call].drop
    requires forall n :: Owns(z.calls[call], n) ==> Owns(y.calls[call], n)
    requires forall n :: Owns(y.calls[call], n) && !Owns(z.calls[call], n) ==> n == b
    requires !Owns(z.calls[call], b) ==> !Live(y.barriers[b])
    requires z.calls[call].waiting.Some? ==>
               z.calls[call].waiting == Some(b) && y.barriers[b].aborted && y.barriers[b].state in {Writing, Aborted}
    ensures Inv(z)
  {
    forall n | OwnedByReset(y, n) && n in y.barriers && Live(y.barriers[n]) ensures OwnedByReset(z, n) {
      var r :| r in y.calls && y.calls[r].drop.None? && Owns(y.calls[r], n);
      if r == call { assert Owns(z.calls[call], n); } else { assert z.calls[r] == y.calls[r]; }
    }
    forall c | c in z.calls && z.calls[c].drop.Some? ensures DropCovers(z, c) { assert DropCovers(y, c); }
  }

  lemma StepKeeps(y: System, st: Step)
    requires Inv(y) && Enabled(y, st)
    ensures Inv(Next(y, st))
  {
    match st
    case Core(e) => CoreEventKeeps(y, Next(y, st), e);
    case DropMessage(call, seqno, id) => DropMessageKeeps(y, call, seqno, id);
    case Reset(call, compactionOnly) => ResetKeeps(y, call, compactionOnly);
    case Begin(b, through, ids) => BeginKeeps(y, b, through, ids);
    case TryBeginCommit(b) => BarrierStepKeeps(y, b, TryBegin(y.barriers[b]));
    case EndCommit(b) => BarrierStepKeeps(y, b, End(y.barriers[b]));
    case Cancel(b) => BarrierStepKeeps(y, b, y.barriers[b].(cancelled := true));
    case Unregister(b) => UnregisterKeeps(y, b);
    case AbortAndWait(call, b) => AbortKeeps(y, call, b);
    case Resume(call) => CallStepKeeps(y, Next(y, st), call, y.calls[call].waiting.value);
  }

  // ---------- runs ----------

  ghost predicate ValidRun(y: System, steps: seq<Step>)
    decreases |steps|
  {
    steps == [] || (Enabled(y, steps[0]) && ValidRun(Next(y, steps[0]), steps[1..]))
  }

  ghost function Run(y: System, steps: seq<Step>): System
    requires ValidRun(y, steps)
    decreases |steps|
  {
    if steps == [] then y else Run(Next(y, steps[0]), steps[1..])
  }

  lemma {:induction false} RunKeeps(y: System, steps: seq<Step>)
    requires Inv(y) && ValidRun(y, steps)
    ensures Inv(Run(y, steps))
    decreases |steps|
  {
    if steps != [] {
      StepKeeps(y, steps[0]);
      RunKeeps(Next(y, steps[0]), steps[1..]);
    }
  }

  // ---------- exactly when a drop stops every distillation of its message ----------

  /** At the drop's own section: every distillation of the message that may still write is registered, so that no reset
      has taken it off the register without having aborted it yet. */
  predicate AllRegistered(y: System, id: string) {
    forall b <- y.barriers ::
      Live(y.barriers[b]) && id in y.barriers[b].ids && y.barriers[b].through <= y.core.session.lastSeq ==>
            b in y.registered
  }

  /** No distillation that holds the message and is from before the drop may still write. */
  ghost predicate Stopped(y: System, call: nat)
    requires call in y.calls && y.calls[call].drop.Some?
  {
    forall b :: b in y.barriers && Matches(y.calls[call].drop.value, y.barriers[b]) ==> !Live(y.barriers[b])
  }

  ghost predicate IsDrop(y: System, call: nat) { call in y.calls && y.calls[call].drop.Some? }

  /** The call itself is still to deal with every such distillation. */
  ghost predicate Covers(y: System, call: nat)
    requires IsDrop(y, call)
  {
    forall b :: b in y.barriers && Matches(y.calls[call].drop.value, y.barriers[b]) && Live(y.barriers[b]) ==>
      Owns(y.calls[call], b)
  }

  lemma StepKeepsCovers(y: System, st: Step, call: nat)
    requires Inv(y) && Enabled(y, st) && IsDrop(y, call) && Covers(y, call)
    ensures IsDrop(Next(y, st), call) && Covers(Next(y, st), call)
    ensures Next(y, st).calls[call].drop == y.calls[call].drop
  {
    if st.Begin? { assert DropCovers(y, call); }
    if st.Resume? && st.call == call { assert y.calls[call].waiting.value in y.barriers; }
  }

  lemma {:induction false} RunKeepsCovers(y: System, steps: seq<Step>, call: nat)
    requires Inv(y) && ValidRun(y, steps) && IsDrop(y, call) && Covers(y, call)
    ensures var z := Run(y, steps); IsDrop(z, call) && Covers(z, call)
    decreases |steps|
  {
    if steps != [] {
      StepKeeps(y, steps[0]);
      StepKeepsCovers(y, steps[0], call);
      RunKeepsCovers(Next(y, steps[0]), steps[1..], call);
    }
  }

  lemma {:induction false} CallStays(y: System, steps: seq<Step>, call: nat)
    requires ValidRun(y, steps) && IsDrop(y, call)
    ensures IsDrop(Run(y, steps), call) && Run(y, steps).calls[call].drop == y.calls[call].drop
    decreases |steps|
  {
    if steps != [] { CallStays(Next(y, steps[0]), steps[1..], call); }
  }

  lemma Cons(y: System, st: Step, rest: seq<Step>)
    requires Enabled(y, st) && ValidRun(Next(y, st), rest)
    ensures ValidRun(y, [st] + rest) && Run(y, [st] + rest) == Run(Next(y, st), rest)
  {
    assert ([st] + rest)[1..] == rest;
  }

  /** A call with nobody to wait for can always go through what it has left, and touches no other barrier. */
  lemma {:induction false} Drained(y: System, call: nat, b: nat) returns (steps: seq<Step>)
    requires IsDrop(y, call) && y.calls[call].waiting.None? && y.calls[call].todo <= y.barriers.Keys
    requires b in y.barriers && b !in y.calls[call].todo
    ensures ValidRun(y, steps)
    ensures var z := Run(y, steps);
      IsDrop(z, call) && Returned(z.calls[call]) && b in z.barriers && z.barriers[b] == y.barriers[b]
    decreases |y.calls[call].todo|
  {
    if y.calls[call].todo == {} {
      steps := [];
    } else {
      var n :| n in y.calls[call].todo;
      var y1 := Next(y, AbortAndWait(call, n));
      assert y1.calls[call].todo == y.calls[call].todo - {n};
      if y.barriers[n].state == Writing {
        var y2 := Next(y1, EndCommit(n));
        var y3 := Next(y2, Resume(call));
        steps := Drained(y3, call, b);
        Cons(y2, Resume(call), steps);
        steps := [Resume(call)] + steps;
        Cons(y1, EndCommit(n), steps);
        steps := [EndCommit(n)] + steps;
      } else {
        steps := Drained(y1, call, b);
      }
      Cons(y, AbortAndWait(call, n), steps);
      steps := [AbortAndWait(call, n)] + steps;
    }
  }

  /** In every continuation, resets included: once the drop has returned, no distillation from before it that holds the
      message is writing or can write. */
  ghost predicate StopsForGood(y: System, call: nat)
    requires IsDrop(y, call)
  {
    forall steps :: ValidRun(y, steps) ==>
      IsDrop(Run(y, steps), call) && (Returned(Run(y, steps).calls[call]) ==> Stopped(Run(y, steps), call))
  }

  lemma RegisteredDropStops(y: System, call: nat, seqno: nat, id: string)
    requires Inv(y) && Enabled(y, DropMessage(call, seqno, id)) && AllRegistered(y, TrimSpace(id))
    ensures StopsForGood(Next(y, DropMessage(call, seqno, id)), call)
  {
    var z := Next(y, DropMessage(call, seqno, id));
    StepKeeps(y, DropMessage(call, seqno, id));
    assert Covers(z, call);
    forall steps | ValidRun(z, steps)
      ensures IsDrop(Run(z, steps), call) && (Returned(Run(z, steps).calls[call]) ==> Stopped(Run(z, steps), call))
    {
      RunKeepsCovers(z, steps, call);
    }
  }

  lemma UnregisteredDropMisses(y: System, call: nat, seqno: nat, id: string)
    requires Inv(y) && Enabled(y, DropMessage(call, seqno, id)) && !AllRegistered(y, TrimSpace(id))
    ensures !StopsForGood(Next(y, DropMessage(call, seqno, id)), call)
  {
    var b :| b in y.barriers && Live(y.barriers[b]) && TrimSpace(id) in y.barriers[b].ids &&
             y.barriers[b].through <= y.core.session.lastSeq && b !in y.registered;
    var z := Next(y, DropMessage(call, seqno, id));
    var steps := Drained(z, call, b);
    CallStays(z, steps, call);
    assert Matches(z.calls[call].drop.value, z.barriers[b]);
    assert !Stopped(Run(z, steps), call);
  }

  /** Whatever has happened before, a drop stops every distillation of its message for good if and only if all those
      that may still write are registered when it is made. */
  lemma DropStopsDistillation(steps: seq<Step>, call: nat, seqno: nat, id: string)
    requires ValidRun(Init, steps) && Enabled(Run(Init, steps), DropMessage(call, seqno, id))
    ensures var y := Run(Init, steps);
      var z := Next(y, DropMessage(call, seqno, id));
      IsDrop(z, call) && (StopsForGood(z, call) <==> AllRegistered(y, TrimSpace(id)))
  {
    RunKeeps(Init, steps);
    var y := Run(Init, steps);
    if AllRegistered(y, TrimSpace(id)) {
      RegisteredDropStops(y, call, seqno, id);
    } else {
      UnregisteredDropMisses(y, call, seqno, id);
    }
  }

  /** The condition fails only between a reset's clearing of its register and its abort of that very distillation. */
  lemma UnregisteredIsBeingReset(steps: seq<Step>, b: nat)
    requires ValidRun(Init, steps)
    requires var y := Run(Init, steps); b in y.barriers && Live(y.barriers[b]) && b !in y.registered
    ensures OwnedByReset(Run(Init, steps), b)
  {
    RunKeeps(Init, steps);
  }

  /** A drop aborts only distillations of snapshots that hold its message. */
  lemma DropSparesOthers(steps: seq<Step>, call: nat, b: nat, other: nat)
    requires ValidRun(Init, steps)
    requires var y := Run(Init, steps);
             Enabled(y, AbortAndWait(call, b)) && y.calls[call].drop.Some? && other in y.barriers
    requires var y := Run(Init, steps); y.calls[call].drop.value.id !in y.barriers[other].ids
    ensures var y := Run(Init, steps); Next(y, AbortAndWait(call, b)).barriers[other] == y.barriers[other]
  {
    RunKeeps(Init, steps);
    assert DropCovers(Run(Init, steps), call);
  }

  // ---------- where the code falls short ----------

  /** The condition above does fail: a reset clears its register before it aborts, so a drop that falls in between
      returns at once although the distillation of its message goes on to write. */
  lemma DropMissesDistillationBeingReset(y: System, b: nat, through: nat, ids: seq<string>, id: string, reset: nat,
                                         drop: nat)
    requires Vouched(y.core.session, through, ids) && through <= y.core.session.lastSeq
    requires id in ids && id != "" && Trimmed(id)
    requires b !in y.barriers && reset !in y.calls && drop !in y.calls && reset != drop
    ensures TrimSpace(id) == id
    ensures var z := Next(Next(Next(Next(y, Begin(b, through, ids)), Reset(reset, true)), DropMessage(drop, 0, id)),
                          TryBeginCommit(b));
      && Returned(z.calls[drop]) && z.calls[drop].drop.Some? && Matches(z.calls[drop].drop.value, z.barriers[b])
      && z.barriers[b].state == Writing
  {
    TrimSpaceShape(id);
    var mid := Next(Next(y, Begin(b, through, ids)), Reset(reset, true));
    assert Holders(mid, id) == {};
  }

  /** Such a state follows every commit of a batch without revoked messages while there is room for its source. */
  lemma CommittedBatchIsVouched(y: Runs.System, text: string)
    requires y.flight.Some? && Committable(y.session, y.flight.value.snap, text) &&
             |y.session.sources| < MAX_COMMITTED_SOURCES
    requires forall i :: 0 <= i < |y.flight.value.snap.ids| ==> y.flight.value.snap.ids[i] !in y.session.revoked
    ensures Vouched(Runs.Next(y, Runs.ECommit(text, true)).session, y.flight.value.snap.through,
                    y.flight.value.snap.ids)
  {
    var snap := y.flight.value.snap;
    KeepNewestShape(y.session.sources[snap.through := snap.ids], MAX_COMMITTED_SOURCES);
  }

  /** After a reset of the whole session, a batch committed before it may still be distilled exactly when the
      session vouched for it and nothing had revoked it: ResetSession forgets no source, ResetGroupCompact all. */
  lemma DistillationAfterReset(y: System, call: nat, compactionOnly: bool, b: nat, through: nat, ids: seq<string>)
    requires call !in y.calls && b !in y.barriers
    ensures var z := Next(Next(y, Reset(call, compactionOnly)), Begin(b, through, ids));
      Live(z.barriers[b]) <==> !compactionOnly && Vouched(y.core.session, through, ids)
  {}
}
