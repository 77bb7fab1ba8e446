/** Interruptible execution lanes (internal/llm/sequence.go): the turns of one sender form a queue, each waiting for the
    one before it; a newer input may cancel them, and then takes over what they were working on.  A turn is named by its
    lane and its place in the order of reservation. */
module Lanes {
  import opened Text

  datatype Turn = Turn(
    epoch: nat,
    wait: Option<nat>,
    previous: Option<nat>,
    cancelled: bool,
    /** Wait has returned, PrepareTurnMessages has run, Done has run. */
    entered: bool,
    prepared: bool,
    finished: bool,
    /** It finished interrupted while a later turn was queued, and so left its task to that turn. */
    handed: bool)

  /** task: the turns whose inputs the lane's transcript, ledger and message IDs now hold. */
  datatype Lane = Lane(key: string, turns: seq<Turn>, tail: Option<nat>, active: Option<nat>, task: seq<nat>)

  // ---------- steps of one lane ----------

  function CancelUnfinished(ts: seq<Turn>): (r: seq<Turn>)
    ensures |r| == |ts|
  {
    seq(|ts|, i requires 0 <= i < |ts| => if ts[i].finished then ts[i] else ts[i].(cancelled := true))
  }

  function Cancelled(l: Lane): Lane { l.(turns := CancelUnfinished(l.turns)) }

  function Queued(l: Lane, epoch: nat): Lane {
    l.(turns := l.turns + [Turn(epoch, l.tail, l.tail, false, false, false, false, false)], tail := Some(|l.turns|))
  }

  /** ReserveSequenceTurn, in its lane. */
  function Reserved(l: Lane, epoch: nat, interrupt: bool): Lane {
    Queued(if interrupt then Cancelled(l) else l, epoch)
  }

  predicate MayEnter(l: Lane, i: nat) {
    i < |l.turns| && match l.turns[i].wait { case None => true case Some(w) => w < |l.turns| && l.turns[w].finished }
  }

  function Entered(l: Lane, i: nat): Lane
    requires i < |l.turns|
  {
    l.(turns := l.turns[i := l.turns[i].(entered := true)])
  }

  function Prepared(l: Lane, i: nat): Lane
    requires i < |l.turns|
  {
    l.(turns := l.turns[i := l.turns[i].(prepared := true)], active := Some(i), task := l.task + [i])
  }

  /** finishSequence: only an interrupted turn with a successor leaves its task behind. */
  function Finished(l: Lane, i: nat): Lane
    requires i < |l.turns|
  {
    var t := l.turns[i];
    var handed := t.cancelled && l.tail != Some(i);
    Lane(l.key, l.turns[i := t.(finished := true, handed := handed, previous := None, cancelled := true)],
         if l.tail == Some(i) then None else l.tail,
         if l.active == Some(i) then None else l.active,
         if handed then l.task else [])
  }

  // ---------- invariant of a lane ----------

  /** How many turns have finished, counted from the first. */
  function Done(ts: seq<Turn>): (d: nat)
    ensures d <= |ts| && (d < |ts| ==> !ts[d].finished)
    ensures forall i :: 0 <= i < d ==> ts[i].finished
  {
    if ts == [] || !ts[0].finished then 0 else 1 + Done(ts[1..])
  }

  /** Where the task of the turn at d began: after the last turn before it that kept its task to itself. */
  function TaskStart(ts: seq<Turn>, d: nat): (b: nat)
    requires d <= |ts|
    ensures b <= d && (forall i :: b <= i < d ==> ts[i].handed) && (b > 0 ==> !ts[b - 1].handed)
  {
    if d == 0 || !ts[d - 1].handed then d else TaskStart(ts, d - 1)
  }

  /** The turns from b to e that got as far as preparing their input. */
  function PreparedIn(ts: seq<Turn>, b: nat, e: nat): seq<nat>
    requires e <= |ts|
  {
    if e <= b then [] else PreparedIn(ts, b, e - 1) + if ts[e - 1].prepared then [e - 1] else []
  }

  function Current(ts: seq<Turn>): (n: nat)
    ensures n <= |ts|
  {
    if Done(ts) < |ts| then Done(ts) + 1 else |ts|
  }

  /** What holds of turn i while the first d turns have finished. */
  predicate TurnOk(t: Turn, i: nat, d: nat) {
    && (t.finished <==> i < d)
    && (t.wait.Some? ==> t.wait.value + 1 == i)
    && (t.wait.None? ==> i <= d)
    && (t.previous.Some? ==> t.previous.value + 1 == i && i >= d)
    && (i > d ==> t.previous == Some(i - 1))
    && (t.entered ==> i <= d) && (t.prepared ==> t.entered) && (t.finished ==> t.entered && t.cancelled)
    && (t.handed ==> t.finished)
  }

  predicate LaneOk(l: Lane) {
    var ts := l.turns;
    var d := Done(ts);
    && (forall i :: 0 <= i < |ts| ==> TurnOk(ts[i], i, d))
    && l.tail == (if d == |ts| then None else Some(|ts| - 1))
    && l.active == (if d < |ts| && ts[d].prepared then Some(d) else None)
    && l.task == PreparedIn(ts, TaskStart(ts, d), Current(ts))
  }

  lemma {:induction false} DoneIs(ts: seq<Turn>, d: nat)
    requires d <= |ts| && (forall i :: 0 <= i < d ==> ts[i].finished) && (d < |ts| ==> !ts[d].finished)
    ensures Done(ts) == d
  {
    if d > 0 { DoneIs(ts[1..], d - 1); }
  }

  lemma {:induction false} TaskStartSame(ts: seq<Turn>, us: seq<Turn>, d: nat)
    requires d <= |ts| && d <= |us| && forall i :: 0 <= i < d ==> ts[i].handed == us[i].handed
    ensures TaskStart(ts, d) == TaskStart(us, d)
  {
    if d > 0 && ts[d - 1].handed { TaskStartSame(ts, us, d - 1); }
  }

  lemma {:induction false} PreparedInSame(ts: seq<Turn>, us: seq<Turn>, b: nat, e: nat)
    requires e <= |ts| && e <= |us| && forall i :: b <= i < e ==> ts[i].prepared == us[i].prepared
    ensures PreparedIn(ts, b, e) == PreparedIn(us, b, e)
  {
    if b < e { PreparedInSame(ts, us, b, e - 1); }
  }

  /** The lane's task depends only on which turns have finished, handed over and prepared. */
  lemma SameTask(ts: seq<Turn>, us: seq<Turn>)
    requires |us| == |ts|
    requires forall i :: 0 <= i < |us| ==>
               us[i].finished == ts[i].finished && us[i].handed == ts[i].handed && us[i].prepared == ts[i].prepared
    ensures Done(us) == Done(ts) && TaskStart(us, Done(ts)) == TaskStart(ts, Done(ts)) && Current(us) == Current(ts)
    ensures PreparedIn(us, TaskStart(ts, Done(ts)), Current(ts)) == PreparedIn(ts, TaskStart(ts, Done(ts)), Current(ts))
  {
    DoneIs(us, Done(ts));
    TaskStartSame(ts, us, Done(ts));
    PreparedInSame(ts, us, TaskStart(ts, Done(ts)), Current(ts));
  }

  lemma CancelledOk(l: Lane)
    requires LaneOk(l)
    ensures LaneOk(Cancelled(l)) && Done(Cancelled(l).turns) == Done(l.turns)
  {
    var ts, us := l.turns, Cancelled(l).turns;
    SameTask(ts, us);
    forall i | 0 <= i < |us| ensures TurnOk(us[i], i, Done(ts)) {
      assert TurnOk(ts[i], i, Done(ts));
    }
  }

  lemma QueuedTurns(l: Lane, epoch: nat)
    requires LaneOk(l)
    ensures Done(Queued(l, epoch).turns) == Done(l.turns)
    ensures forall j :: 0 <= j <= |l.turns| ==> TurnOk(Queued(l, epoch).turns[j], j, Done(l.turns))
  {
    var ts, us := l.turns, Queued(l, epoch).turns;
    forall j | 0 <= j < |ts| ensures TurnOk(us[j], j, Done(ts)) {
      assert us[j] == ts[j] && TurnOk(ts[j], j, Done(ts));
    }
    DoneIs(us, Done(ts));
  }

  lemma QueuedOk(l: Lane, epoch: nat)
    requires LaneOk(l)
    ensures LaneOk(Queued(l, epoch))
  {
    var ts, us := l.turns, Queued(l, epoch).turns;
    QueuedTurns(l, epoch);
    TaskStartSame(ts, us, Done(ts));
    PreparedInSame(ts, us, TaskStart(ts, Done(ts)), Current(ts));
  }

  lemma ReservedOk(l: Lane, epoch: nat, interrupt: bool)
    requires LaneOk(l)
    ensures LaneOk(Reserved(l, epoch, interrupt))
  {
    if interrupt { CancelledOk(l); }
    QueuedOk(if interrupt then Cancelled(l) else l, epoch);
  }

  lemma EnteredTurns(l: Lane, i: nat)
    requires LaneOk(l) && MayEnter(l, i)
    ensures forall j :: 0 <= j < |l.turns| ==> TurnOk(Entered(l, i).turns[j], j, Done(l.turns))
  {
    var ts, us := l.turns, Entered(l, i).turns;
    assert TurnOk(ts[i], i, Done(ts));
    forall j | 0 <= j < |ts| ensures TurnOk(us[j], j, Done(ts)) {
      assert TurnOk(ts[j], j, Done(ts));
    }
  }

  lemma EnteredOk(l: Lane, i: nat)
    requires LaneOk(l) && MayEnter(l, i)
    ensures LaneOk(Entered(l, i))
  {
    EnteredTurns(l, i);
    SameTask(l.turns, Entered(l, i).turns);
  }

  lemma PreparedOk(l: Lane, i: nat)
    requires LaneOk(l) && i < |l.turns| && l.turns[i].entered && !l.turns[i].finished && !l.turns[i].prepared
    ensures LaneOk(Prepared(l, i))
  {
    var ts, us := l.turns, Prepared(l, i).turns;
    var d := Done(ts);
    assert TurnOk(ts[i], i, d);
    DoneIs(us, d);
    forall j | 0 <= j < |ts| ensures TurnOk(us[j], j, d) {
      assert TurnOk(ts[j], j, d);
    }
    PreparedTask(ts, us, d);
  }

  lemma PreparedTask(ts: seq<Turn>, us: seq<Turn>, d: nat)
    requires d == Done(ts) == Done(us) < |ts| && !ts[d].prepared
    requires us == ts[d := ts[d].(prepared := true)]
    ensures PreparedIn(us, TaskStart(us, d), Current(us)) == PreparedIn(ts, TaskStart(ts, d), Current(ts)) + [d]
  {
    var b := TaskStart(ts, d);
    TaskStartSame(ts, us, d);
    PreparedInSame(ts, us, b, d);
    PreparedInNone(ts, b, d);
  }

  lemma PreparedInNone(ts: seq<Turn>, b: nat, e: nat)
    requires e < |ts| && !ts[e].prepared
    ensures PreparedIn(ts, b, e + 1) == PreparedIn(ts, b, e)
  {
  }

  lemma FinishedTurns(l: Lane, i: nat)
    requires LaneOk(l) && i < |l.turns| && l.turns[i].entered && !l.turns[i].finished
    ensures i == Done(l.turns) && Done(Finished(l, i).turns) == i + 1
    ensures forall j :: 0 <= j < |l.turns| ==> TurnOk(Finished(l, i).turns[j], j, i + 1)
  {
    var ts, us := l.turns, Finished(l, i).turns;
    assert TurnOk(ts[i], i, Done(ts));
    forall j | 0 <= j < |ts| ensures TurnOk(us[j], j, i + 1) {
      assert TurnOk(ts[j], j, i);
    }
    DoneIs(us, i + 1);
  }

  lemma FinishedOk(l: Lane, i: nat)
    requires LaneOk(l) && i < |l.turns| && l.turns[i].entered && !l.turns[i].finished
    ensures LaneOk(Finished(l, i))
  {
    var ts, us := l.turns, Finished(l, i).turns;
    FinishedTurns(l, i);
    FinishedTask(l, i);
  }

  lemma FinishedTask(l: Lane, i: nat)
    requires LaneOk(l) && i == Done(l.turns) < |l.turns|
    requires var us := Finished(l, i).turns;
             Done(us) == i + 1 && forall j :: 0 <= j < |us| ==> TurnOk(us[j], j, i + 1)
    ensures var us := Finished(l, i).turns;
            Finished(l, i).task == PreparedIn(us, TaskStart(us, i + 1), Current(us))
  {
    var ts, us := l.turns, Finished(l, i).turns;
    assert i + 1 < |us| ==> TurnOk(ts[i + 1], i + 1, i) && TurnOk(us[i + 1], i + 1, i + 1);
    NextNotPrepared(us, i);
    if us[i].handed { HandedTask(ts, us, i); }
  }

  lemma NextNotPrepared(us: seq<Turn>, i: nat)
    requires i < |us| && Done(us) == i + 1 && (i + 1 < |us| ==> !us[i + 1].prepared)
    ensures PreparedIn(us, TaskStart(us, i + 1), Current(us)) == PreparedIn(us, TaskStart(us, i + 1), i + 1)
  {
    if i + 1 < |us| { PreparedInNone(us, TaskStart(us, i + 1), i + 1); }
  }

  lemma HandedTask(ts: seq<Turn>, us: seq<Turn>, i: nat)
    requires i < |ts| == |us| && us == ts[i := us[i]] && us[i].handed && us[i].prepared == ts[i].prepared
    ensures PreparedIn(us, TaskStart(us, i + 1), i + 1) == PreparedIn(ts, TaskStart(ts, i), i + 1)
  {
    TaskStartSame(ts, us, i);
    PreparedInSame(ts, us, TaskStart(ts, i), i + 1);
  }

  lemma EnteredIsAlone(l: Lane, i: nat)
    requires LaneOk(l) && i < |l.turns| && l.turns[i].entered
    ensures forall j :: 0 <= j < i ==> l.turns[j].finished
    ensures !l.turns[i].finished ==> forall j :: 0 <= j < |l.turns| && j != i ==>
              !l.turns[j].entered || l.turns[j].finished
  {
    var d := Done(l.turns);
    assert TurnOk(l.turns[i], i, d) && forall j :: 0 <= j < |l.turns| ==> (l.turns[j].finished <==> j < d);
  }

  lemma OldestNeverWaits(l: Lane)
    requires LaneOk(l) && Done(l.turns) < |l.turns|
    ensures MayEnter(l, Done(l.turns))
  {
    assert TurnOk(l.turns[Done(l.turns)], Done(l.turns), Done(l.turns));
  }

  lemma TaskOfPrepared(l: Lane, i: nat)
    requires LaneOk(l) && i < |l.turns| && l.turns[i].entered && !l.turns[i].finished && !l.turns[i].prepared
    ensures Prepared(l, i).task == PreparedIn(l.turns, TaskStart(l.turns, i), i) + [i]
  {
    assert TurnOk(l.turns[i], i, Done(l.turns)) && i == Done(l.turns);
  }

  // ---------- the session ----------

  /** lanes holds every lane there has been; keys names the current ones. */
  datatype Session = Session(lanes: seq<Lane>, keys: map<string, nat>, epoch: nat)

  datatype Event =
    | Reserve(key: string, interrupt: bool)
    | Enter(lane: nat, i: nat)
    | Prepare(lane: nat, i: nat)
    | Finish(lane: nat, i: nat)
    | Reset

  predicate IsCurrent(s: Session, l: nat)
    requires l < |s.lanes|
  {
    s.lanes[l].key in s.keys && s.keys[s.lanes[l].key] == l
  }

  /** Each turn waits before it prepares or finishes. */
  predicate Enabled(s: Session, e: Event) {
    match e
    case Reserve(key, _) => key in s.keys ==> s.keys[key] < |s.lanes|
    case Enter(l, i) => l < |s.lanes| && MayEnter(s.lanes[l], i)
    case Prepare(l, i) =>
      l < |s.lanes| && i < |s.lanes[l].turns| && var t := s.lanes[l].turns[i]; t.entered && !t.finished && !t.prepared
    case Finish(l, i) =>
      l < |s.lanes| && i < |s.lanes[l].turns| && var t := s.lanes[l].turns[i]; t.entered && !t.finished
    case Reset => true
  }

  /** The lane for a key, made when it is first needed. */
  function Opened(s: Session, key: string): Session {
    if key in s.keys then s
    else s.(lanes := s.lanes + [Lane(key, [], None, None, [])], keys := s.keys[key := |s.lanes|])
  }

  function Step(s: Session, e: Event): Session
    requires Enabled(s, e)
  {
    match e
    case Reserve(key, interrupt) =>
      var u := Opened(s, key);
      var l := u.keys[key];
      u.(lanes := u.lanes[l := Reserved(u.lanes[l], u.epoch, interrupt)])
    case Enter(l, i) => s.(lanes := s.lanes[l := Entered(s.lanes[l], i)])
    case Prepare(l, i) =>
      if s.lanes[l].turns[i].epoch != s.epoch then s else s.(lanes := s.lanes[l := Prepared(s.lanes[l], i)])
    case Finish(l, i) => s.(lanes := s.lanes[l := Finished(s.lanes[l], i)])
    case Reset =>
      Session(seq(|s.lanes|, l requires 0 <= l < |s.lanes| => if IsCurrent(s, l) then Cancelled(s.lanes[l])
                  else s.lanes[l]),
              map[], s.epoch + 1)
  }

  /** A lane belongs to one epoch; when that is over, all its turns are cancelled. */
  predicate TurnsIn(ts: seq<Turn>, epoch: nat, current: bool) {
    forall i :: 0 <= i < |ts| ==> if current then ts[i].epoch == epoch else ts[i].epoch < epoch && ts[i].cancelled
  }

  predicate Inv(s: Session) {
    && (forall k <- s.keys :: s.keys[k] < |s.lanes| && s.lanes[s.keys[k]].key == k)
    && (forall l :: 0 <= l < |s.lanes| ==> LaneOk(s.lanes[l]) && TurnsIn(s.lanes[l].turns, s.epoch, IsCurrent(s, l)))
  }

  lemma OpenedKeeps(s: Session, key: string)
    requires Inv(s)
    ensures var u := Opened(s, key); Inv(u) && key in u.keys && u.epoch == s.epoch && IsCurrent(u, u.keys[key])
  {
    var u := Opened(s, key);
    if key !in s.keys {
      forall l | 0 <= l < |s.lanes| ensures u.lanes[l] == s.lanes[l] && IsCurrent(u, l) == IsCurrent(s, l) {}
      EmptyLaneOk(key, s.epoch);
    }
  }

  lemma EmptyLaneOk(key: string, epoch: nat)
    ensures LaneOk(Lane(key, [], None, None, [])) && TurnsIn([], epoch, true)
  {
  }

  /** One lane changes, and no turn of it is uncancelled or moved to another epoch. */
  lemma OneLaneKeeps(s: Session, l: nat, m: Lane)
    requires Inv(s) && l < |s.lanes| && LaneOk(m) && m.key == s.lanes[l].key
    requires TurnsIn(m.turns, s.epoch, IsCurrent(s, l))
    ensures Inv(s.(lanes := s.lanes[l := m]))
  {
    var t := s.(lanes := s.lanes[l := m]);
    assert forall j :: 0 <= j < |s.lanes| ==> IsCurrent(t, j) == IsCurrent(s, j);
  }

  lemma ReserveKeeps(s: Session, key: string, interrupt: bool)
    requires Inv(s)
    ensures Inv(Step(s, Reserve(key, interrupt)))
  {
    OpenedKeeps(s, key);
    var u := Opened(s, key);
    var l := u.keys[key];
    assert LaneOk(u.lanes[l]) && TurnsIn(u.lanes[l].turns, u.epoch, true);
    ReservedOk(u.lanes[l], u.epoch, interrupt);
    OneLaneKeeps(u, l, Reserved(u.lanes[l], u.epoch, interrupt));
  }

  lemma ResetKeeps(s: Session)
    requires Inv(s)
    ensures Inv(Step(s, Reset))
  {
    var t := Step(s, Reset);
    forall l | 0 <= l < |s.lanes| ensures LaneOk(t.lanes[l]) && TurnsIn(t.lanes[l].turns, t.epoch, false) {
      assert LaneOk(s.lanes[l]) && TurnsIn(s.lanes[l].turns, s.epoch, IsCurrent(s, l));
      CancelledOk(s.lanes[l]);
      AllCancelled(s.lanes[l]);
    }
  }

  lemma AllCancelled(l: Lane)
    requires LaneOk(l)
    ensures forall i :: 0 <= i < |l.turns| ==>
              && Cancelled(l).turns[i].cancelled && Cancelled(l).turns[i].epoch == l.turns[i].epoch
              && (Cancelled(l).turns[i].finished <==> l.turns[i].finished)
  {
    assert forall i :: 0 <= i < |l.turns| ==> TurnOk(l.turns[i], i, Done(l.turns));
  }

  lemma EnterKeeps(s: Session, l: nat, i: nat)
    requires Inv(s) && Enabled(s, Enter(l, i))
    ensures Inv(Step(s, Enter(l, i)))
  {
    assert LaneOk(s.lanes[l]) && TurnsIn(s.lanes[l].turns, s.epoch, IsCurrent(s, l));
    EnteredOk(s.lanes[l], i);
    OneLaneKeeps(s, l, Entered(s.lanes[l], i));
  }

  lemma PrepareKeeps(s: Session, l: nat, i: nat)
    requires Inv(s) && Enabled(s, Prepare(l, i)) && s.lanes[l].turns[i].epoch == s.epoch
    ensures Inv(Step(s, Prepare(l, i)))
  {
    assert LaneOk(s.lanes[l]) && TurnsIn(s.lanes[l].turns, s.epoch, IsCurrent(s, l));
    PreparedOk(s.lanes[l], i);
    OneLaneKeeps(s, l, Prepared(s.lanes[l], i));
  }

  lemma FinishKeeps(s: Session, l: nat, i: nat)
    requires Inv(s) && Enabled(s, Finish(l, i))
    ensures Inv(Step(s, Finish(l, i)))
  {
    assert LaneOk(s.lanes[l]) && TurnsIn(s.lanes[l].turns, s.epoch, IsCurrent(s, l));
    FinishedOk(s.lanes[l], i);
    OneLaneKeeps(s, l, Finished(s.lanes[l], i));
  }

  lemma StepKeeps(s: Session, e: Event)
    requires Inv(s) && Enabled(s, e)
    ensures Inv(Step(s, e))
  {
    match e
    case Reserve(key, interrupt) => ReserveKeeps(s, key, interrupt);
    case Enter(l, i) => EnterKeeps(s, l, i);
    case Prepare(l, i) => if s.lanes[l].turns[i].epoch == s.epoch { PrepareKeeps(s, l, i); }
    case Finish(l, i) => FinishKeeps(s, l, i);
    case Reset => ResetKeeps(s);
  }

  // ---------- whole runs ----------

  predicate Possible(s: Session, run: seq<Event>)
    decreases |run|
  {
    run == [] || (Enabled(s, run[0]) && Possible(Step(s, run[0]), run[1..]))
  }

  function Run(s: Session, run: seq<Event>): Session
    requires Possible(s, run)
    decreases |run|
  {
    if run == [] then s else Run(Step(s, run[0]), run[1..])
  }

  predicate Exists(s: Session, l: nat, i: nat) { l < |s.lanes| && i < |s.lanes[l].turns| }

  function TurnAt(s: Session, l: nat, i: nat): Turn
    requires Exists(s, l, i)
  {
    s.lanes[l].turns[i]
  }

  /** A step never forgets that a turn was cancelled or has finished, and starts nothing for an ended epoch. */
  lemma StepIsPermanent(s: Session, e: Event, l: nat, i: nat)
    requires Enabled(s, e) && Exists(s, l, i)
    ensures var t := Step(s, e);
            && Exists(t, l, i) && TurnAt(t, l, i).epoch == TurnAt(s, l, i).epoch && s.epoch <= t.epoch
            && (TurnAt(s, l, i).cancelled ==> TurnAt(t, l, i).cancelled)
            && (TurnAt(s, l, i).finished ==> TurnAt(t, l, i).finished)
            && (TurnAt(s, l, i).epoch < s.epoch ==> TurnAt(t, l, i).prepared == TurnAt(s, l, i).prepared)
  {
  }

  /** Over a whole run: turns of a lane run one at a time in their order, a cancelled turn stays cancelled, and after a
      reset every earlier turn is cancelled and none of them ever prepares an input again. */
  lemma {:induction false} RunKeeps(s: Session, run: seq<Event>)
    requires Inv(s) && Possible(s, run)
    ensures Inv(Run(s, run)) && s.epoch <= Run(s, run).epoch
    ensures forall l: nat, i: nat :: Exists(s, l, i) ==>
              && Exists(Run(s, run), l, i)
              && (TurnAt(s, l, i).cancelled ==> TurnAt(Run(s, run), l, i).cancelled)
              && (TurnAt(s, l, i).epoch < s.epoch ==>
                    TurnAt(Run(s, run), l, i).cancelled &&
                    TurnAt(Run(s, run), l, i).prepared == TurnAt(s, l, i).prepared)
    decreases |run|
  {
    if run == [] {
      assert forall l: nat, i: nat :: Exists(s, l, i) ==> TurnsIn(s.lanes[l].turns, s.epoch, IsCurrent(s, l));
    } else {
      var t := Step(s, run[0]);
      StepKeeps(s, run[0]);
      RunKeeps(t, run[1..]);
      forall l: nat, i: nat | Exists(s, l, i)
        ensures Exists(Run(s, run), l, i)
        ensures TurnAt(s, l, i).cancelled ==> TurnAt(Run(s, run), l, i).cancelled
        ensures TurnAt(s, l, i).epoch < s.epoch ==>
                  TurnAt(Run(s, run), l, i).cancelled &&
                  TurnAt(Run(s, run), l, i).prepared == TurnAt(s, l, i).prepared
      {
        StepIsPermanent(s, run[0], l, i);
        assert Exists(t, l, i);
      }
    }
  }

  const Start := Session([], map[], 1)

  lemma LaneOkInRun(run: seq<Event>, l: nat)
    requires Possible(Start, run) && l < |Run(Start, run).lanes|
    ensures LaneOk(Run(Start, run).lanes[l])
  {
    RunKeeps(Start, run);
  }

  /** In every run the turns of a lane run one at a time, in the order in which they were reserved. */
  lemma OneAtATime(run: seq<Event>, l: nat, i: nat)
    requires Possible(Start, run) && Exists(Run(Start, run), l, i) && TurnAt(Run(Start, run), l, i).entered
    ensures var ts := Run(Start, run).lanes[l].turns;
            && (forall j :: 0 <= j < i ==> ts[j].finished)
            && (!ts[i].finished ==> forall j :: 0 <= j < |ts| && j != i ==> !ts[j].entered || ts[j].finished)
  {
    LaneOkInRun(run, l);
    EnteredIsAlone(Run(Start, run).lanes[l], i);
  }

  /** In every run the oldest unfinished turn of a lane may enter, so that no lane is ever stuck. */
  lemma OldestMayEnter(run: seq<Event>, l: nat, i: nat)
    requires Possible(Start, run) && Exists(Run(Start, run), l, i) && !TurnAt(Run(Start, run), l, i).finished
    requires forall j :: 0 <= j < i ==> Run(Start, run).lanes[l].turns[j].finished
    ensures Enabled(Run(Start, run), Enter(l, i))
  {
    LaneOkInRun(run, l);
    DoneIs(Run(Start, run).lanes[l].turns, i);
    OldestNeverWaits(Run(Start, run).lanes[l]);
  }

  /** In every run a turn that prepares takes over exactly what the unbroken run of turns right before it left behind,
      each of them interrupted and with a successor: the lane's task is their inputs and its own, and nothing older. */
  lemma TakesOverFromInterrupted(run: seq<Event>, l: nat, i: nat)
    requires Possible(Start, run) && Enabled(Run(Start, run), Prepare(l, i))
    requires TurnAt(Run(Start, run), l, i).epoch == Run(Start, run).epoch
    ensures var s := Run(Start, run);
            var ts := s.lanes[l].turns;
            var b := TaskStart(ts, i);
            && Step(s, Prepare(l, i)).lanes[l].task == PreparedIn(ts, b, i) + [i]
            && (forall j :: b <= j < i ==> ts[j].handed)
            && (b > 0 ==> !ts[b - 1].handed)
  {
    LaneOkInRun(run, l);
    TaskOfPrepared(Run(Start, run).lanes[l], i);
  }

  lemma ResetEndsEveryTurn(s: Session, run: seq<Event>, l: nat, i: nat)
    requires Inv(s) && Possible(Step(s, Reset), run) && Exists(s, l, i)
    ensures var t := Run(Step(s, Reset), run);
            Exists(t, l, i) && TurnAt(t, l, i).cancelled && TurnAt(t, l, i).prepared == TurnAt(s, l, i).prepared
  {
    var u := Step(s, Reset);
    assert TurnsIn(s.lanes[l].turns, s.epoch, IsCurrent(s, l));
    StepKeeps(s, Reset);
    StepIsPermanent(s, Reset, l, i);
    RunKeeps(u, run);
    assert Exists(u, l, i) && TurnAt(u, l, i).epoch < u.epoch;
    assert TurnAt(u, l, i).prepared == TurnAt(s, l, i).prepared;
  }

  /** An interrupting reservation cancels the unfinished turns of its own lane, and no others; a plain one cancels none.
      The new turn itself is not cancelled. */
  lemma InterruptCancelsItsLane(s: Session, key: string, interrupt: bool)
    requires Inv(s)
    ensures var t := Step(s, Reserve(key, interrupt));
            var own := Opened(s, key).keys[key];
            && (forall l: nat, i: nat :: Exists(s, l, i) ==>
                  (TurnAt(t, l, i).cancelled <==>
                     TurnAt(s, l, i).cancelled || (interrupt && l == own && !TurnAt(s, l, i).finished)))
            && t.lanes[own].turns != [] && !t.lanes[own].turns[|t.lanes[own].turns| - 1].cancelled
  {
  }

  // ---------- the loops that do this ----------

  class SessionLanes {
    var lanes: seq<Lane>
    var keys: map<string, nat>
    var epoch: nat

    constructor ()
      ensures View() == Start && Inv(View())
    {
      lanes, keys, epoch := [], map[], 1;
    }

    ghost function View(): Session
      reads this
    {
      Session(lanes, keys, epoch)
    }

    /** The loop of ReserveSequenceTurn and cancelSequencesLocked: from the tail along `previous`. */
    method CancelChain(turns: seq<Turn>, tail: Option<nat>) returns (r: seq<Turn>)
      requires exists l: Lane :: LaneOk(l) && l.turns == turns && l.tail == tail
      ensures r == CancelUnfinished(turns)
    {
      ghost var d := Done(turns);
      assert forall i :: 0 <= i < |turns| ==> TurnOk(turns[i], i, d);
      r := turns;
      var t: Option<nat> := tail;
      while t.Some?
        invariant |r| == |turns|
        invariant t.Some? ==> t.value < |turns|
        invariant t.Some? ==> t.value + 1 >= d
        invariant forall i :: 0 <= i < |turns| ==>
                    r[i] == if (t.Some? && i <= t.value) || i < d then turns[i] else turns[i].(cancelled := true)
        decreases if t.Some? then t.value + 1 else 0
      {
        var i := t.value;
        assert TurnOk(turns[i], i, d);
        t := r[i].previous;
        r := r[i := r[i].(cancelled := true)];
      }
    }

    method ReserveSequenceTurn(key: string, interrupt: bool) returns (lane: nat, turn: nat)
      requires Inv(View())
      modifies this
      ensures Inv(View()) && View() == Step(old(View()), Reserve(key, interrupt))
      ensures keys[key] == lane && turn + 1 == |lanes[lane].turns|
    {
      ghost var s := View();
      OpenedKeeps(s, key);
      if key !in keys {
        keys := keys[key := |lanes|];
        lanes := lanes + [Lane(key, [], None, None, [])];
      }
      lane := keys[key];
      var l := lanes[lane];
      if interrupt {
        var ts := CancelChain(l.turns, l.tail);
        l := l.(turns := ts);
      }
      turn := |l.turns|;
      l := l.(turns := l.turns + [Turn(epoch, l.tail, l.tail, false, false, false, false, false)], tail := Some(turn));
      lanes := lanes[lane := l];
      ReserveKeeps(s, key, interrupt);
    }

    /** finishSequence. */
    method FinishSequence(lane: nat, i: nat)
      requires Inv(View()) && Enabled(View(), Finish(lane, i))
      modifies this
      ensures Inv(View()) && View() == Step(old(View()), Finish(lane, i))
    {
      FinishKeeps(View(), lane, i);
      var l := lanes[lane];
      var t := l.turns[i];
      if l.active == Some(i) { l := l.(active := None); }
      var handed := true;
      if l.tail == Some(i) || !t.cancelled {
        l := l.(task := []);
        handed := false;
      }
      if l.tail == Some(i) { l := l.(tail := None); }
      lanes := lanes[lane := l.(turns := l.turns[i := t.(finished := true, handed := handed, previous := None,
                                                         cancelled := true)])];
    }

    /** The part of ResetSession that ends every lane. */
    method CancelSequences()
      requires Inv(View())
      modifies this
      ensures Inv(View()) && View() == Step(old(View()), Reset)
    {
      ResetKeeps(View());
      EndLanes(Step(View(), Reset).lanes);
      keys := map[];
      epoch := epoch + 1;
    }

    method EndLanes(ghost ended: seq<Lane>)
      requires Inv(View()) && ended == Step(View(), Reset).lanes
      modifies this`lanes
      ensures lanes == ended
    {
      ghost var s := View();
      var n := 0;
      while n < |lanes|
        invariant n <= |lanes| == |s.lanes| && keys == s.keys && epoch == s.epoch
        invariant forall l :: 0 <= l < |lanes| ==> lanes[l] == if l < n then ended[l] else s.lanes[l]
      {
        EndLane(n);
        n := n + 1;
      }
    }

    method EndLane(n: nat)
      requires n < |lanes| && LaneOk(lanes[n])
      modifies this`lanes
      ensures lanes == old(lanes)[n := if IsCurrent(old(View()), n) then Cancelled(old(lanes)[n]) else old(lanes)[n]]
    {
      var l := lanes[n];
      if l.key in keys && keys[l.key] == n {
        var ts := CancelChain(l.turns, l.tail);
        lanes := lanes[n := l.(turns := ts)];
      }
    }
  }
}
