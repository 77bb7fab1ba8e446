/** All MCP servers of one instance (internal/mcp/manager.go).  A step is one section under the manager's write lock,
    one section of an operation that holds its read lock, or one section of a single runtime.  Started connections run
    at any later time, in any order, however often. */
module McpManager {
  import opened Text
  import opened McpRuntime

  /** An operation that holds the read lock, with the activity it saw when it got it. */
  datatype Reader = Reader(runtime: nat, active: bool)

  datatype System = System(
    active: bool, closed: bool,
    servers: map<string, nat>,                  // owned runtimes by server ID
    runtimes: map<nat, Runtime>,                // every runtime ever made
    starts: set<(nat, nat)>,                    // reservations handed out: runtime and generation
    readers: map<nat, Reader>,
    stopping: Option<set<nat>>)                 // SetRuntimeActive(false) in progress: runtimes it has yet to stop

  datatype Step =
    | Add(id: string, runtime: nat, enabled: bool)
    | AddFailed(id: string, runtime: nat)
    | Update(id: string, runtime: nat, enabled: bool)
    | Remove(id: string)
    | Close
    | Activate
    | StartOwned(id: string)
    | DeactivateBegin
    | DeactivateStop(runtime: nat)
    | DeactivateReturn
    | ReaderBegin(op: nat, id: string)
    | ReaderFlag(op: nat, enabled: bool)
    | ReaderReserve(op: nat)
    | ReaderStop(op: nat)
    | ReaderEnd(op: nat)
    | FinishStart(runtime: nat, generation: nat, connected: Option<nat>)
    | Terminated(runtime: nat, generation: nat, token: nat)
    | Notified(runtime: nat, generation: nat, token: nat)

  predicate Enabled(y: System, st: Step) {
    match st
    case Add(id, r, _) => y.readers == map[] && !y.closed && id !in y.servers && r !in y.runtimes
    case AddFailed(id, r) => y.readers == map[] && id in y.servers && y.servers[id] == r && r in y.runtimes
    case Update(id, r, _) => y.readers == map[] && !y.closed && id in y.servers && y.servers[id] in y.runtimes &&
        r !in y.runtimes
    case Remove(id) => y.readers == map[] && !y.closed && id in y.servers && y.servers[id] in y.runtimes
    case Close => y.readers == map[] && !y.closed && y.stopping.None?
    case Activate => y.readers == map[] && !y.closed && !y.active && y.stopping.None?
    case StartOwned(id) => y.readers == map[] && !y.closed && y.active && id in y.servers && y.servers[id] in y.runtimes
    case DeactivateBegin => y.readers == map[] && !y.closed && y.active && y.stopping.None?
    case DeactivateStop(r) => y.stopping.Some? && r in y.stopping.value && r in y.runtimes
    case DeactivateReturn => y.stopping == Some({})
    case ReaderBegin(op, id) => op !in y.readers && !y.closed && id in y.servers && y.servers[id] in y.runtimes
    case ReaderFlag(op, _) => op in y.readers && y.readers[op].runtime in y.runtimes
    case ReaderReserve(op) => op in y.readers && y.readers[op].active && y.readers[op].runtime in y.runtimes
    case ReaderStop(op) => op in y.readers && y.readers[op].runtime in y.runtimes
    case ReaderEnd(op) => op in y.readers
    case FinishStart(r, g, _) => (r, g) in y.starts && r in y.runtimes
    case Terminated(r, _, _) => r in y.runtimes
    case Notified(r, _, _) => r in y.runtimes
  }

  function Put(y: System, r: nat, rt: Runtime): System { y.(runtimes := y.runtimes[r := rt]) }

  /** reserveStart on one runtime, with the reservation it hands out. */
  function PutReserved(y: System, r: nat, rt: Runtime): System {
    Put(y, r, Reserve(rt)).(starts := if CanReserve(rt) then y.starts + {(r, rt.generation + 1)} else y.starts)
  }

  /** A new runtime enters the server map, reserved first if it is enabled and the manager active. */
  function Enter(y: System, id: string, r: nat, enabled: bool): System {
    (if enabled && y.active then PutReserved(y, r, Fresh(enabled))
     else Put(y, r, Fresh(enabled))).(servers := y.servers[id := r])
  }

  function Owned(y: System): set<nat> { set id | id in y.servers :: y.servers[id] }

  function RetireAll(runtimes: map<nat, Runtime>, which: set<nat>): map<nat, Runtime> {
    map r | r in runtimes :: if r in which then Retire(runtimes[r]) else runtimes[r]
  }

  function Next(y: System, st: Step): System
    requires Enabled(y, st)
  {
    match st
    case Add(id, r, enabled) => Enter(y, id, r, enabled)
    case AddFailed(id, r) => Put(y, r, Retire(y.runtimes[r])).(servers := y.servers - {id})
    case Update(id, r, enabled) => Enter(Put(y, y.servers[id], Retire(y.runtimes[y.servers[id]])), id, r, enabled)
    case Remove(id) => Put(y, y.servers[id], Retire(y.runtimes[y.servers[id]])).(servers := y.servers - {id})
    case Close => y.(closed := true, active := false, runtimes := RetireAll(y.runtimes, Owned(y)))
    case Activate => y.(active := true)
    case StartOwned(id) => PutReserved(y, y.servers[id], y.runtimes[y.servers[id]])
    case DeactivateBegin => y.(active := false, stopping := Some(Owned(y)))
    case DeactivateStop(r) => Put(y, r, Stop(y.runtimes[r])).(stopping := Some(y.stopping.value - {r}))
    case DeactivateReturn => y.(stopping := None)
    case ReaderBegin(op, id) => y.(readers := y.readers[op := Reader(y.servers[id], y.active)])
    case ReaderFlag(op, enabled) =>
      var r := y.readers[op].runtime;
      Put(y, r, SetFlag(y.runtimes[r], enabled, y.readers[op].active))
    case ReaderReserve(op) => PutReserved(y, y.readers[op].runtime, y.runtimes[y.readers[op].runtime])
    case ReaderStop(op) => Put(y, y.readers[op].runtime, Stop(y.runtimes[y.readers[op].runtime]))
    case ReaderEnd(op) => y.(readers := y.readers - {op})
    case FinishStart(r, g, connected) =>
      Put(y, r, if connected.Some? then Publish(y.runtimes[r], g, connected.value) else FailStart(y.runtimes[r], g))
    case Terminated(r, g, token) => Put(y, r, Terminate(y.runtimes[r], g, token))
    case Notified(r, g, token) => Put(y, r, SyncNotification(y.runtimes[r], g, token))
  }

  // ---------- invariants ----------

  /** No session, and no reservation handed out so far can open one. */
  ghost predicate Silent(y: System, r: nat)
    requires r in y.runtimes
  {
    y.runtimes[r].session.None? && forall g :: (r, g) in y.starts ==> g < y.runtimes[r].generation
  }

  ghost predicate Inv(y: System) {
    && (forall id :: id in y.servers ==> y.servers[id] in y.runtimes)
    && (forall i, j :: i in y.servers && j in y.servers && y.servers[i] == y.servers[j] ==> i == j)
    && (forall r :: r in y.runtimes ==> RuntimeOk(y.runtimes[r]))
    && (forall r, g :: (r, g) in y.starts ==> r in y.runtimes && g <= y.runtimes[r].generation)
    && (forall r :: r in y.runtimes && r !in Owned(y) ==> y.runtimes[r].retired)
    && (forall op :: op in y.readers ==> y.readers[op].runtime in y.runtimes && (y.readers[op].active ==> y.active))
    && (y.closed ==> !y.active)
    && (y.active ==> y.stopping.None?)
    && (!y.active ==> forall r :: r in y.runtimes ==>
        y.runtimes[r].retired || Silent(y, r) || (y.stopping.Some? && r in y.stopping.value))
  }

  /** A section of one runtime that opens nothing by itself. */
  lemma PutKeeps(y: System, r: nat, rt: Runtime)
    requires Inv(y) && r in y.runtimes && RuntimeOk(rt)
    requires rt.generation >= y.runtimes[r].generation && (y.runtimes[r].retired ==> rt.retired)
    requires rt.session.Some? ==> y.runtimes[r].session.Some? || (r, y.runtimes[r].generation) in y.starts
    ensures Inv(Put(y, r, rt))
  {
    var z := Put(y, r, rt);
    assert Owned(z) == Owned(y);
    if !z.active {
      forall q | q in z.runtimes ensures z.runtimes[q].retired || Silent(z, q) ||
          (z.stopping.Some? && q in z.stopping.value) {
        assert y.runtimes[q].retired || Silent(y, q) || (y.stopping.Some? && q in y.stopping.value);
      }
    }
  }

  lemma PutReservedKeeps(y: System, r: nat)
    requires Inv(y) && r in y.runtimes && y.active
    ensures Inv(PutReserved(y, r, y.runtimes[r]))
  {
    assert Owned(PutReserved(y, r, y.runtimes[r])) == Owned(y);
  }

  lemma EnterKeeps(y: System, id: string, r: nat, enabled: bool)
    requires Inv(y) && id !in y.servers && r !in y.runtimes
    ensures Inv(Enter(y, id, r, enabled))
  {
    var z := Enter(y, id, r, enabled);
    assert z.servers[id] == r;
    forall q | q in y.runtimes && q in Owned(y) ensures q in Owned(z) {
      var k :| k in y.servers && y.servers[k] == q;
      assert z.servers[k] == q;
    }
    if !z.active {
      forall q | q in z.runtimes ensures z.runtimes[q].retired || Silent(z, q) ||
          (z.stopping.Some? && q in z.stopping.value) {
        if q != r { assert y.runtimes[q].retired || Silent(y, q) || (y.stopping.Some? && q in y.stopping.value); }
      }
    }
  }

  /** Retiring a server's runtime and giving up the server. */
  lemma ReleaseKeeps(y: System, id: string)
    requires Inv(y) && id in y.servers
    ensures Inv(Put(y, y.servers[id], Retire(y.runtimes[y.servers[id]])).(servers := y.servers - {id}))
  {
    var r := y.servers[id];
    var mid := Put(y, r, Retire(y.runtimes[r]));
    PutKeeps(y, r, Retire(y.runtimes[r]));
    var z := mid.(servers := y.servers - {id});
    forall q | q in z.runtimes && q !in Owned(z) ensures z.runtimes[q].retired {
      assert forall k :: k in y.servers && k != id ==> z.servers[k] == y.servers[k];
      assert q in Owned(y) ==> q == r;
    }
    if !z.active {
      forall q | q in z.runtimes ensures z.runtimes[q].retired || Silent(z, q) ||
          (z.stopping.Some? && q in z.stopping.value) {
        assert mid.runtimes[q].retired || Silent(mid, q) || (mid.stopping.Some? && q in mid.stopping.value);
      }
    }
  }

  lemma UpdateKeeps(y: System, id: string, r: nat, enabled: bool)
    requires Inv(y) && Enabled(y, Update(id, r, enabled))
    ensures Inv(Next(y, Update(id, r, enabled)))
  {
    ReleaseKeeps(y, id);
    var released := Put(y, y.servers[id], Retire(y.runtimes[y.servers[id]])).(servers := y.servers - {id});
    EnterKeeps(released, id, r, enabled);
    assert released.servers[id := r] == y.servers[id := r];
    assert Enter(released, id, r, enabled) == Next(y, Update(id, r, enabled));
  }

  lemma CloseKeeps(y: System)
    requires Inv(y) && Enabled(y, Close)
    ensures Inv(Next(y, Close))
  {
    assert Owned(Next(y, Close)) == Owned(y);
  }

  lemma DeactivateKeeps(y: System, st: Step)
    requires Inv(y) && Enabled(y, st) && (st.DeactivateBegin? || st.DeactivateStop? || st.DeactivateReturn?)
    ensures Inv(Next(y, st))
  {
    var z := Next(y, st);
    assert Owned(z) == Owned(y);
    if st.DeactivateStop? {
      PutKeeps(y, st.runtime, Stop(y.runtimes[st.runtime]));
      var mid := Put(y, st.runtime, Stop(y.runtimes[st.runtime]));
      forall q | q in z.runtimes ensures z.runtimes[q].retired || Silent(z, q) ||
          (z.stopping.Some? && q in z.stopping.value) {
        assert mid.runtimes[q].retired || Silent(mid, q) || (mid.stopping.Some? && q in mid.stopping.value);
      }
    }
    if st.DeactivateReturn? {
      assert forall q :: q in y.runtimes && Silent(y, q) ==> Silent(z, q);
    }
  }

  lemma PlainKeeps(y: System, st: Step)
    requires Inv(y) && Enabled(y, st) && (st.Activate? || st.ReaderBegin? || st.ReaderEnd?)
    ensures Inv(Next(y, st))
  {
    assert Owned(Next(y, st)) == Owned(y);
    forall q | q in y.runtimes && Silent(y, q) ensures Silent(Next(y, st), q) {}
  }

  lemma StepKeeps(y: System, st: Step)
    requires Inv(y) && Enabled(y, st)
    ensures Inv(Next(y, st))
  {
    match st
    case Add(id, r, enabled) => EnterKeeps(y, id, r, enabled);
    case AddFailed(id, r) => ReleaseKeeps(y, id);
    case Update(id, r, enabled) => UpdateKeeps(y, id, r, enabled);
    case Remove(id) => ReleaseKeeps(y, id);
    case Close => CloseKeeps(y);
    case Activate => PlainKeeps(y, st);
    case StartOwned(id) => PutReservedKeeps(y, y.servers[id]);
    case DeactivateBegin => DeactivateKeeps(y, st);
    case DeactivateStop(r) => DeactivateKeeps(y, st);
    case DeactivateReturn => DeactivateKeeps(y, st);
    case ReaderBegin(op, id) => PlainKeeps(y, st);
    case ReaderFlag(op, enabled) =>
      PutKeeps(y, y.readers[op].runtime, SetFlag(y.runtimes[y.readers[op].runtime], enabled, y.readers[op].active));
    case ReaderReserve(op) => PutReservedKeeps(y, y.readers[op].runtime);
    case ReaderStop(op) => PutKeeps(y, y.readers[op].runtime, Stop(y.runtimes[y.readers[op].runtime]));
    case ReaderEnd(op) => PlainKeeps(y, st);
    case FinishStart(r, g, connected) => FinishKeeps(y, r, g, connected);
    case Terminated(r, g, token) => PutKeeps(y, r, Terminate(y.runtimes[r], g, token));
    case Notified(r, g, token) => PutKeeps(y, r, SyncNotification(y.runtimes[r], g, token));
  }

  lemma FinishKeeps(y: System, r: nat, g: nat, connected: Option<nat>)
    requires Inv(y) && Enabled(y, FinishStart(r, g, connected))
    ensures Inv(Next(y, FinishStart(r, g, connected)))
  {
    if connected.Some? {
      PutKeeps(y, r, Publish(y.runtimes[r], g, connected.value));
    } else {
      PutKeeps(y, r, FailStart(y.runtimes[r], g));
    }
  }

  // ---------- runs ----------

  /** A manager as it is made and loaded: nothing connected, nothing reserved. */
  predicate Start(y: System) {
    && (forall r :: r in y.runtimes ==> r in Owned(y) && exists e :: y.runtimes[r] == Fresh(e))
    && (forall id :: id in y.servers ==> y.servers[id] in y.runtimes)
    && (forall i, j :: i in y.servers && j in y.servers && y.servers[i] == y.servers[j] ==> i == j)
    && y.starts == {} && y.readers == map[] && y.stopping.None? && !y.closed
  }

  ghost predicate ValidRun(y: System, steps: seq<Step>)
    decreases |steps|
  {
    steps == [] || (Enabled(y, steps[0]) && ValidRun(Next(y, steps[0]), steps[1..]))
  }

  ghost function Run(y: System, steps: seq<Step>): System
    requires ValidRun(y, steps)
    decreases |steps|
  {
    if steps == [] then y else Run(Next(y, steps[0]), steps[1..])
  }

  lemma {:induction false} RunKeeps(y: System, steps: seq<Step>)
    requires Inv(y) && ValidRun(y, steps)
    ensures Inv(Run(y, steps))
    decreases |steps|
  {
    if steps != [] {
      StepKeeps(y, steps[0]);
      RunKeeps(Next(y, steps[0]), steps[1..]);
    }
  }

  /** In every run, whenever the manager is inactive and SetRuntimeActive(false) has returned, no server is connected;
      this stays so through any operation in progress or to come until the manager is activated again. */
  lemma InactiveMeansDisconnected(start: System, steps: seq<Step>, r: nat)
    requires Start(start) && ValidRun(start, steps)
    requires var y := Run(start, steps); !y.active && y.stopping.None? && r in y.runtimes
    ensures Run(start, steps).runtimes[r].session.None?
  {
    RunKeeps(start, steps);
    var y := Run(start, steps);
    assert y.runtimes[r].retired || Silent(y, r);
  }

  /** In every run, a session belongs to the present generation of its runtime, and a retired runtime has none. */
  lemma SessionsAreCurrent(start: System, steps: seq<Step>, r: nat)
    requires Start(start) && ValidRun(start, steps) && r in Run(start, steps).runtimes
    ensures var rt := Run(start, steps).runtimes[r];
      && (rt.session.Some? ==> rt.session.value.generation == rt.generation == rt.catalogFrom && !rt.retired)
      && (r !in Owned(Run(start, steps)) ==> rt.retired)
  {
    RunKeeps(start, steps);
  }

  lemma StepKeepsRetired(y: System, st: Step, r: nat)
    requires Enabled(y, st) && r in y.runtimes && y.runtimes[r].retired
    ensures r in Next(y, st).runtimes && Next(y, st).runtimes[r].retired
  {}

  lemma {:induction false} RetiredStays(y: System, steps: seq<Step>, r: nat)
    requires ValidRun(y, steps) && r in y.runtimes && y.runtimes[r].retired
    ensures r in Run(y, steps).runtimes && Run(y, steps).runtimes[r].retired
    decreases |steps|
  {
    if steps != [] {
      StepKeepsRetired(y, steps[0], r);
      RetiredStays(Next(y, steps[0]), steps[1..], r);
    }
  }

  /** Retirement is for ever: whatever follows, a retired runtime never connects again. */
  lemma RetiredStaysDown(y: System, steps: seq<Step>, r: nat)
    requires Inv(y) && ValidRun(y, steps) && r in y.runtimes && y.runtimes[r].retired
    ensures var z := Run(y, steps); r in z.runtimes && z.runtimes[r].retired && z.runtimes[r].session.None?
  {
    RetiredStays(y, steps, r);
    RunKeeps(y, steps);
    assert RuntimeOk(Run(y, steps).runtimes[r]);
  }

  lemma StepKeepsGeneration(y: System, st: Step, r: nat)
    requires Enabled(y, st) && r in y.runtimes
    ensures r in Next(y, st).runtimes && Next(y, st).runtimes[r].generation >= y.runtimes[r].generation
  {}

  lemma {:induction false} GenerationGrows(y: System, steps: seq<Step>, r: nat)
    requires ValidRun(y, steps) && r in y.runtimes
    ensures r in Run(y, steps).runtimes && Run(y, steps).runtimes[r].generation >= y.runtimes[r].generation
    decreases |steps|
  {
    if steps != [] {
      StepKeepsGeneration(y, steps[0], r);
      GenerationGrows(Next(y, steps[0]), steps[1..], r);
    }
  }

  /** A start that a newer reservation, a stop or a retirement has overtaken never connects its runtime: whatever
      follows, its last section changes nothing, and no session is of its generation. */
  lemma OvertakenStartNeverConnects(y: System, steps: seq<Step>, r: nat, gen: nat, token: nat)
    requires Inv(y) && ValidRun(y, steps) && r in y.runtimes && gen < y.runtimes[r].generation
    ensures var z := Run(y, steps);
      && r in z.runtimes && Publish(z.runtimes[r], gen, token) == z.runtimes[r]
      && (z.runtimes[r].session.Some? ==> z.runtimes[r].session.value.generation > gen)
  {
    GenerationGrows(y, steps, r);
    RunKeeps(y, steps);
    assert RuntimeOk(Run(y, steps).runtimes[r]);
  }
}
