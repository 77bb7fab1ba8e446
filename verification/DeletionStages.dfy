/** Deleting an instance whose row is in SQL (internal/instance/deletion_stage.go and Manager.ConfirmDeletion): the
    directory is renamed into a stage, the row is deleted, and only then is the stage removed.  Start-up recovery puts
    back or sweeps whatever stages a crash has left. */
module DeletionStages {
  import opened Text

  type Id = string
  /** The files of one directory, as one value. */
  type Content = string

  /** A stage directory, named after the instance it was made for. */
  datatype Stage = Stage(id: Id, inside: Option<Content>)

  datatype Pc =
    | Created(k: nat)
    | Moved(k: nat, staged: bool)
    | RollingBack(k: nat, staged: bool)
    | Emptied(k: nat)
    | Deleted(k: nat)

  datatype Mode = Running | Recovering | Stopped

  /** rows is what SQL holds; known is what start-up has read from it, and later the registry. */
  datatype System = System(
    dirs: map<Id, Content>,
    stages: map<nat, Stage>,
    rows: set<Id>,
    known: set<Id>,
    pcs: map<Id, Pc>,
    mode: Mode)

  datatype Event =
    | CreateStage(id: Id, k: nat)
    | MoveAside(id: Id)
    | DeleteRow(id: Id, ok: bool, committed: bool)
    | MoveBack(id: Id)
    | RemoveStage(id: Id)
    | Fail(id: Id)
    | Recreate(id: Id, content: Content)
    | Crash
    | Restore(k: nat)
    | Sweep(k: nat)
    | RecoveryEnds

  predicate Enabled(s: System, e: Event) {
    match e
    case CreateStage(id, k) => s.mode.Running? && id in s.known && id !in s.pcs && k !in s.stages
    case MoveAside(id) => id in s.pcs && s.pcs[id].Created? && s.pcs[id].k in s.stages
    case DeleteRow(id, ok, committed) => id in s.pcs && s.pcs[id].Moved? && (ok ==> committed)
    case MoveBack(id) =>
      id in s.pcs && s.pcs[id].RollingBack? && s.pcs[id].k in s.stages &&
      (s.pcs[id].staged ==> id !in s.dirs && s.stages[s.pcs[id].k].inside.Some?)
    case RemoveStage(id) => id in s.pcs && (s.pcs[id].Created? || s.pcs[id].Emptied? || s.pcs[id].Deleted?)
    case Fail(id) => id in s.pcs
    case Recreate(id, _) => s.mode.Running? && id in s.known && id !in s.dirs && id !in s.pcs
    case Crash => true
    case Restore(k) => s.mode.Recovering? && k in s.stages && s.stages[k].id in s.known && s.stages[k].inside.Some?
    case Sweep(k) => s.mode.Recovering? && k in s.stages && (s.stages[k].id in s.known ==> s.stages[k].inside.None?)
    case RecoveryEnds => s.mode.Recovering? && s.stages == map[]
  }

  function Step(s: System, e: Event): System
    requires Enabled(s, e)
  {
    match e
    case CreateStage(id, k) => s.(stages := s.stages[k := Stage(id, None)], pcs := s.pcs[id := Created(k)])
    case MoveAside(id) =>
      var k := s.pcs[id].k;
      if id in s.dirs then
        s.(stages := s.stages[k := Stage(id, Some(s.dirs[id]))], dirs := s.dirs - {id},
           pcs := s.pcs[id := Moved(k, true)])
      else s.(pcs := s.pcs[id := Moved(k, false)])
    case DeleteRow(id, ok, committed) =>
      var p := s.pcs[id];
      s.(rows := if committed then s.rows - {id} else s.rows,
         known := if ok then s.known - {id} else s.known,
         pcs := s.pcs[id := if ok then Deleted(p.k) else RollingBack(p.k, p.staged)])
    case MoveBack(id) =>
      var k := s.pcs[id].k;
      if s.pcs[id].staged then
        s.(dirs := s.dirs[id := s.stages[k].inside.value], stages := s.stages[k := Stage(id, None)],
           pcs := s.pcs[id := Emptied(k)])
      else s.(pcs := s.pcs[id := Emptied(k)])
    case RemoveStage(id) => s.(stages := s.stages - {s.pcs[id].k}, pcs := s.pcs - {id})
    case Fail(id) => s.(pcs := s.pcs - {id})
    case Recreate(id, content) => s.(dirs := s.dirs[id := content])
    case Crash => s.(pcs := map[], known := s.rows, mode := Recovering)
    case Restore(k) =>
      var st := s.stages[k];
      if st.id in s.dirs then s.(mode := Stopped)
      else s.(dirs := s.dirs[st.id := st.inside.value], stages := s.stages[k := Stage(st.id, None)])
    case Sweep(k) => s.(stages := s.stages - {k})
    case RecoveryEnds => s.(mode := Running)
  }

  // ---------- invariant ----------

  /** An instance's files are in its own directory or in a stage made for it. */
  predicate Holds(s: System, id: Id, c: Content) {
    (id in s.dirs && s.dirs[id] == c) || exists k :: k in s.stages && s.stages[k] == Stage(id, Some(c))
  }

  predicate PcOk(s: System, id: Id, p: Pc) {
    && p.k in s.stages && s.stages[p.k].id == id
    && match p
       case Created(_) => s.stages[p.k].inside.None?
       case Moved(_, staged) => s.stages[p.k].inside.Some? == staged
       case RollingBack(_, staged) => s.stages[p.k].inside.Some? == staged
       case Emptied(_) => s.stages[p.k].inside.None?
       case Deleted(_) => id !in s.rows
  }

  predicate Inv(s: System) {
    && s.rows <= s.known
    && (!s.mode.Running? ==> s.rows == s.known && s.pcs == map[])
    && (forall id <- s.pcs :: PcOk(s, id, s.pcs[id]))
  }

  lemma StepKeeps(s: System, e: Event)
    requires Inv(s) && Enabled(s, e)
    ensures Inv(Step(s, e))
  {
  }

  /** One step: as long as the row is there, nothing of the instance is lost. */
  lemma StepHolds(s: System, e: Event, id: Id, c: Content)
    requires Inv(s) && Enabled(s, e) && Holds(s, id, c) && id in Step(s, e).rows
    ensures Holds(Step(s, e), id, c)
  {
    var t := Step(s, e);
    if id in s.dirs && s.dirs[id] == c {
      if e.MoveAside? && e.id == id { assert t.stages[s.pcs[id].k] == Stage(id, Some(c)); }
    } else {
      var k :| k in s.stages && s.stages[k] == Stage(id, Some(c));
      assert (k in t.stages && t.stages[k] == Stage(id, Some(c))) || (id in t.dirs && t.dirs[id] == c);
    }
  }

  /** Nothing appears from nowhere either. */
  lemma StepHoldsOnly(s: System, e: Event, id: Id, c: Content)
    requires Inv(s) && Enabled(s, e) && Holds(Step(s, e), id, c)
    ensures Holds(s, id, c) || e == Recreate(id, c)
  {
  }

  // ---------- whole runs ----------

  predicate Possible(s: System, run: seq<Event>)
    decreases |run|
  {
    run == [] || (Enabled(s, run[0]) && Possible(Step(s, run[0]), run[1..]))
  }

  function Run(s: System, run: seq<Event>): System
    requires Possible(s, run)
    decreases |run|
  {
    if run == [] then s else Run(Step(s, run[0]), run[1..])
  }

  lemma {:induction false} RunKeeps(s: System, run: seq<Event>)
    requires Inv(s) && Possible(s, run)
    ensures Inv(Run(s, run)) && Run(s, run).rows <= s.rows
    decreases |run|
  {
    if run != [] {
      StepKeeps(s, run[0]);
      RunKeeps(Step(s, run[0]), run[1..]);
    }
  }

  /** Through any crashes, failures, retries and recoveries: files of an instance are there as long as its row is, and
      when no stage is left they are in the instance's own directory. */
  lemma {:induction false} FilesOutliveTheRow(s: System, run: seq<Event>, id: Id, c: Content)
    requires Inv(s) && Possible(s, run) && Holds(s, id, c) && id in Run(s, run).rows
    ensures var t := Run(s, run);
            Holds(t, id, c) && (t.stages == map[] ==> id in t.dirs && t.dirs[id] == c)
    decreases |run|
  {
    if run != [] {
      var u := Step(s, run[0]);
      StepKeeps(s, run[0]);
      RunKeeps(u, run[1..]);
      StepHolds(s, run[0], id, c);
      FilesOutliveTheRow(u, run[1..], id, c);
    }
  }

  /** Start-up recovery never has two places to restore the same instance from. */
  predicate NoConflict(s: System) {
    forall k :: k in s.stages && s.stages[k].id in s.known && s.stages[k].inside.Some? ==>
      && s.stages[k].id !in s.dirs
      && forall j :: j in s.stages && s.stages[j].id == s.stages[k].id && s.stages[j].inside.Some? ==> j == k
  }

  // ---------- recovery and confirmation ----------

  function DealtWith(s: System, k: nat): System
    requires k in s.stages
  {
    var st := s.stages[k];
    if st.id in s.known && st.inside.Some? then
      if st.id in s.dirs then s.(mode := Stopped)
      else s.(dirs := s.dirs[st.id := st.inside.value], stages := s.stages - {k})
    else s.(stages := s.stages - {k})
  }

  predicate Lists(s: System, entries: seq<nat>) {
    && (forall k <- entries :: k in s.stages)
    && (forall k <- s.stages :: k in entries)
    && forall i, j :: 0 <= i < j < |entries| ==> entries[i] != entries[j]
  }

  lemma ListsRest(s: System, entries: seq<nat>)
    requires Lists(s, entries) && entries != []
    ensures entries[0] in s.stages
    ensures !DealtWith(s, entries[0]).mode.Stopped? ==> Lists(DealtWith(s, entries[0]), entries[1..])
    ensures DealtWith(s, entries[0]).mode.Stopped? ==> s.mode.Stopped? || !NoConflict(s)
  {
    var k := entries[0];
    var rest := entries[1..];
    assert forall i :: 0 <= i < |rest| ==> rest[i] == entries[i + 1];
    assert forall x :: x in entries <==> x == k || x in rest;
  }

  lemma NoneListed(s: System, entries: seq<nat>)
    requires Lists(s, entries) && entries == []
    ensures s.stages == map[]
  {
  }

  function RecoveredAll(s: System, entries: seq<nat>): System
    requires s.mode.Recovering? && Lists(s, entries)
    decreases |entries|
  {
    if entries == [] then s.(mode := Running)
    else
      ListsRest(s, entries);
      var t := DealtWith(s, entries[0]);
      if t.mode.Stopped? then t else RecoveredAll(t, entries[1..])
  }

  lemma DealtWithConflicts(s: System, k: nat)
    requires s.mode.Recovering? && k in s.stages
    ensures NoConflict(s) <==> !DealtWith(s, k).mode.Stopped? && NoConflict(DealtWith(s, k))
  {
    var t := DealtWith(s, k);
    if !t.mode.Stopped? && NoConflict(t) {
      forall a | a in s.stages && s.stages[a].id in s.known && s.stages[a].inside.Some?
        ensures s.stages[a].id !in s.dirs
        ensures forall j :: j in s.stages && s.stages[j].id == s.stages[a].id && s.stages[j].inside.Some? ==> j == a
      {
        assert a != k ==> a in t.stages && t.stages[a] == s.stages[a];
        forall j | j in s.stages && s.stages[j].id == s.stages[a].id && s.stages[j].inside.Some? ensures j == a {
          assert j != k ==> j in t.stages && t.stages[j] == s.stages[j];
        }
      }
    }
  }

  /** Recovery stops exactly when some instance has two places to be restored from; otherwise it empties the data root
      of stages, and either way it leaves the directories of instances without a row alone. */
  lemma {:induction false} RecoveryStopsOnlyOnConflict(s: System, entries: seq<nat>)
    requires s.mode.Recovering? && Lists(s, entries)
    ensures var t := RecoveredAll(s, entries);
            && (t.mode.Stopped? <==> !NoConflict(s))
            && (!t.mode.Stopped? ==> t.stages == map[] && t.mode.Running?)
            && (forall id :: id !in s.known ==>
                (id in t.dirs <==> id in s.dirs) && (id in s.dirs ==> t.dirs[id] == s.dirs[id]))
    decreases |entries|
  {
    if entries == [] {
      NoneListed(s, entries);
    } else {
      ListsRest(s, entries);
      DealtWithConflicts(s, entries[0]);
      var t := DealtWith(s, entries[0]);
      if !t.mode.Stopped? { RecoveryStopsOnlyOnConflict(t, entries[1..]); }
    }
  }

  /** How the operations of a deletion end; a commit may be made and still be reported as an error. */
  datatype Faults = Faults(moveOk: bool, sqlOk: bool, committed: bool, restoreOk: bool, removeOk: bool)

  class Manager {
    var dirs: map<Id, Content>
    var stages: map<nat, Stage>
    /** The rows, which SQL keeps. */
    var rows: set<Id>
    var known: set<Id>
    ghost var pcs: map<Id, Pc>
    ghost var mode: Mode
    ghost var from: System
    ghost var run: seq<Event>

    constructor (dirs: map<Id, Content>, rows: set<Id>)
      ensures Inv(View()) && View() == System(dirs, map[], rows, rows, map[], Running)
    {
      this.dirs, this.stages, this.rows, this.known, this.pcs, this.mode := dirs, map[], rows, rows, map[], Running;
    }

    ghost function View(): System
      reads this
    {
      System(dirs, stages, rows, known, pcs, mode)
    }

    ghost predicate OnTrack()
      reads this
    {
      Possible(from, run) && Run(from, run) == View() && Inv(View())
    }

    ghost method Did(e: Event, s: System)
      requires Possible(from, run) && Run(from, run) == s && Inv(s) && Enabled(s, e) && Step(s, e) == View()
      modifies this`run
      ensures OnTrack()
    {
      Snoc(from, run, e);
      StepKeeps(s, e);
      run := run + [e];
    }

    method GiveUp(id: Id)
      requires OnTrack() && id in pcs
      modifies this`pcs, this`run
      ensures OnTrack() && pcs == old(pcs) - {id}
    {
      ghost var s := View();
      pcs := pcs - {id};
      Did(Fail(id), s);
    }

    method MoveInstance(id: Id, k: nat)
      requires OnTrack() && id in pcs && pcs[id] == Created(k)
      modifies this`dirs, this`stages, this`pcs, this`run
      ensures OnTrack() && id in pcs && pcs[id] == Moved(k, id in old(dirs)) && id !in dirs && k in stages
      ensures dirs == old(dirs) - {id} && stages.Keys == old(stages).Keys
      ensures id in old(dirs) ==> stages[k] == Stage(id, Some(old(dirs)[id]))
    {
      ghost var s := View();
      var staged := id in dirs;
      if staged {
        stages := stages[k := Stage(id, Some(dirs[id]))];
        dirs := dirs - {id};
      }
      pcs := pcs[id := Moved(k, staged)];
      Did(MoveAside(id), s);
    }

    method DeleteInstanceRow(id: Id, k: nat, staged: bool, sqlOk: bool, committed: bool)
      requires OnTrack() && id in pcs && pcs[id] == Moved(k, staged) && (sqlOk ==> committed)
      modifies this`rows, this`known, this`pcs, this`run
      ensures OnTrack() && id in pcs && pcs[id] == (if sqlOk then Deleted(k) else RollingBack(k, staged))
      ensures sqlOk ==> id !in rows && id !in known
    {
      ghost var s := View();
      if committed { rows := rows - {id}; }
      if sqlOk { known := known - {id}; }
      pcs := pcs[id := if sqlOk then Deleted(k) else RollingBack(k, staged)];
      Did(DeleteRow(id, sqlOk, committed), s);
    }

    method PutBack(id: Id, k: nat, staged: bool)
      requires OnTrack() && id in pcs && pcs[id] == RollingBack(k, staged) && (staged ==> id !in dirs) && k in stages
      modifies this`dirs, this`stages, this`pcs, this`run
      ensures OnTrack() && id in pcs && pcs[id] == Emptied(k) && stages.Keys == old(stages).Keys
      ensures staged ==> old(stages)[k].inside.Some? && dirs == old(dirs)[id := old(stages)[k].inside.value]
      ensures !staged ==> dirs == old(dirs)
    {
      ghost var s := View();
      assert PcOk(s, id, pcs[id]);
      if staged {
        dirs := dirs[id := stages[k].inside.value];
        stages := stages[k := Stage(id, None)];
      }
      pcs := pcs[id := Emptied(k)];
      Did(MoveBack(id), s);
    }

    method RemoveOwnStage(id: Id, k: nat)
      requires OnTrack() && id in pcs && (pcs[id] == Created(k) || pcs[id] == Emptied(k) || pcs[id] == Deleted(k))
      modifies this`stages, this`pcs, this`run
      ensures OnTrack() && id !in pcs && stages == old(stages) - {k}
    {
      ghost var s := View();
      stages := stages - {k};
      pcs := pcs - {id};
      Did(RemoveStage(id), s);
    }

    /** One stage of recovery: put the instance back if its row is there, then remove the stage. */
    method DealWith(k: nat) returns (ok: bool)
      requires OnTrack() && mode.Recovering? && k in stages
      modifies this`dirs, this`stages, this`mode, this`run
      ensures OnTrack() && View() == DealtWith(old(View()), k) && ok == !mode.Stopped?
    {
      ghost var s := View();
      var st := stages[k];
      if st.id in known && st.inside.Some? {
        if st.id in dirs {
          mode := Stopped;
          Did(Restore(k), s);
          return false;
        }
        dirs := dirs[st.id := st.inside.value];
        stages := stages[k := Stage(st.id, None)];
        Did(Restore(k), s);
      }
      ghost var u := View();
      stages := stages - {k};
      Did(Sweep(k), u);
      assert stages == s.stages - {k};
      return true;
    }

    /** recoverDeletionStages, over the stages that ReadDir lists; budget is the number of operations that succeed. */
    method RecoverDeletionStages(entries: seq<nat>, budget: nat) returns (finished: bool)
      requires Inv(View()) && mode.Recovering? && Lists(View(), entries)
      modifies this
      ensures OnTrack() && from == old(View()) && rows == old(rows) && known == old(known)
      ensures finished ==> View() == RecoveredAll(old(View()), entries)
    {
      ghost var s := View();
      from, run := s, [];
      for i := 0 to |entries|
        invariant OnTrack() && from == s && mode.Recovering? && rows == s.rows && known == s.known
        invariant Lists(View(), entries[i..])
        invariant RecoveredAll(s, entries) == RecoveredAll(View(), entries[i..])
      {
        if i == budget { return false; }
        var k := entries[i];
        assert entries[i..][0] == k && entries[i..][1..] == entries[i + 1..];
        ListsRest(View(), entries[i..]);
        var ok := DealWith(k);
        if !ok { return true; }
      }
      ghost var u := View();
      NoneListed(u, entries[|entries|..]);
      mode := Running;
      Did(RecoveryEnds, u);
      return true;
    }

    /** The end of every branch: the stage goes, if it can be removed. */
    method Finish(id: Id, k: nat, removeOk: bool)
      requires OnTrack() && id in pcs && (pcs[id] == Created(k) || pcs[id] == Emptied(k) || pcs[id] == Deleted(k))
      modifies this`stages, this`pcs, this`run
      ensures OnTrack() && id !in pcs && stages == if removeOk then old(stages) - {k} else old(stages)
    {
      if removeOk { RemoveOwnStage(id, k); } else { GiveUp(id); }
    }

    /** The SQL delete has failed, or its commit was not acknowledged. */
    method RollBack(id: Id, k: nat, staged: bool, f: Faults)
      requires OnTrack() && id in pcs && pcs[id] == RollingBack(k, staged) && id !in dirs && k in stages
      modifies this`dirs, this`stages, this`pcs, this`run
      ensures OnTrack() && id !in pcs
      ensures staged && !f.restoreOk ==> dirs == old(dirs) && stages == old(stages)
      ensures staged && f.restoreOk ==>
                old(stages)[k].inside.Some? && dirs == old(dirs)[id := old(stages)[k].inside.value]
      ensures !staged ==> dirs == old(dirs)
      ensures (!staged || f.restoreOk) && f.removeOk ==> stages.Keys == old(stages).Keys - {k}
    {
      if staged && !f.restoreOk {
        GiveUp(id);
        return;
      }
      PutBack(id, k, staged);
      Finish(id, k, f.removeOk);
    }

    method MakeStage(id: Id, k: nat)
      requires Inv(View()) && mode.Running? && id in known && id !in pcs && k !in stages
      modifies this`stages, this`pcs, this`from, this`run
      ensures OnTrack() && from == old(View()) && id in pcs && pcs[id] == Created(k)
      ensures stages == old(stages)[k := Stage(id, None)]
    {
      ghost var s := View();
      from, run := s, [];
      stages := stages[k := Stage(id, None)];
      pcs := pcs[id := Created(k)];
      Did(CreateStage(id, k), s);
    }

    /** ConfirmDeletion, once deletion has been prepared; k names the new stage. */
    method ConfirmDeletion(id: Id, k: nat, f: Faults) returns (ok: bool)
      requires Inv(View()) && mode.Running? && id in known && id !in pcs && k !in stages && (f.sqlOk ==> f.committed)
      modifies this
      ensures OnTrack() && from == old(View()) && id !in pcs
      ensures ok <==> (f.moveOk || id !in old(dirs)) && f.sqlOk
      ensures ok ==> id !in rows && id !in known && dirs == old(dirs) - {id}
      ensures !ok && (!f.moveOk || f.restoreOk) ==> dirs == old(dirs)
      ensures !ok && f.sqlOk ==> rows == old(rows)
    {
      MakeStage(id, k);
      if id in dirs && !f.moveOk {
        Finish(id, k, f.removeOk);
        return false;
      }
      DeleteStaged(id, k, f);
      return f.sqlOk;
    }

    method DeleteStaged(id: Id, k: nat, f: Faults)
      requires OnTrack() && id in pcs && pcs[id] == Created(k) && (f.sqlOk ==> f.committed)
      modifies this`dirs, this`stages, this`rows, this`known, this`pcs, this`run
      ensures OnTrack() && id !in pcs
      ensures f.sqlOk ==> id !in rows && id !in known && dirs == old(dirs) - {id}
      ensures !f.sqlOk && (f.restoreOk || id !in old(dirs)) ==> dirs == old(dirs)
    {
      ghost var was := dirs;
      var staged := id in dirs;
      MoveInstance(id, k);
      DeleteInstanceRow(id, k, staged, f.sqlOk, f.committed);
      if f.sqlOk { Finish(id, k, f.removeOk); } else { RollBack(id, k, staged, f); }
      assert id in was ==> (was - {id})[id := was[id]] == was;
    }
  }

  lemma {:induction false} Snoc(s: System, run: seq<Event>, e: Event)
    requires Possible(s, run) && Enabled(Run(s, run), e)
    ensures Possible(s, run + [e]) && Run(s, run + [e]) == Step(Run(s, run), e)
    decreases |run|
  {
    if run == [] {
      assert [e][1..] == [] && run + [e] == [e];
    } else {
      assert (run + [e])[1..] == run[1..] + [e];
      Snoc(Step(s, run[0]), run[1..], e);
    }
  }
}
