/** Whole runs of one group session: any interleaving of ingress, promotion, drops, resets and one background
    compaction at a time (internal/llm/group_compactor.go keeps a single request in flight per session).
    A ledger of history variables records what became of every accepted message. */
module CompactionRuns {
  import opened Text
  import opened GroupBuffer

  datatype Fate = Buffered | Evicted | Dropped | Summarised | RolledBack | Cleared

  /** The request in flight: its snapshot, the numbers of the messages in it, and the messages that the
      summary it starts from already stands for. */
  datatype Flight = Flight(snap: Snapshot, seqnos: seq<nat>, base: set<nat>)

  /** fate: what became of each accepted message; current and previous: the messages that the running
      summary and the stashed previous summary stand for. */
  datatype Ledger = Ledger(fate: map<nat, Fate>, current: set<nat>, previous: set<nat>)

  datatype System = System(session: Session, flight: Option<Flight>, ledger: Ledger)

  datatype Event =
    | EAppend(m: Message, staged: bool, max: int)
    | EPromote(seqno: nat, id: string)
    | EDescribe(seqno: nat, text: string)
    | EDrop(seqno: nat, id: string)
    | ETrigger(size: int)
    | ECommit(text: string, persisted: bool)
    | EFail
    | EResetSession
    | EResetCompaction

  const Init := System(EmptySession, None, Ledger(map[], {}, {}))

  // ---------- bookkeeping ----------

  /** Buffered messages that are no longer in the buffer got this fate. */
  function Settle(fate: map<nat, Fate>, buf: seq<Item>, cause: Fate): map<nat, Fate> {
    map n | n in fate :: if fate[n] == Buffered && !Holds(buf, n) then cause else fate[n]
  }

  function Mark(fate: map<nat, Fate>, which: set<nat>, f: Fate): map<nat, Fate> {
    map n | n in fate :: if n in which then f else fate[n]
  }

  function Seqnos(f: Flight): set<nat> { set n | n in f.seqnos }

  function ClearLedger(l: Ledger): Ledger {
    Ledger(map n | n in l.fate :: if l.fate[n] in {Buffered, Summarised} then Cleared else l.fate[n], {}, {})
  }

  // ---------- the steps ----------

  function AfterDrop(y: System, seqno: nat, rawId: string): System {
    var id := TrimSpace(rawId);
    if seqno == 0 && id == "" then y
    else
      var s := Drop(y.session, seqno, rawId);
      var fate := Settle(y.ledger.fate, s.buffer, Dropped);
      if Polluted(y.session, id)
      then System(s, y.flight, Ledger(Mark(fate, y.ledger.current - y.ledger.previous, RolledBack), y.ledger.previous,
                                      {}))
      else System(s, y.flight, y.ledger.(fate := fate))
  }

  function AfterTrigger(y: System, size: int): System {
    match TakeSnapshot(y.session, size)
    case Some(snap) =>
      EligiblePrefix(y.session.buffer);
      y.(flight := Some(Flight(snap, seq(|snap.ids|, i requires 0 <= i < |snap.ids| => y.session.buffer[i].seqno),
                               y.ledger.current)))
    case None => y
  }

  function AfterCommit(y: System, f: Flight, text: string, persisted: bool): System {
    if Committable(y.session, f.snap, text) && persisted
    then System(Commit(y.session, f.snap, text), None,
                Ledger(Mark(y.ledger.fate, Seqnos(f), Summarised), f.base + Seqnos(f), y.ledger.current))
    else y.(flight := None)
  }

  function Next(y: System, e: Event): System {
    match e
    case EAppend(m, staged, max) =>
      var s := Append(y.session, m, staged, max);
      if Blank(m.content) then y
      else y.(session := s, ledger := y.ledger.(fate := Settle(y.ledger.fate[s.lastSeq := Buffered], s.buffer,
                                                            Evicted)))
    case EPromote(seqno, id) => y.(session := Promote(y.session, seqno, id))
    case EDescribe(seqno, text) => y.(session := Describe(y.session, seqno, text))
    case EDrop(seqno, id) => AfterDrop(y, seqno, id)
    case ETrigger(size) => if y.flight.Some? then y else AfterTrigger(y, size)
    case ECommit(text, persisted) => if y.flight.None? then y else AfterCommit(y, y.flight.value, text, persisted)
    case EFail => y.(flight := None)
    case EResetSession => y.(session := ClearForReset(y.session), ledger := ClearLedger(y.ledger))
    case EResetCompaction => y.(session := ClearCompaction(y.session), ledger := ClearLedger(y.ledger))
  }

  function Run(y: System, events: seq<Event>): System
    decreases |events|
  {
    if events == [] then y else Run(Next(y, events[0]), events[1..])
  }

  // ---------- what every step keeps ----------

  /** Every accepted message has exactly one fate; the buffered ones are exactly those in the buffer; the
      summarised ones are exactly those the running summary stands for. */
  ghost predicate Accounted(y: System) {
    var s, l := y.session, y.ledger;
    && BufferOk(s)
    && (forall n :: n in l.fate <==> 1 <= n <= s.lastSeq)
    && (forall n :: n in l.fate ==> (l.fate[n] == Buffered <==> Holds(s.buffer, n)))
    && (forall n :: n in l.current <==> n in l.fate && l.fate[n] == Summarised)
    && l.previous <= l.current
  }

  /** A request that can still commit started from the summary of today, holds only messages that nothing
      has deleted, and holds everything buffered up to its last number. */
  ghost predicate FlightOk(y: System) {
    y.flight.Some? ==>
      var s, f, l := y.session, y.flight.value, y.ledger;
      && f.snap.generation <= s.generation
      && f.snap.through <= s.lastSeq
      && (f.snap.generation == s.generation ==>
        && f.base == l.current && f.snap.summary == s.summary
        && (forall n :: n in f.seqnos ==> n in l.fate && n <= f.snap.through && l.fate[n] in {Buffered, Evicted})
        && (forall it :: it in s.buffer && it.seqno <= f.snap.through ==> !it.staged && it.seqno in f.seqnos))
  }

  ghost predicate Inv(y: System) { Accounted(y) && FlightOk(y) }

  lemma AppendShape(s: Session, m: Message, staged: bool, max: int)
    requires BufferOk(s) && !Blank(m.content)
    ensures var z := Append(s, m, staged, max);
      && z == s.(buffer := z.buffer, lastSeq := s.lastSeq + 1) && BufferOk(z)
      && (forall it :: it in z.buffer ==> it.seqno == s.lastSeq + 1 || it in s.buffer)
  {
    var longer := s.buffer + [Item(s.lastSeq + 1, WithRole(m), staged)];
    EvictKeepsOrder(longer, Bound(max));
  }

  lemma AppendKeeps(y: System, m: Message, staged: bool, max: int)
    requires Inv(y) && !Blank(m.content)
    ensures Inv(Next(y, EAppend(m, staged, max)))
  {
    AppendShape(y.session, m, staged, max);
  }

  /** Steps that change only the flags or texts of staged items keep the account. */
  lemma RelabelKeeps(y: System, z: System)
    requires Inv(y)
    requires z == y.(session := y.session.(buffer := z.session.buffer)) && |z.session.buffer| == |y.session.buffer|
    requires forall i :: 0 <= i < |y.session.buffer| ==> z.session.buffer[i].seqno == y.session.buffer[i].seqno
    requires forall i :: 0 <= i < |y.session.buffer| && !y.session.buffer[i].staged ==>
               z.session.buffer[i] == y.session.buffer[i]
    ensures Inv(z)
  {
    var a, b := y.session.buffer, z.session.buffer;
    forall n ensures Holds(b, n) == Holds(a, n) {
      assert (exists i :: 0 <= i < |b| && b[i].seqno == n) <==> (exists i :: 0 <= i < |a| && a[i].seqno == n);
    }
    forall it | it in b ensures 1 <= it.seqno <= z.session.lastSeq &&
        (it !in a ==> exists was :: was in a && was.staged && was.seqno == it.seqno) {
      var i :| 0 <= i < |b| && b[i] == it;
      assert a[i] in a;
    }
  }

  lemma DropKeeps(y: System, seqno: nat, rawId: string)
    requires Inv(y)
    ensures Inv(AfterDrop(y, seqno, rawId))
  {
    WithoutShape(y.session.buffer, seqno, TrimSpace(rawId));
  }

  lemma TriggerKeeps(y: System, size: int)
    requires Inv(y) && y.flight.None?
    ensures Inv(AfterTrigger(y, size))
  {
    EligiblePrefix(y.session.buffer);
    var z := AfterTrigger(y, size);
    if z.flight.Some? {
      var f, buf := z.flight.value, y.session.buffer;
      forall n | n in f.seqnos ensures n in y.ledger.fate && n <= f.snap.through && y.ledger.fate[n] == Buffered {
        var i :| 0 <= i < |f.seqnos| && f.seqnos[i] == n;
        assert buf[i] in buf && Holds(buf, n);
      }
      forall it | it in buf && it.seqno <= f.snap.through ensures !it.staged && it.seqno in f.seqnos {
        var i :| 0 <= i < |buf| && buf[i] == it;
        assert f.seqnos[i] == it.seqno;
      }
    }
  }

  lemma CommitKeeps(y: System, text: string, persisted: bool)
    requires Inv(y) && y.flight.Some?
    ensures Inv(AfterCommit(y, y.flight.value, text, persisted))
  {
    AfterShape(y.session.buffer, y.flight.value.snap.through);
  }

  lemma StepKeeps(y: System, e: Event)
    requires Inv(y)
    ensures Inv(Next(y, e))
  {
    match e
    case EAppend(m, staged, max) => if !Blank(m.content) { AppendKeeps(y, m, staged, max); }
    case EPromote(seqno, id) => RelabelKeeps(y, Next(y, e));
    case EDescribe(seqno, text) => RelabelKeeps(y, Next(y, e));
    case EDrop(seqno, id) => DropKeeps(y, seqno, id);
    case ETrigger(size) => if y.flight.None? { TriggerKeeps(y, size); }
    case ECommit(text, persisted) => if y.flight.Some? { CommitKeeps(y, text, persisted); }
    case EFail =>
    case EResetSession =>
    case EResetCompaction =>
  }

  lemma {:induction false} RunKeeps(y: System, events: seq<Event>)
    requires Inv(y)
    ensures Inv(Run(y, events))
    decreases |events|
  {
    if events != [] {
      StepKeeps(y, events[0]);
      RunKeeps(Next(y, events[0]), events[1..]);
    }
  }

  /** Nothing is lost silently.  In every run, each accepted message is in the buffer, or stands in the running
      summary, or was evicted, dropped, rolled back or cleared by a step that did just that. */
  lemma NothingLost(events: seq<Event>, n: nat)
    requires 1 <= n <= Run(Init, events).session.lastSeq
    ensures var y := Run(Init, events);
      && n in y.ledger.fate
      && (y.ledger.fate[n] == Buffered <==> Holds(y.session.buffer, n))
      && (y.ledger.fate[n] == Summarised <==> n in y.ledger.current)
  {
    RunKeeps(Init, events);
  }

  lemma CommitSplits(y: System, text: string)
    requires Inv(y) && y.flight.Some? && Committable(y.session, y.flight.value.snap, text)
    ensures var z := Next(y, ECommit(text, true));
      && z.session.buffer == After(y.session.buffer, y.flight.value.snap.through)
      && z.ledger.current == y.ledger.current + Seqnos(y.flight.value)
  {}

  /** A commit in any run removes only committed messages of its own snapshot, keeps every staged or later
      message in place, and its summary extends the summary that was running. */
  lemma CommitTakesOnlyItsSnapshot(events: seq<Event>, text: string)
    requires var y := Run(Init, events); y.flight.Some? && Committable(y.session, y.flight.value.snap, text)
    ensures var y := Run(Init, events);
      var z := Next(y, ECommit(text, true));
      var f := y.flight.value;
      && (forall it :: it in y.session.buffer && it !in z.session.buffer ==> !it.staged && it.seqno in f.seqnos)
      && (forall it :: it in y.session.buffer && (it.staged || it.seqno > f.snap.through) ==> it in z.session.buffer)
      && (forall it :: it in z.session.buffer ==> it in y.session.buffer)
      && f.snap.summary == y.session.summary
      && z.ledger.current == y.ledger.current + Seqnos(f)
  {
    RunKeeps(Init, events);
    var y := Run(Init, events);
    AfterShape(y.session.buffer, y.flight.value.snap.through);
    CommitSplits(y, text);
  }

  // ---------- deletions are final ----------

  predicate Gone(f: Fate) { f in {Dropped, RolledBack, Cleared} }

  lemma StepKeepsGone(y: System, e: Event, n: nat)
    requires Inv(y) && n in y.ledger.fate && Gone(y.ledger.fate[n])
    ensures n in Next(y, e).ledger.fate && Next(y, e).ledger.fate[n] == y.ledger.fate[n]
  {}

  /** What a drop, a roll-back or a reset took away never returns to the buffer or to a summary. */
  lemma {:induction false} DeletedStaysDeleted(y: System, events: seq<Event>, n: nat)
    requires Inv(y) && n in y.ledger.fate && Gone(y.ledger.fate[n])
    ensures var z := Run(y, events); n in z.ledger.fate && !Holds(z.session.buffer, n) && n !in z.ledger.current
    decreases |events|
  {
    if events != [] {
      StepKeeps(y, events[0]);
      StepKeepsGone(y, events[0], n);
      DeletedStaysDeleted(Next(y, events[0]), events[1..], n);
    }
  }

  lemma StepKeepsOut(y: System, e: Event, n: nat)
    requires Inv(y) && n in y.ledger.fate && y.ledger.fate[n] != Buffered
    ensures n in Next(y, e).ledger.fate && Next(y, e).ledger.fate[n] != Buffered
  {}

  predicate InFlight(y: System, n: nat) { y.flight.Some? && n in y.flight.value.seqnos }

  lemma TriggerTakesBuffered(y: System, size: int, n: nat)
    requires Inv(y) && y.flight.None? && InFlight(AfterTrigger(y, size), n)
    ensures n in y.ledger.fate && y.ledger.fate[n] == Buffered
  {
    EligiblePrefix(y.session.buffer);
    var f, buf := AfterTrigger(y, size).flight.value, y.session.buffer;
    var i :| 0 <= i < |f.seqnos| && f.seqnos[i] == n;
    assert buf[i] in buf && Holds(buf, n);
  }

  lemma StepKeepsEvicted(y: System, e: Event, n: nat)
    requires Inv(y) && n in y.ledger.fate && y.ledger.fate[n] == Evicted
    ensures var z := Next(y, e);
      && n in z.ledger.fate && (InFlight(z, n) ==> InFlight(y, n))
      && (z.ledger.fate[n] == Evicted || (z.ledger.fate[n] == Summarised && e.ECommit? && InFlight(y, n)))
  {
    if e.ETrigger? && y.flight.None? && InFlight(Next(y, e), n) { TriggerTakesBuffered(y, e.size, n); }
  }

  /** An evicted message never returns to the buffer; it reaches a summary only through the request that was in flight
      with it when it was evicted, and without one it stays evicted for good. */
  lemma {:induction false} EvictedStaysOut(y: System, events: seq<Event>, n: nat)
    requires Inv(y) && n in y.ledger.fate && y.ledger.fate[n] == Evicted
    ensures var z := Run(y, events);
      && n in z.ledger.fate && !Holds(z.session.buffer, n)
      && (!InFlight(y, n) ==> z.ledger.fate[n] == Evicted && n !in z.ledger.current)
    decreases |events|
  {
    if events != [] {
      var u := Next(y, events[0]);
      StepKeeps(y, events[0]);
      StepKeepsEvicted(y, events[0], n);
      if u.ledger.fate[n] == Evicted {
        EvictedStaysOut(u, events[1..], n);
      } else {
        OutStaysOut(u, events[1..], n);
      }
    }
  }

  lemma {:induction false} OutStaysOut(y: System, events: seq<Event>, n: nat)
    requires Inv(y) && n in y.ledger.fate && y.ledger.fate[n] != Buffered
    ensures var z := Run(y, events); n in z.ledger.fate && !Holds(z.session.buffer, n)
    decreases |events|
  {
    if events != [] {
      StepKeeps(y, events[0]);
      StepKeepsOut(y, events[0], n);
      OutStaysOut(Next(y, events[0]), events[1..], n);
    }
  }

  // ---------- the ceiling ----------

  /** The ceiling of the latest accepted append, or what was in force before. */
  function Ceiling(events: seq<Event>, before: nat): nat
    decreases |events|
  {
    if events == [] then before else Ceiling(events[1..], CeilingAfter(events[0], before))
  }

  function CeilingAfter(e: Event, before: nat): nat {
    if e.EAppend? && !Blank(e.m.content) then Bound(e.max) else before
  }

  lemma StepKeepsCeiling(y: System, e: Event, max: nat)
    requires Inv(y) && |y.session.buffer| <= max
    ensures |Next(y, e).session.buffer| <= CeilingAfter(e, max)
  {
    match e
    case EAppend(m, staged, own) =>
      if !Blank(m.content) {
        EvictionMeetsOutcome(y.session.buffer + [Item(y.session.lastSeq + 1, WithRole(m), staged)], Bound(own));
      }
    case EDrop(seqno, id) => WithoutShorter(y.session.buffer, seqno, TrimSpace(id));
    case ECommit(text, persisted) => if y.flight.Some? { AfterShorter(y.session.buffer, y.flight.value.snap.through); }
    case _ =>
  }

  lemma {:induction false} WithoutShorter(buf: seq<Item>, seqno: nat, id: string)
    ensures |Without(buf, seqno, id)| <= |buf|
  {
    if buf != [] { WithoutShorter(buf[1..], seqno, id); }
  }

  lemma {:induction false} AfterShorter(buf: seq<Item>, through: nat)
    ensures |After(buf, through)| <= |buf|
  {
    if buf != [] && buf[0].seqno <= through { AfterShorter(buf[1..], through); }
  }

  lemma {:induction false} CeilingKept(y: System, events: seq<Event>, max: nat)
    requires Inv(y) && |y.session.buffer| <= max
    ensures |Run(y, events).session.buffer| <= Ceiling(events, max)
    decreases |events|
  {
    if events != [] {
      StepKeeps(y, events[0]);
      StepKeepsCeiling(y, events[0], max);
      CeilingKept(Next(y, events[0]), events[1..], CeilingAfter(events[0], max));
    }
  }

  /** Every append brings its own ceiling; in every run the buffer stays within that of the latest accepted one. */
  lemma CeilingHolds(events: seq<Event>)
    ensures |Run(Init, events).session.buffer| <= Ceiling(events, 0)
  {
    CeilingKept(Init, events, 0);
  }

  // ---------- dropping a message ----------

  lemma StepKeepsStale(y: System, e: Event, g: nat)
    requires g < y.session.generation
    ensures g < Next(y, e).session.generation
  {}

  /** After a drop with a message ID, in any continuation: a snapshot taken before it cannot commit. */
  lemma {:induction false} StaleSnapshotNeverCommits(y: System, events: seq<Event>, snap: Snapshot, text: string)
    requires snap.generation < y.session.generation
    ensures !Committable(Run(y, events).session, snap, text)
    decreases |events|
  {
    if events != [] {
      StepKeepsStale(y, events[0], snap.generation);
      StaleSnapshotNeverCommits(Next(y, events[0]), events[1..], snap, text);
    }
  }

  /** The latest batch that the session has recorded: its message IDs, and what was there right before it. */
  datatype Batch = Batch(ids: seq<string>, summary: string, groups: seq<SummaryGroup>, current: set<nat>)

  predicate Commits(y: System, e: Event) {
    e.ECommit? && y.flight.Some? && Committable(y.session, y.flight.value.snap, e.text) && e.persisted
  }

  predicate RollsBack(y: System, e: Event) { e.EDrop? && Polluted(y.session, TrimSpace(e.id)) }

  /** A commit records a batch; a roll-back or a reset forgets it. */
  function BatchAfter(y: System, e: Event, before: Option<Batch>): Option<Batch> {
    if Commits(y, e) then Some(Batch(y.flight.value.snap.ids, y.session.summary, y.session.groups, y.ledger.current))
    else if RollsBack(y, e) || e.EResetSession? || e.EResetCompaction? then None
    else before
  }

  function LatestBatch(y: System, events: seq<Event>, before: Option<Batch>): Option<Batch>
    decreases |events|
  {
    if events == [] then before else LatestBatch(Next(y, events[0]), events[1..], BatchAfter(y, events[0], before))
  }

  /** The session still has what it takes to undo the batch, and its mapping is of that batch alone. */
  predicate Recorded(y: System, b: Batch) {
    var s := y.session;
    && s.lastIds == b.ids && s.prevSummary == b.summary && s.prevGroups == b.groups && y.ledger.previous == b.current
    && |s.groups| == 1 && s.groups[0].ids == b.ids
  }

  lemma StepKeepsRecorded(y: System, e: Event, before: Option<Batch>)
    requires before.Some? ==> Recorded(y, before.value)
    ensures var after := BatchAfter(y, e, before); after.Some? ==> Recorded(Next(y, e), after.value)
  {}

  lemma {:induction false} BatchIsRecorded(y: System, events: seq<Event>, before: Option<Batch>)
    requires before.Some? ==> Recorded(y, before.value)
    ensures var after := LatestBatch(y, events, before); after.Some? ==> Recorded(Run(y, events), after.value)
    decreases |events|
  {
    if events != [] {
      StepKeepsRecorded(y, events[0], before);
      BatchIsRecorded(Next(y, events[0]), events[1..], BatchAfter(y, events[0], before));
    }
  }

  /** In every run, however much has been appended, promoted, described, dropped or begun since: while a batch is
      recorded, a drop (by number or not) of one of its messages gives back exactly the summary, the mapping and the
      account from right before that batch, and a drop with any other ID leaves all three as they are. */
  lemma DropUndoesLatestBatch(events: seq<Event>, seqno: nat, id: string)
    requires LatestBatch(Init, events, None).Some? && TrimSpace(id) != ""
    ensures var b, y := LatestBatch(Init, events, None).value, Run(Init, events);
      var z := Next(y, EDrop(seqno, id));
      if TrimSpace(id) in b.ids
      then z.session.summary == b.summary && z.session.groups == b.groups && z.ledger.current == b.current
      else z.session.summary == y.session.summary && z.session.groups == y.session.groups &&
           z.ledger.current == y.ledger.current
  {
    BatchIsRecorded(Init, events, None);
    DropOfRecorded(Run(Init, events), LatestBatch(Init, events, None).value, seqno, id);
  }

  lemma DropOfRecorded(y: System, b: Batch, seqno: nat, id: string)
    requires Recorded(y, b) && TrimSpace(id) != ""
    ensures Polluted(y.session, TrimSpace(id)) <==> TrimSpace(id) in b.ids
    ensures var z := Next(y, EDrop(seqno, id));
      if TrimSpace(id) in b.ids
      then z.session.summary == b.summary && z.session.groups == b.groups && z.ledger.current == b.current
      else z.session.summary == y.session.summary && z.session.groups == y.session.groups &&
           z.ledger.current == y.ledger.current
  {}
}
