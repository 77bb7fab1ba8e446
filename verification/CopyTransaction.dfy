/** Copying one instance's configuration over another's (internal/instance/copy_transaction.go and Manager.Copy): a
    journal, a stage directory, and recovery after a crash.  Items are the credentials followed by the config files.  A
    file is replaced by a rename, visible at once but durable only after the directory is synced; until then a power
    loss may bring back any content the entry has had since the last sync. */
module CopyTransaction {
  import opened Text

  type Content = string
  type Token = nat

  datatype Journal = NoJournal | Preparing(token: Token) | Committing(token: Token) | Applied(token: Token)

  /** A directory entry: what is there now, and what a power loss may leave. */
  datatype Cell<T(==)> = Cell(now: T, could: set<T>)

  function Rename<T(==)>(c: Cell<T>, v: T): Cell<T> { Cell(v, c.could + {v}) }

  function Synced<T(==)>(c: Cell<T>): Cell<T> { Cell(c.now, {c.now}) }

  function SyncAll<T(==)>(cs: seq<Cell<T>>): seq<Cell<T>> { seq(|cs|, i requires 0 <= i < |cs| => Synced(cs[i])) }

  datatype Pc =
    | Idle
    | Began
    | Staging(i: nat)
    | StageWritten(i: nat)
    | Marked
    | Aborting(token: Token)
    | Installing(i: nat)
    | Installed(i: nat)
    | Finishing(token: Token)
    | Cleaning(token: Token)

  /** The disk and the running procedure; token, before and after belong to the latest transaction. */
  datatype System = System(
    journal: Cell<Journal>,
    items: seq<Cell<Content>>,
    stage: seq<Cell<Option<Content>>>,
    credentials: nat,
    pc: Pc,
    token: Token,
    before: seq<Content>,
    after: seq<Content>)

  datatype Event =
    | Begin(token: Token, after: seq<Content>)
    | SyncDirectory
    | StageItem
    | SyncStage
    | MarkCommitting
    | Recover
    | Install
    | MarkApplied
    | RemoveStaged(gone: set<nat>)
    | RemoveJournal
    | Fail
    | Crash
    | PowerLoss(journal: Journal, items: seq<Content>, stage: seq<Option<Content>>)

  predicate Enabled(s: System, e: Event) {
    match e
    case Begin(token, after) => s.pc.Idle? && s.journal.now.NoJournal? && token > s.token && |after| == |s.items|
    case SyncDirectory => s.pc.Began? || s.pc.Marked? || s.pc.Installed? || s.pc.Finishing?
    case StageItem => s.pc.Staging? && s.pc.i < |s.stage| && s.pc.i < |s.after|
    case SyncStage => s.pc.StageWritten?
    case MarkCommitting => s.pc.Staging? && s.pc.i == |s.stage|
    case Recover => s.pc.Idle? && !s.journal.now.NoJournal?
    case Install => s.pc.Installing? && s.pc.i < |s.items| && s.pc.i < |s.stage|
    case MarkApplied => s.pc.Installing? && s.pc.i == |s.items|
    case RemoveStaged(_) => s.pc.Aborting? || s.pc.Cleaning?
    case RemoveJournal =>
      (s.pc.Aborting? || s.pc.Cleaning?) && (s.pc.token == s.token ==> forall c <- s.stage :: c.now.None?)
    case Fail => true
    case Crash => true
    case PowerLoss(journal, items, stage) =>
      && journal in s.journal.could
      && |items| == |s.items| && (forall i :: 0 <= i < |items| ==> items[i] in s.items[i].could)
      && |stage| == |s.stage| && (forall i :: 0 <= i < |stage| ==> stage[i] in s.stage[i].could)
  }

  function AllDurable<T(==)>(vs: seq<T>): seq<Cell<T>> { seq(|vs|, i requires 0 <= i < |vs| => Cell(vs[i], {vs[i]})) }

  function Now<T(==)>(cs: seq<Cell<T>>): seq<T> { seq(|cs|, i requires 0 <= i < |cs| => cs[i].now) }

  function Step(s: System, e: Event): System
    requires Enabled(s, e)
  {
    match e
    case Begin(token, after) =>
      s.(journal := Rename(s.journal, Preparing(token)), stage := AllDurable(seq(|after|, i => None)),
         pc := Began, token := token, before := Now(s.items), after := after)
    case SyncDirectory =>
      s.(journal := Synced(s.journal), items := SyncAll(s.items),
         pc := match s.pc
               case Began => Staging(0)
               case Installed(i) => Installing(i + 1)
               case Finishing(t) => Cleaning(t)
               case _ => Idle)
    case StageItem =>
      var i := s.pc.i;
      s.(stage := s.stage[i := Rename(s.stage[i], Some(s.after[i]))], pc := StageWritten(i))
    case SyncStage => s.(stage := SyncAll(s.stage), pc := Staging(s.pc.i + 1))
    case MarkCommitting => s.(journal := Rename(s.journal, Committing(s.token)), pc := Marked)
    case Recover =>
      (match s.journal.now
       case Preparing(t) => s.(pc := Aborting(t))
       case Committing(t) => s.(pc := Installing(0))
       case Applied(t) => s.(journal := Rename(s.journal, Applied(t)), pc := Finishing(t))
       case NoJournal => s)
    case Install =>
      var i := s.pc.i;
      (match s.stage[i].now
       case None => s.(pc := if i == |s.items| - 1 then Installing(i + 1) else Idle)
       case Some(v) =>
         if i < s.credentials then s.(items := s.items[i := Cell(v, {v})], pc := Installing(i + 1))
         else s.(items := s.items[i := Rename(s.items[i], v)], pc := Installed(i)))
    case MarkApplied => s.(journal := Rename(s.journal, Applied(s.token)), pc := Finishing(s.token))
    case RemoveStaged(gone) =>
      if s.pc.token != s.token then s
      else s.(stage := seq(|s.stage|, i requires 0 <= i < |s.stage| =>
                               if i in gone then Rename(s.stage[i], None) else s.stage[i]))
    case RemoveJournal => s.(journal := Rename(s.journal, NoJournal), pc := Idle)
    case Fail => s.(pc := if s.pc.Began? || s.pc.Staging? || s.pc.StageWritten? then Aborting(s.token) else Idle)
    case Crash => s.(pc := Idle)
    case PowerLoss(journal, items, stage) =>
      s.(journal := Cell(journal, {journal}), items := AllDurable(items), stage := AllDurable(stage), pc := Idle)
  }

  // ---------- invariant ----------

  /** What has to be reckoned with: every content a power loss may leave, or only the visible one where power losses are
      not considered. */
  function Reckoned<T(==)>(c: Cell<T>, power: bool): set<T> { if power then c.could else {c.now} }

  predicate Is(s: System, xs: seq<Content>, power: bool) {
    |xs| == |s.items| && forall i :: 0 <= i < |xs| ==> Reckoned(s.items[i], power) == {xs[i]}
  }

  predicate StagedUpTo(s: System, n: nat, power: bool) {
    n <= |s.stage| && |s.after| == |s.stage| && forall i :: 0 <= i < n ==>
          Reckoned(s.stage[i], power) == {Some(s.after[i])}
  }

  predicate EachBeforeOrAfter(s: System, power: bool) {
    && |s.before| == |s.after| == |s.items|
    && forall i :: 0 <= i < |s.items| ==> Reckoned(s.items[i], power) <= {s.before[i], s.after[i]}
  }

  predicate InstalledUpTo(s: System, n: nat, power: bool) {
    n <= |s.items| && |s.after| == |s.items| && forall i :: 0 <= i < n ==> Reckoned(s.items[i], power) == {s.after[i]}
  }

  predicate Shape(s: System) {
    && |s.stage| == |s.items| == |s.before| == |s.after|
    && s.journal.now in s.journal.could
    && (forall i :: 0 <= i < |s.items| ==> s.items[i].now in s.items[i].could)
    && (forall i :: 0 <= i < |s.stage| ==> s.stage[i].now in s.stage[i].could)
  }

  predicate JournalOk(s: System, j: Journal, power: bool) {
    match j
    case NoJournal => Is(s, s.before, power) || Is(s, s.after, power)
    case Preparing(t) =>
      if t == s.token then Is(s, s.before, power) else t < s.token && (Is(s, s.before, power) || Is(s, s.after, power))
    case Committing(t) => t == s.token && EachBeforeOrAfter(s, power) && StagedUpTo(s, |s.stage|, power)
    case Applied(t) =>
      if t == s.token then Is(s, s.after, power) else t < s.token && (Is(s, s.before, power) || Is(s, s.after, power))
  }

  predicate PcOk(s: System, power: bool) {
    var js := Reckoned(s.journal, power);
    match s.pc
    case Idle => true
    case Began => s.journal.now == Preparing(s.token)
    case Staging(i) => js == {Preparing(s.token)} && StagedUpTo(s, i, power)
    case StageWritten(i) =>
      js == {Preparing(s.token)} && StagedUpTo(s, i, power) && i < |s.stage| && s.stage[i].now == Some(s.after[i])
    case Marked => s.journal.now == Committing(s.token)
    case Aborting(t) => s.journal.now == Preparing(t)
    case Installing(i) => js == {Committing(s.token)} && InstalledUpTo(s, i, power)
    case Installed(i) =>
      js == {Committing(s.token)} && InstalledUpTo(s, i, power) && i < |s.items| && s.items[i].now == s.after[i]
    case Finishing(t) => s.journal.now == Applied(t)
    case Cleaning(t) => js == {Applied(t)}
  }

  predicate Inv(s: System, power: bool) {
    && Shape(s)
    && (forall j <- Reckoned(s.journal, power) :: JournalOk(s, j, power))
    && (s.journal.now.NoJournal? || s.journal.now.Preparing? ==> Committing(s.token) !in Reckoned(s.journal, power))
    && (s.journal.now == Committing(s.token) ==>
          Reckoned(s.journal, power) <= {Preparing(s.token), Committing(s.token)})
    && PcOk(s, power)
  }

  /** Recovery goes forward only once the committing marker is the only journal that has to be reckoned with. */
  predicate Guarded(s: System, e: Event, power: bool) {
    && (e.PowerLoss? ==> power)
    && (e.Recover? && s.journal.now.Committing? ==> Reckoned(s.journal, power) == {s.journal.now})
  }

  lemma BeginKeeps(s: System, e: Event, power: bool)
    requires Inv(s, power) && Enabled(s, e) && e.Begin?
    ensures Inv(Step(s, e), power)
  {
    var t := Step(s, e);
    assert forall xs :: Is(s, xs, power) ==> xs == Now(s.items) by {
      forall xs | Is(s, xs, power) ensures xs == Now(s.items) {
        assert forall i :: 0 <= i < |xs| ==> s.items[i].now in Reckoned(s.items[i], power);
      }
    }
    assert JournalOk(s, NoJournal, power);
    assert Is(t, t.before, power);
    assert forall j <- Reckoned(s.journal, power) :: JournalOk(t, j, power);
  }

  lemma SyncKeeps(s: System, e: Event, power: bool)
    requires Inv(s, power) && Enabled(s, e) && e.SyncDirectory?
    ensures Inv(Step(s, e), power)
  {
    var t := Step(s, e);
    SyncKeepsJournal(s, t, s.journal.now, power);
  }

  lemma SyncKeepsJournal(s: System, t: System, j: Journal, power: bool)
    requires Shape(s) && JournalOk(s, j, power)
    requires t == s.(journal := t.journal, items := SyncAll(s.items), pc := t.pc)
    ensures JournalOk(t, j, power)
  {
    assert forall i :: 0 <= i < |s.items| ==> t.items[i].now in Reckoned(s.items[i], power);
    assert Is(s, s.before, power) ==> Is(t, t.before, power);
    assert Is(s, s.after, power) ==> Is(t, t.after, power);
  }

  /** Items, before and after stay as they are, and so does a stage that a commit may need. */
  lemma SameItemsSameJournal(s: System, t: System, j: Journal, power: bool)
    requires JournalOk(s, j, power)
    requires t.items == s.items && t.before == s.before && t.after == s.after && t.token == s.token
    requires |t.stage| == |s.stage| && (j.Committing? ==> t.stage == s.stage)
    ensures JournalOk(t, j, power)
  {
  }

  lemma StagingKeeps(s: System, e: Event, power: bool)
    requires Inv(s, power) && Enabled(s, e) && (e.StageItem? || e.SyncStage? || e.RemoveStaged?)
    ensures Inv(Step(s, e), power)
  {
    var t := Step(s, e);
    forall j <- Reckoned(t.journal, power) ensures JournalOk(t, j, power) {
      assert JournalOk(s, j, power);
      if !(j.Committing? && t.stage == s.stage) { SameItemsSameJournal(s, t, j, power); }
    }
  }

  lemma JournalWriteKeeps(s: System, e: Event, power: bool)
    requires Inv(s, power) && Enabled(s, e) && Guarded(s, e, power)
    requires e.MarkCommitting? || e.Recover? || e.MarkApplied? || e.RemoveJournal? || e.Fail? || e.Crash?
    ensures Inv(Step(s, e), power)
  {
    var t := Step(s, e);
    forall j <- Reckoned(t.journal, power) ensures JournalOk(t, j, power) {
      if j in Reckoned(s.journal, power) {
        SameItemsSameJournal(s, t, j, power);
      } else {
        WrittenJournal(s, e, power);
      }
    }
  }

  lemma WrittenJournal(s: System, e: Event, power: bool)
    requires Inv(s, power) && Enabled(s, e)
    requires e.MarkCommitting? || e.Recover? || e.MarkApplied? || e.RemoveJournal?
    ensures JournalOk(Step(s, e), Step(s, e).journal.now, power)
  {
    assert JournalOk(s, s.journal.now, power);
  }

  lemma InstallKeeps(s: System, e: Event, power: bool)
    requires Inv(s, power) && Enabled(s, e) && e.Install?
    ensures Inv(Step(s, e), power)
  {
    assert JournalOk(s, Committing(s.token), power);
    var i := s.pc.i;
    assert Reckoned(s.stage[i], power) == {Some(s.after[i])};
    assert s.stage[i].now in Reckoned(s.stage[i], power);
  }

  lemma PowerLossKeeps(s: System, e: Event)
    requires Inv(s, true) && Enabled(s, e) && e.PowerLoss?
    ensures Inv(Step(s, e), true)
  {
    var t := Step(s, e);
    assert forall i :: 0 <= i < |s.items| ==> t.items[i].could <= s.items[i].could;
    assert forall i :: 0 <= i < |s.stage| ==> t.stage[i].could <= s.stage[i].could;
    assert JournalOk(s, e.journal, true);
    assert Is(s, s.before, true) ==> Is(t, t.before, true);
    assert Is(s, s.after, true) ==> Is(t, t.after, true);
    assert JournalOk(t, e.journal, true);
  }

  lemma StepKeeps(s: System, e: Event, power: bool)
    requires Inv(s, power) && Enabled(s, e) && Guarded(s, e, power)
    ensures Inv(Step(s, e), power)
  {
    match e
    case Begin(_, _) => BeginKeeps(s, e, power);
    case SyncDirectory => SyncKeeps(s, e, power);
    case StageItem => StagingKeeps(s, e, power);
    case SyncStage => StagingKeeps(s, e, power);
    case RemoveStaged(_) => StagingKeeps(s, e, power);
    case Install => InstallKeeps(s, e, power);
    case PowerLoss(_, _, _) => PowerLossKeeps(s, e);
    case _ => JournalWriteKeeps(s, e, power);
  }

  // ---------- whole runs ----------

  predicate Possible(s: System, run: seq<Event>)
    decreases |run|
  {
    run == [] || (Enabled(s, run[0]) && Possible(Step(s, run[0]), run[1..]))
  }

  function Run(s: System, run: seq<Event>): System
    requires Possible(s, run)
    decreases |run|
  {
    if run == [] then s else Run(Step(s, run[0]), run[1..])
  }

  predicate AllGuarded(s: System, run: seq<Event>, power: bool)
    requires Possible(s, run)
    decreases |run|
  {
    run == [] || (Guarded(s, run[0], power) && AllGuarded(Step(s, run[0]), run[1..], power))
  }

  /** No transaction is open, and the items are exactly those before or exactly those after the latest one. */
  predicate Coherent(s: System) { s.journal.now.NoJournal? ==> Now(s.items) == s.before || Now(s.items) == s.after }

  lemma {:induction false} RunKeeps(s: System, run: seq<Event>, power: bool)
    requires Inv(s, power) && Possible(s, run) && AllGuarded(s, run, power)
    ensures Inv(Run(s, run), power)
    decreases |run|
  {
    if run != [] {
      StepKeeps(s, run[0], power);
      RunKeeps(Step(s, run[0]), run[1..], power);
    }
  }

  lemma InvIsCoherent(s: System, power: bool)
    requires Inv(s, power)
    ensures Coherent(s)
  {
    if s.journal.now.NoJournal? {
      assert JournalOk(s, NoJournal, power);
      assert forall i :: 0 <= i < |s.items| ==> s.items[i].now in Reckoned(s.items[i], power);
      assert Is(s, s.before, power) ==> Now(s.items) == s.before;
      assert Is(s, s.after, power) ==> Now(s.items) == s.after;
    }
  }

  /** A target on which no copy has been made yet. */
  function Fresh(items: seq<Content>, credentials: nat): System {
    System(Cell(NoJournal, {NoJournal}), AllDurable(items), AllDurable(seq(|items|, i => None)), credentials,
           Idle, 0, items, items)
  }

  predicate OnlyKills(run: seq<Event>) { forall e <- run :: !e.PowerLoss? }

  lemma {:induction false} KillsAreGuarded(s: System, run: seq<Event>)
    requires Possible(s, run) && OnlyKills(run)
    ensures AllGuarded(s, run, false)
    decreases |run|
  {
    if run != [] {
      assert run[0] in run;
      KillsAreGuarded(Step(s, run[0]), run[1..]);
    }
  }

  /** However often the process is killed, or an operation fails, at any point of any number of copies and recoveries:
      without a journal, the items are all old or all new; and while the journal says committing, every staged item is
      there with its new content. */
  lemma KilledRunsAreAllOrNothing(items: seq<Content>, credentials: nat, run: seq<Event>)
    requires var s := Fresh(items, credentials); Possible(s, run) && OnlyKills(run)
    ensures var t := Run(Fresh(items, credentials), run);
            Coherent(t) && (t.journal.now.Committing? ==>
                            Now(t.stage) == seq(|t.after|, i requires 0 <= i < |t.after| => Some(t.after[i])))
  {
    var s := Fresh(items, credentials);
    KillsAreGuarded(s, run);
    assert Is(s, items, false);
    RunKeeps(s, run, false);
    var t := Run(s, run);
    InvIsCoherent(t, false);
    if t.journal.now.Committing? {
      assert JournalOk(t, t.journal.now, false);
      assert forall i :: 0 <= i < |t.stage| ==> t.stage[i].now in Reckoned(t.stage[i], false);
    }
  }

  /** With power losses as well, the same holds of what is on the disk, as long as recovery goes forward only on a
      committing marker that is durable. */
  lemma GuardedRunsSurvivePowerLoss(items: seq<Content>, credentials: nat, run: seq<Event>)
    requires var s := Fresh(items, credentials); Possible(s, run) && AllGuarded(s, run, true)
    ensures var t := Run(Fresh(items, credentials), run);
            Coherent(t) && (Committing(t.token) in t.journal.could ==> StagedUpTo(t, |t.stage|, true))
  {
    var s := Fresh(items, credentials);
    assert Is(s, items, true);
    RunKeeps(s, run, true);
    var t := Run(s, run);
    InvIsCoherent(t, true);
    assert Committing(t.token) in t.journal.could ==> JournalOk(t, Committing(t.token), true);
  }

  lemma {:induction false} Snoc(s: System, run: seq<Event>, e: Event)
    requires Possible(s, run) && Enabled(Run(s, run), e)
    ensures Possible(s, run + [e]) && Run(s, run + [e]) == Step(Run(s, run), e)
    decreases |run|
  {
    if run == [] {
      assert [e][1..] == [] && run + [e] == [e];
    } else {
      assert (run + [e])[1..] == run[1..] + [e];
      Snoc(Step(s, run[0]), run[1..], e);
    }
  }

  // ---------- exactly when recovery may go forward ----------

  predicate NoBegin(run: seq<Event>) { forall e <- run :: !e.Begin? }

  predicate MarkerDurable(s: System) {
    && !s.pc.Began? && !s.pc.Staging? && !s.pc.StageWritten?
    && (s.journal.now.Committing? ==> s.journal.could == {s.journal.now})
  }

  lemma {:induction false} DurableMarkerSuffices(s: System, run: seq<Event>)
    requires Inv(s, true) && MarkerDurable(s) && Possible(s, run) && NoBegin(run)
    ensures Coherent(Run(s, run))
    decreases |run|
  {
    if run == [] {
      InvIsCoherent(s, true);
    } else {
      var e, rest := run[0], run[1..];
      assert e in run && forall x <- rest :: x in run;
      StepKeeps(s, e, true);
      assert MarkerDurable(Step(s, e));
      DurableMarkerSuffices(Step(s, e), rest);
    }
  }

  lemma Cons(s: System, e: Event, rest: seq<Event>)
    requires Enabled(s, e) && Possible(Step(s, e), rest)
    ensures Possible(s, [e] + rest) && Run(s, [e] + rest) == Run(Step(s, e), rest)
  {
    assert ([e] + rest)[1..] == rest;
  }

  function Indices(n: nat): (r: set<nat>)
    ensures forall i: nat :: i in r <==> i < n
  {
    if n == 0 then {} else Indices(n - 1) + {n - 1}
  }

  /** A recovery that finds a preparing marker gives up, and leaves the items alone. */
  lemma GivingUp(s: System) returns (run: seq<Event>)
    requires Shape(s) && s.pc.Idle? && s.journal.now == Preparing(s.token)
    ensures NoBegin(run) && Possible(s, run)
    ensures var t := Run(s, run);
            t.journal.now.NoJournal? && t.items == s.items && t.before == s.before && t.after == s.after
  {
    var s1 := Step(s, Recover);
    var gone := Indices(|s.stage|);
    var s2 := Step(s1, RemoveStaged(gone));
    assert forall i :: 0 <= i < |s2.stage| ==> s2.stage[i].now.None?;
    Cons(s2, RemoveJournal, []);
    Cons(s1, RemoveStaged(gone), [RemoveJournal] + []);
    run := [RemoveStaged(gone)] + ([RemoveJournal] + []);
    Cons(s, Recover, run);
    run := [Recover] + run;
  }

  predicate Differs(before: seq<Content>, after: seq<Content>, i: nat) {
    i < |before| && i < |after| && before[i] != after[i]
  }

  /** No mixture is possible. */
  predicate AtMostOneDiffers(s: System) {
    forall i, j | 0 <= i < |s.before| && 0 <= j < |s.before| ::
      Differs(s.before, s.after, i) && Differs(s.before, s.after, j) ==> i == j
  }

  /** The credentials and the first config file are not changed by this copy; installing that file syncs the directory,
      and so the marker, before anything else changes. */
  predicate FirstFileSame(s: System) {
    s.credentials < |s.items| && forall i :: 0 <= i <= s.credentials ==> !Differs(s.before, s.after, i)
  }

  // The marker may be lost, and nothing has changed yet.

  predicate Early(s: System) {
    && Inv(s.(pc := Idle), true) && FirstFileSame(s)
    && s.journal.now == Committing(s.token) && Preparing(s.token) in s.journal.could
    && match s.pc
       case Idle => true
       case Marked => true
       case Installing(i) => i <= s.credentials
       case Installed(i) => i <= s.credentials
       case _ => false
  }

  lemma EarlyIsBefore(s: System)
    requires Early(s)
    ensures Is(s, s.before, true) && |s.before| == |s.after| == |s.items| == |s.stage|
    ensures forall i :: 0 <= i < |s.stage| ==>
              s.stage[i].could == {Some(s.after[i])} && s.stage[i].now == Some(s.after[i])
    ensures forall i :: 0 <= i <= s.credentials ==> s.before[i] == s.after[i]
  {
    var idle := s.(pc := Idle);
    assert JournalOk(idle, Preparing(s.token), true) && JournalOk(idle, Committing(s.token), true);
    forall i | 0 <= i < |s.stage| ensures s.stage[i].could == {Some(s.after[i])} && s.stage[i].now == Some(s.after[i]) {
      assert Reckoned(idle.stage[i], true) == {Some(s.after[i])};
      assert idle.stage[i].now in idle.stage[i].could;
    }
    forall i | 0 <= i <= s.credentials ensures s.before[i] == s.after[i] { assert !Differs(s.before, s.after, i); }
  }

  lemma EarlySync(s: System)
    requires Early(s) && Enabled(s, SyncDirectory)
    ensures Inv(Step(s, SyncDirectory), true) && MarkerDurable(Step(s, SyncDirectory))
  {
    EarlyIsBefore(s);
    var marked := s.(pc := Marked);
    StepKeeps(marked, SyncDirectory, true);
    var t := Step(s, SyncDirectory);
    assert t.(pc := Idle) == Step(marked, SyncDirectory);
    if s.pc.Installed? {
      forall k | 0 <= k <= s.pc.i ensures Reckoned(t.items[k], true) == {t.after[k]} {
        assert s.items[k].now in s.items[k].could;
      }
    }
  }

  lemma EarlyInstall(s: System)
    requires Early(s) && Enabled(s, Install)
    ensures Early(Step(s, Install))
  {
    EarlyIsBefore(s);
    var i := s.pc.i;
    assert Reckoned(s.items[i], true) == {s.before[i]} && s.items[i].now in s.items[i].could;
    assert Rename(s.items[i], s.after[i]) == s.items[i] == Cell(s.after[i], {s.after[i]});
    assert Step(s, Install).items == s.items;
  }

  lemma EarlyStep(s: System, e: Event)
    requires Early(s) && Enabled(s, e) && !e.Begin?
    ensures Early(Step(s, e)) || (Inv(Step(s, e), true) && MarkerDurable(Step(s, e)))
  {
    match e
    case SyncDirectory => EarlySync(s);
    case Install => EarlyInstall(s);
    case PowerLoss(_, _, _) => PowerLossKeeps(s.(pc := Idle), e);
    case _ =>
  }

  lemma {:induction false} EarlySuffices(s: System, run: seq<Event>)
    requires Early(s) && Possible(s, run) && NoBegin(run)
    ensures Coherent(Run(s, run))
    decreases |run|
  {
    if run != [] {
      var e, rest := run[0], run[1..];
      assert e in run && forall x <- rest :: x in run;
      EarlyStep(s, e);
      if Early(Step(s, e)) { EarlySuffices(Step(s, e), rest); } else { DurableMarkerSuffices(Step(s, e), rest); }
    }
  }

  // Whatever is lost, each item is as before or as after.

  predicate Pointwise(s: System) {
    && Shape(s)
    && (forall i :: 0 <= i < |s.items| ==> s.items[i].could <= {s.before[i], s.after[i]})
    && (forall i :: 0 <= i < |s.stage| ==> s.stage[i].could <= {None, Some(s.after[i])})
  }

  lemma PointwiseStep(s: System, e: Event)
    requires Pointwise(s) && Enabled(s, e) && !e.Begin?
    ensures Pointwise(Step(s, e)) && Step(s, e).before == s.before && Step(s, e).after == s.after
  {
  }

  lemma PointwiseIsCoherent(s: System)
    requires Pointwise(s) && AtMostOneDiffers(s)
    ensures Coherent(s)
  {
    assert forall i :: 0 <= i < |s.items| ==> s.items[i].now in s.items[i].could;
    if Now(s.items) != s.before {
      var d :| 0 <= d < |s.items| && s.items[d].now != s.before[d];
      assert Differs(s.before, s.after, d);
      forall i | 0 <= i < |s.items| ensures s.items[i].now == s.after[i] {
        assert i != d ==> !Differs(s.before, s.after, i);
      }
      assert Now(s.items) == s.after;
    }
  }

  lemma {:induction false} PointwiseSuffices(s: System, run: seq<Event>)
    requires Pointwise(s) && AtMostOneDiffers(s) && Possible(s, run) && NoBegin(run)
    ensures Coherent(Run(s, run))
    decreases |run|
  {
    if run == [] {
      PointwiseIsCoherent(s);
    } else {
      var e, rest := run[0], run[1..];
      assert e in run && forall x <- rest :: x in run;
      PointwiseStep(s, e);
      PointwiseSuffices(Step(s, e), rest);
    }
  }

  // Otherwise the copy can end half done.

  lemma {:induction false} FirstDiffering(s: System, i: nat) returns (d: nat)
    requires Differs(s.before, s.after, i)
    ensures d <= i && Differs(s.before, s.after, d) && forall k :: 0 <= k < d ==> !Differs(s.before, s.after, k)
  {
    if exists k :: 0 <= k < i && Differs(s.before, s.after, k) {
      var k :| 0 <= k < i && Differs(s.before, s.after, k);
      d := FirstDiffering(s, k);
    } else {
      d := i;
    }
  }

  /** Installing credentials that do not change leaves everything as it is. */
  lemma {:induction false} InstallSame(s: System, d: nat) returns (run: seq<Event>)
    requires Shape(s) && Is(s, s.before, true) && s.pc.Installing? && s.pc.i <= d <= s.credentials && d < |s.items|
    requires forall i :: 0 <= i < |s.stage| ==> s.stage[i].now == Some(s.after[i])
    requires forall k :: 0 <= k < d ==> !Differs(s.before, s.after, k)
    ensures NoBegin(run) && Possible(s, run) && Run(s, run) == s.(pc := Installing(d))
    decreases d - s.pc.i
  {
    run := [];
    if s.pc.i < d {
      var i := s.pc.i;
      assert !Differs(s.before, s.after, i) && Reckoned(s.items[i], true) == {s.before[i]} &&
             s.items[i].now in s.items[i].could;
      var t := Step(s, Install);
      assert t.items == s.items;
      run := InstallSame(t, d);
      Cons(s, Install, run);
      run := [Install] + run;
    }
  }

  /** Everything up to the first change is installed, then the power fails and takes the marker along; the next recovery
      gives up. */
  lemma LostMarkerMixes(s: System, i: nat, j: nat) returns (run: seq<Event>)
    requires Inv(s, true) && s.pc.Idle? && s.journal.now == Committing(s.token) && !MarkerDurable(s)
    requires Differs(s.before, s.after, i) && i <= s.credentials &&
             (forall k :: 0 <= k < i ==> !Differs(s.before, s.after, k)) && Differs(s.before, s.after, j) && j != i
    ensures NoBegin(run) && Possible(s, run) && !Coherent(Run(s, run))
  {
    assert JournalOk(s, Preparing(s.token), true) && JournalOk(s, Committing(s.token), true);
    forall k | 0 <= k < |s.stage| ensures s.stage[k].now == Some(s.after[k]) {
      assert Reckoned(s.stage[k], true) == {Some(s.after[k])} && s.stage[k].now in s.stage[k].could;
    }
    assert Reckoned(s.items[j], true) == {s.before[j]} && s.items[j].now in s.items[j].could;
    var s1 := Step(s, Recover);
    var same := InstallSame(s1, i);
    var s2 := s1.(pc := Installing(i));
    run := MixedFrom(s2, i, j);
    Joined(s1, same, run);
    Cons(s, Recover, same + run);
    run := [Recover] + (same + run);
  }

  lemma MixedFrom(s: System, i: nat, j: nat) returns (run: seq<Event>)
    requires Shape(s) && s.pc == Installing(i) && i < |s.items| && s.stage[i].now == Some(s.after[i])
    requires Differs(s.before, s.after, i) && Differs(s.before, s.after, j) && i != j && j < |s.items| &&
             s.items[j].now == s.before[j]
    requires Preparing(s.token) in s.journal.could
    ensures NoBegin(run) && Possible(s, run) && !Coherent(Run(s, run))
  {
    var t := Step(s, Install);
    var loss := PowerLoss(Preparing(s.token), Now(t.items), Now(t.stage));
    var u := Step(t, loss);
    run := GivingUp(u);
    assert Now(Run(u, run).items)[i] == s.after[i] && Now(Run(u, run).items)[j] == s.before[j];
    Cons(t, loss, run);
    Cons(s, Install, [loss] + run);
    run := [Install] + ([loss] + run);
  }

  lemma {:induction false} Joined(s: System, a: seq<Event>, b: seq<Event>)
    requires Possible(s, a) && Possible(Run(s, a), b)
    ensures Possible(s, a + b) && Run(s, a + b) == Run(Run(s, a), b)
    decreases |a|
  {
    if a == [] {
      assert a + b == b;
    } else {
      assert (a + b)[1..] == a[1..] + b;
      Joined(Step(s, a[0]), a[1..], b);
    }
  }

  /** Whatever recoveries, kills, failures and power losses follow, the open transaction ends all old or all new if and
      only if its committing marker is durable, or the copy changes one item at most, or it changes neither a credential
      nor the first config file.  Recovery checks none of these: it goes forward on a marker whose directory sync failed
      or was never reached. */
  lemma SafeExactlyWhenMarkerDurable(s: System)
    requires Inv(s, true) && s.pc.Idle? && s.journal.now == Committing(s.token)
    ensures (forall run | Possible(s, run) && NoBegin(run) :: Coherent(Run(s, run))) <==>
            s.journal.could == {Committing(s.token)} || AtMostOneDiffers(s) || FirstFileSame(s)
  {
    if s.journal.could == {Committing(s.token)} || AtMostOneDiffers(s) || FirstFileSame(s) {
      forall run | Possible(s, run) && NoBegin(run) ensures Coherent(Run(s, run)) { Suffices(s, run); }
    } else {
      var i, j :| 0 <= i < |s.before| && 0 <= j < |s.before| && Differs(s.before, s.after, i) &&
          Differs(s.before, s.after, j) && i != j;
      var k := i;
      if s.credentials < |s.items| {
        k :| 0 <= k <= s.credentials && Differs(s.before, s.after, k);
      }
      var d := FirstDiffering(s, k);
      var run := LostMarkerMixes(s, d, if d == i then j else i);
      assert !Coherent(Run(s, run));
    }
  }

  lemma Suffices(s: System, run: seq<Event>)
    requires Inv(s, true) && s.pc.Idle? && s.journal.now == Committing(s.token) && Possible(s, run) && NoBegin(run)
    requires s.journal.could == {Committing(s.token)} || AtMostOneDiffers(s) || FirstFileSame(s)
    ensures Coherent(Run(s, run))
  {
    assert JournalOk(s, Committing(s.token), true);
    if s.journal.could == {Committing(s.token)} {
      DurableMarkerSuffices(s, run);
    } else if AtMostOneDiffers(s) {
      assert Pointwise(s) by {
        assert forall i :: 0 <= i < |s.items| ==> Reckoned(s.items[i], true) == s.items[i].could;
        assert forall i :: 0 <= i < |s.stage| ==> Reckoned(s.stage[i], true) == s.stage[i].could;
      }
      PointwiseSuffices(s, run);
    } else {
      EarlySuffices(s, run);
    }
  }

  /** The other case does occur: a copy that is killed after the committing marker is renamed and before the directory
      is synced leaves one. */
  lemma MarkerCanBeUndurable(old0: Content, old1: Content, new0: Content, new1: Content) returns (run: seq<Event>)
    requires old0 != new0 && old1 != new1
    ensures var s := Fresh([old0, old1], 0);
            && Possible(s, run) && OnlyKills(run)
            && var t := Run(s, run);
               && Inv(t, true) && t.pc.Idle? && t.journal.now == Committing(t.token) && !MarkerDurable(t)
               && t.before == [old0, old1] && t.after == [new0, new1] && |t.items| == 2
  {
    var s := Fresh([old0, old1], 0);
    run := [];
    var t := s;
    assert Is(s, s.before, true);
    t, run := Extend(s, run, t, Begin(1, [new0, new1]));
    t, run := Extend(s, run, t, SyncDirectory);
    t, run := StageNext(s, run, t);
    t, run := StageNext(s, run, t);
    t, run := Extend(s, run, t, MarkCommitting);
    t, run := Extend(s, run, t, Crash);
    assert Now(s.items) == [old0, old1];
    assert Preparing(1) in t.journal.could && Committing(1) in t.journal.could;
  }

  lemma StageNext(s: System, run: seq<Event>, t: System) returns (u: System, longer: seq<Event>)
    requires Possible(s, run) && Run(s, run) == t && OnlyKills(run) && Inv(t, true)
    requires t.pc.Staging? && t.pc.i < |t.stage|
    ensures Possible(s, longer) && Run(s, longer) == u && OnlyKills(longer) && Inv(u, true)
    ensures u == t.(stage := u.stage, pc := Staging(t.pc.i + 1)) && |u.stage| == |t.stage|
  {
    u, longer := Extend(s, run, t, StageItem);
    u, longer := Extend(s, longer, u, SyncStage);
  }

  lemma Extend(s: System, run: seq<Event>, t: System, e: Event) returns (u: System, longer: seq<Event>)
    requires Possible(s, run) && Run(s, run) == t && OnlyKills(run) && Inv(t, true)
    requires Enabled(t, e) && Guarded(t, e, true) && !e.PowerLoss?
    ensures Possible(s, longer) && Run(s, longer) == u && u == Step(t, e) && OnlyKills(longer) && Inv(u, true)
  {
    Snoc(s, run, e);
    StepKeeps(t, e, true);
    u, longer := Step(t, e), run + [e];
  }

  // ---------- recovery ----------

  class Target {
    var journal: Cell<Journal>
    var items: seq<Cell<Content>>
    var stage: seq<Cell<Option<Content>>>
    const credentials: nat
    /** The latest transaction's token, which names its stage directory. */
    var token: Token
    /** The step the running procedure has reached. */
    var pc: Pc
    ghost var before: seq<Content>
    ghost var after: seq<Content>
    /** Where the present call started, and what it has done since. */
    ghost var from: System
    ghost var run: seq<Event>

    constructor (items: seq<Content>, credentials: nat)
      ensures View() == Fresh(items, credentials)
    {
      this.journal := Cell(NoJournal, {NoJournal});
      this.items := AllDurable(items);
      this.stage := AllDurable(seq(|items|, i => None));
      this.credentials := credentials;
      this.token, this.before, this.after, this.pc := 0, items, items, Idle;
    }

    ghost function View(): System
      reads this
    {
      System(journal, items, stage, credentials, pc, token, before, after)
    }

    /** Everything so far is a possible run of the model, and keeps its invariant. */
    ghost predicate OnTrack(power: bool)
      reads this
    {
      Possible(from, run) && Run(from, run) == View() && Inv(View(), power)
    }

    ghost method Did(e: Event, s: System, power: bool)
      requires Possible(from, run) && Run(from, run) == s && Inv(s, power)
      requires Enabled(s, e) && Guarded(s, e, power) && Step(s, e) == View()
      modifies this`run
      ensures OnTrack(power) && run == old(run) + [e]
    {
      Snoc(from, run, e);
      StepKeeps(s, e, power);
      run := run + [e];
    }

    /** An operation fails, or the process is killed before it. */
    method GiveUp(ghost power: bool)
      requires OnTrack(power) && !pc.Began? && !pc.Staging? && !pc.StageWritten?
      modifies this`pc, this`run
      ensures OnTrack(power) && pc.Idle?
    {
      ghost var s := View();
      pc := Idle;
      Did(Fail, s, power);
    }

    ghost predicate SameTransaction(s: System)
      reads this
    {
      token == s.token && before == s.before && after == s.after && |items| == |s.items|
    }

    /** The directory sync that ends every durable write here. */
    method Sync(ghost power: bool)
      requires OnTrack(power) && (pc.Installed? || pc.Finishing?)
      modifies this
      ensures OnTrack(power) && from == old(from) && SameTransaction(old(View()))
      ensures View() == Step(old(View()), SyncDirectory)
    {
      ghost var s := View();
      journal := Synced(journal);
      items := SyncAll(items);
      pc := if pc.Installed? then Installing(pc.i + 1) else Cleaning(pc.token);
      Did(SyncDirectory, s, power);
    }

    /** Put one staged item in place; if anything stops it, recovery is to be called again. */
    method InstallItem(i: nat, sync: bool, ghost power: bool) returns (ok: bool)
      requires OnTrack(power) && pc == Installing(i) && i < |items|
      modifies this
      ensures OnTrack(power) && from == old(from) && SameTransaction(old(View()))
      ensures if ok then pc == Installing(i + 1) else pc.Idle?
    {
      ghost var s := View();
      assert JournalOk(s, Committing(token), power) && s.stage[i].now in Reckoned(s.stage[i], power);
      PutItem(i, stage[i].now.value, power);
      if i < credentials { return true; }
      if sync { Sync(power); } else { GiveUp(power); }
      return sync;
    }

    method PutItem(i: nat, v: Content, ghost power: bool)
      requires OnTrack(power) && pc == Installing(i) && i < |items| && i < |stage| && stage[i].now == Some(v)
      modifies this`items, this`pc, this`run
      ensures OnTrack(power) && |items| == old(|items|)
      ensures pc == if i < credentials then Installing(i + 1) else Installed(i)
    {
      ghost var s := View();
      if i < credentials {
        items := items[i := Cell(v, {v})];
        pc := Installing(i + 1);
      } else {
        items := items[i := Rename(items[i], v)];
        pc := Installed(i);
      }
      Did(Install, s, power);
    }

    /** The committing branch of recoverCopyTransaction; budget is the number of operations that succeed. */
    method InstallAll(budget: nat, ghost power: bool) returns (left: nat, ok: bool)
      requires OnTrack(power) && pc == Installing(0)
      modifies this
      ensures OnTrack(power) && from == old(from) && SameTransaction(old(View()))
      ensures if ok then pc == Installing(|items|) else pc.Idle?
    {
      left := budget;
      var i := 0;
      while i < |items|
        invariant 0 <= i <= |items| && OnTrack(power) && pc == Installing(i)
        invariant from == old(from) && SameTransaction(old(View()))
      {
        if left == 0 {
          GiveUp(power);
          return left, false;
        }
        left := left - 1;
        ok := InstallItem(i, left > 0, power);
        if !ok { return left, false; }
        i := i + 1;
      }
      ok := true;
    }

    /** Write the applied marker and make it durable. */
    method MarkAllApplied(budget: nat, ghost power: bool) returns (left: nat, ok: bool)
      requires OnTrack(power) && (pc == Installing(|items|) || (pc.Idle? && journal.now.Applied?))
      modifies this
      ensures OnTrack(power) && from == old(from) && SameTransaction(old(View()))
      ensures Now(items) == old(Now(items))
      ensures if ok then pc == Cleaning(if old(pc).Idle? then old(journal).now.token else token) else pc.Idle?
    {
      if budget < 2 {
        GiveUp(power);
        return budget, false;
      }
      ghost var s := View();
      var t := if pc.Idle? then journal.now.token else token;
      journal := Rename(journal, Applied(t));
      ghost var e := if pc.Idle? then Event.Recover else MarkApplied;
      pc := Finishing(t);
      assert e.MarkApplied? ==> s.pc.i == |s.items|;
      Did(e, s, power);
      Sync(power);
      return budget - 2, true;
    }

    /** The first n entries of the stage directory go. */
    method RemoveFromStage(n: nat, ghost power: bool)
      requires OnTrack(power) && (pc.Aborting? || pc.Cleaning?) && pc.token == token
      modifies this`stage, this`run
      ensures OnTrack(power) && |stage| == old(|stage|)
      ensures n >= |stage| ==> forall c <- stage :: c.now.None?
    {
      ghost var s := View();
      var gone := Indices(if n < |stage| then n else |stage|);
      var was := stage;
      stage := seq(|was|, i requires 0 <= i < |was| => if i in gone then Rename(was[i], None) else was[i]);
      Did(RemoveStaged(gone), s, power);
    }

    /** abortCopyTransaction, and the end of recoverCopyTransaction: the stage goes, then the journal. */
    method RemoveAll(budget: nat, ghost power: bool) returns (ok: bool)
      requires OnTrack(power) && (pc.Aborting? || pc.Cleaning?)
      modifies this
      ensures OnTrack(power) && from == old(from) && SameTransaction(old(View())) && items == old(items)
      ensures pc.Idle? && (ok ==> journal.now.NoJournal?)
    {
      if pc.token == token { RemoveFromStage(budget, power); }
      if budget <= |stage| {
        GiveUp(power);
        return false;
      }
      ghost var s := View();
      journal := Rename(journal, NoJournal);
      pc := Idle;
      Did(RemoveJournal, s, power);
      return true;
    }

    /** recoverCopyTransaction.  Wherever it stops, it has only made moves of the model; when it ends, the journal is
        gone and the items are all new if the marker said committing or applied, and untouched if it said preparing. */
    method Recover(budget: nat, ghost power: bool) returns (ok: bool)
      requires Inv(View(), power) && pc.Idle?
      requires journal.now.Committing? ==> Reckoned(journal, power) == {journal.now}
      modifies this
      ensures OnTrack(power) && from == old(View()) && SameTransaction(old(View())) && pc.Idle?
      ensures ok ==> journal.now.NoJournal?
      ensures ok && old(journal.now).Committing? ==> Now(items) == after
      ensures !old(journal.now).Committing? ==> Now(items) == old(Now(items))
    {
      ghost var s := View();
      from, run := s, [];
      if journal.now.NoJournal? { return true; }
      var left := budget;
      if journal.now.Preparing? {
        pc := Aborting(journal.now.token);
        Did(Event.Recover, s, power);
      } else {
        if journal.now.Committing? {
          pc := Installing(0);
          Did(Event.Recover, s, power);
          left, ok := InstallAll(budget, power);
          if !ok { return; }
          AllInstalled(View(), power);
        }
        left, ok := MarkAllApplied(left, power);
        if !ok { return; }
      }
      ok := RemoveAll(left, power);
    }
  }

  lemma AllInstalled(s: System, power: bool)
    requires Inv(s, power) && s.pc == Installing(|s.items|)
    ensures Now(s.items) == s.after
  {
    assert forall i :: 0 <= i < |s.items| ==> s.items[i].now in Reckoned(s.items[i], power);
  }
}
