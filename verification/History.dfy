/** History handles, private compaction and the log of public replies (internal/llm/session.go,
    internal/llm/public_replies.go and DropMessage in internal/llm/sequence.go). */
module History {
  import opened Text

  /** A history message with its number.  uid is the message's identity and owner the reply log that recorded it; the
      source keeps neither. */
  datatype Entry = Entry(number: nat, text: string, uid: nat, owner: Option<nat>)

  datatype Snapshot = Snapshot(epoch: nat, last: nat, uids: set<nat>)

  /** PublicReplyLog; dropping holds what a Finish in progress, under the log's lock, has yet to drop. */
  datatype Log = Log(
    epoch: nat, closed: bool, ids: seq<nat>, texts: seq<string>, fallback: string, accepted: bool, dropping: seq<nat>)

  /** issued: the message each handle was given out for. */
  datatype Session = Session(
    entries: seq<Entry>, next: nat, epoch: nat, issued: map<nat, nat>, unused: nat,
    snapshots: seq<Snapshot>, logs: seq<Log>)

  // ---------- lists of entries ----------

  function Without(es: seq<Entry>, ids: set<nat>): seq<Entry> {
    if es == [] then []
    else if es[0].number in ids then Without(es[1..], ids)
    else [es[0]] + Without(es[1..], ids)
  }

  function Above(es: seq<Entry>, last: nat): seq<Entry> {
    if es == [] then [] else (if es[0].number > last then [es[0]] else []) + Above(es[1..], last)
  }

  /** The same messages with fresh numbers. */
  function Renumbered(es: seq<Entry>, next: nat): (r: seq<Entry>)
    ensures |r| == |es|
    ensures forall i :: 0 <= i < |r| ==> r[i] == es[i].(number := next + 1 + i)
  {
    seq(|es|, i requires 0 <= i < |es| => es[i].(number := next + 1 + i))
  }

  function SetOf(ids: seq<nat>): set<nat> { set x <- ids }

  // ---------- steps ----------

  /** addMessageLocked; the handle is the new value of next. */
  function Added(s: Session, text: string, owner: Option<nat>): Session {
    s.(entries := s.entries + [Entry(s.next + 1, text, s.unused, owner)], next := s.next + 1,
       issued := s.issued[s.next + 1 := s.unused], unused := s.unused + 1)
  }

  function Dropped(s: Session, ids: set<nat>): Session { s.(entries := Without(s.entries, ids)) }

  function Trimmed(s: Session, max: nat): Session {
    if max == 0 || |s.entries| <= max then s else s.(entries := s.entries[|s.entries| - max..])
  }

  function Fresh(texts: seq<string>, next: nat, unused: nat): (r: seq<Entry>)
    ensures |r| == |texts| && forall i :: 0 <= i < |r| ==> r[i] == Entry(next + 1 + i, texts[i], unused + i, None)
  {
    seq(|texts|, i requires 0 <= i < |texts| => Entry(next + 1 + i, texts[i], unused + i, None))
  }

  function Replaced(s: Session, texts: seq<string>): Session {
    s.(entries := Fresh(texts, s.next, s.unused), next := s.next + |texts|, unused := s.unused + |texts|)
  }

  function UidsOf(es: seq<Entry>): set<nat> { set e <- es :: e.uid }

  function Snapped(s: Session): Session {
    if s.entries == [] then s
    else s.(snapshots := s.snapshots + [Snapshot(s.epoch, s.entries[|s.entries| - 1].number, UidsOf(s.entries))])
  }

  const Acknowledgement := "noted"

  /** CommitPrivateCompact, for a summary without leading and trailing blanks: a summary and its acknowledgement, then
      every later message, all with fresh numbers. */
  function Compacted(s: Session, snap: Snapshot, summary: string): Session {
    if s.epoch != snap.epoch || summary == "" then s
    else CompactedTo(s, snap.last, [summary, Acknowledgement])
  }

  function ResetAll(s: Session): Session { s.(entries := [], epoch := s.epoch + 1) }

  predicate AllSpace(text: string) { forall c <- text :: IsSpace(c) }

  predicate Stale(s: Session, l: Log) { l.epoch != 0 && l.epoch != s.epoch }

  function Recorded(s: Session, k: nat, text: string): Session
    requires k < |s.logs|
  {
    var l := s.logs[k];
    if AllSpace(text) || Stale(s, l) then s
    else if l.closed then Added(s, text, None)
    else Added(s, text, Some(k)).(logs := s.logs[k := l.(ids := l.ids + [s.next + 1], texts := l.texts + [text])])
  }

  /** commitFinalLocked: whether the final was taken, and the session after it. */
  function FinalCommitted(s: Session, k: nat, text: string, interrupted: bool): (bool, Session)
    requires k < |s.logs|
  {
    var l := s.logs[k];
    if Stale(s, l) then (false, s)
    else if l.fallback != "" && l.fallback == text then (true, s)
    else
      var u := if interrupted then s else Dropped(s, SetOf(l.ids));
      (true, Added(u, text, None).(logs := s.logs[k := l.(ids := [], closed := true)]))
  }

  function Joined(texts: seq<string>): string {
    if texts == [] then "" else if |texts| == 1 then texts[0] else texts[0] + "\n" + Joined(texts[1..])
  }

  function Finalized(s: Session, k: nat, text: string, interrupted: bool): (bool, Session)
    requires k < |s.logs|
  {
    if s.logs[k].accepted then (false, s)
    else
      var (ok, u) := FinalCommitted(s, k, text, interrupted);
      if ok && k < |u.logs| then (true, u.(logs := u.logs[k := u.logs[k].(accepted := true)])) else (false, s)
  }

  function Delivered(s: Session, k: nat): Session
    requires k < |s.logs|
  {
    var l := s.logs[k];
    if Stale(s, l) || l.closed || l.texts == [] then s
    else
      var text := Joined(l.texts);
      var (ok, u) := FinalCommitted(s, k, text, false);
      if ok && k < |u.logs| then u.(logs := u.logs[k := u.logs[k].(fallback := text)]) else s
  }

  /** The first section of Finish; each ID is then dropped in a section of its own. */
  function FinishedLog(s: Session, k: nat, interrupted: bool): Session
    requires k < |s.logs|
  {
    var l := s.logs[k];
    if l.closed then s else s.(logs := s.logs[k := l.(closed := true, dropping := if interrupted then [] else l.ids)])
  }

  function DroppedNext(s: Session, k: nat): Session
    requires k < |s.logs| && s.logs[k].dropping != []
  {
    var l := s.logs[k];
    Dropped(s, {l.dropping[0]}).(logs := s.logs[k := l.(dropping := l.dropping[1..])])
  }

  datatype Event =
    | Add(text: string)
    | Drop(id: nat)
    | DropLast
    | Trim(max: nat)
    | Replace(texts: seq<string>)
    | Reset
    | TakeSnapshot
    | Compact(i: nat, summary: string)
    | NewLog(anyEpoch: bool)
    | Record(k: nat, text: string)
    | CommitFinal(k: nat, text: string, interrupted: bool)
    | CommitDelivered(k: nat)
    | Finish(k: nat, interrupted: bool)
    | DropNext(k: nat)

  /** Nobody holds the log's lock. */
  predicate Free(s: Session, k: nat) { k < |s.logs| && s.logs[k].dropping == [] }

  predicate Enabled(s: Session, e: Event) {
    match e
    case Compact(i, _) => i < |s.snapshots|
    case Record(k, _) => Free(s, k)
    case CommitFinal(k, _, _) => Free(s, k)
    case CommitDelivered(k) => Free(s, k)
    case Finish(k, _) => Free(s, k)
    case DropNext(k) => k < |s.logs| && !Free(s, k)
    case _ => true
  }

  function Step(s: Session, e: Event): Session
    requires Enabled(s, e)
  {
    match e
    case Add(text) => Added(s, text, None)
    case Drop(id) => Dropped(s, {id})
    case DropLast => if s.entries == [] then s else s.(entries := s.entries[..|s.entries| - 1])
    case Trim(max) => Trimmed(s, max)
    case Replace(texts) => Replaced(s, texts)
    case Reset => ResetAll(s)
    case TakeSnapshot => Snapped(s)
    case Compact(i, summary) => Compacted(s, s.snapshots[i], summary)
    case NewLog(any) => s.(logs := s.logs + [Log(if any then 0 else s.epoch, false, [], [], "", false, [])])
    case Record(k, text) => Recorded(s, k, text)
    case CommitFinal(k, text, interrupted) => Finalized(s, k, text, interrupted).1
    case CommitDelivered(k) => Delivered(s, k)
    case Finish(k, interrupted) => FinishedLog(s, k, interrupted)
    case DropNext(k) => DroppedNext(s, k)
  }

  // ---------- invariant ----------

  predicate EntryOk(s: Session, e: Entry) {
    && 0 < e.number <= s.next && e.uid < s.unused
    && (e.number in s.issued ==> s.issued[e.number] == e.uid)
  }

  predicate SnapshotOk(s: Session, snap: Snapshot) {
    && snap.last <= s.next && snap.epoch <= s.epoch
    && (snap.epoch == s.epoch ==> forall e <- s.entries :: e.number <= snap.last ==> e.uid in snap.uids)
  }

  predicate LogOk(s: Session, k: nat, l: Log) {
    && l.epoch <= s.epoch
    && (forall id <- l.ids :: id in s.issued) && (forall id <- l.dropping :: id in l.ids) &&
       (l.dropping != [] ==> l.closed)
    && (forall e <- s.entries :: e.number in l.ids ==> e.owner == Some(k) && !Stale(s, l))
    && (!l.closed ==> forall e <- s.entries :: e.owner == Some(k) && e.number in s.issued ==> e.number in l.ids)
  }

  predicate Inv(s: Session) {
    && s.epoch > 0
    && (forall e <- s.entries :: EntryOk(s, e))
    && (forall e <- s.entries :: e.owner.Some? ==> e.owner.value < |s.logs|)
    && (forall i, j :: 0 <= i < j < |s.entries| ==> s.entries[i].number < s.entries[j].number)
    && (forall h <- s.issued :: h <= s.next)
    && (forall snap <- s.snapshots :: SnapshotOk(s, snap))
    && (forall k :: 0 <= k < |s.logs| ==> LogOk(s, k, s.logs[k]))
  }

  predicate Sorted(es: seq<Entry>) { forall i, j :: 0 <= i < j < |es| ==> es[i].number < es[j].number }

  lemma {:induction false} WithoutShape(es: seq<Entry>, ids: set<nat>)
    ensures forall e :: e in Without(es, ids) <==> e in es && e.number !in ids
    ensures Sorted(es) ==> Sorted(Without(es, ids))
  {
    if es != [] {
      WithoutShape(es[1..], ids);
      if Sorted(es) { ConsSorted(es[0], es[1..], Without(es[1..], ids)); }
    }
  }

  lemma {:induction false} AboveShape(es: seq<Entry>, last: nat)
    ensures forall e :: e in Above(es, last) <==> e in es && e.number > last
    ensures Sorted(es) ==> Sorted(Above(es, last))
  {
    if es != [] {
      AboveShape(es[1..], last);
      if Sorted(es) { ConsSorted(es[0], es[1..], Above(es[1..], last)); }
    }
  }

  lemma ConsSorted(e: Entry, rest: seq<Entry>, sub: seq<Entry>)
    requires Sorted([e] + rest) && Sorted(sub) && forall x <- sub :: x in rest
    ensures Sorted([e] + sub)
  {
    forall x <- sub ensures e.number < x.number {
      var i :| 0 <= i < |rest| && rest[i] == x;
      assert ([e] + rest)[0] == e && ([e] + rest)[i + 1] == x;
    }
  }

  /** Entries only go away. */
  lemma ShrinkKeeps(s: Session, es: seq<Entry>)
    requires Inv(s) && Sorted(es) && forall e <- es :: e in s.entries
    ensures Inv(s.(entries := es))
  {
  }

  /** All entries are new: they have numbers that no handle, snapshot or log knows. */
  lemma RenewKeeps(s: Session, es: seq<Entry>, next: nat, unused: nat)
    requires Inv(s) && s.next <= next && s.unused <= unused && Sorted(es)
    requires forall e <- es :: e.owner.Some? ==> e.owner.value < |s.logs|
    requires forall e <- es :: s.next < e.number <= next && e.uid < unused
    ensures Inv(s.(entries := es, next := next, unused := unused))
  {
  }

  lemma AddedKeeps(s: Session, text: string, owner: Option<nat>)
    requires Inv(s) && owner.None?
    ensures Inv(Added(s, text, owner))
  {
    var t := Added(s, text, owner);
    assert forall e <- t.entries :: e in s.entries || e == Entry(s.next + 1, text, s.unused, owner);
    assert forall i :: 0 <= i < |s.entries| ==> s.entries[i] in s.entries;
    forall k | 0 <= k < |t.logs| ensures LogOk(t, k, t.logs[k]) { assert LogOk(s, k, s.logs[k]); }
  }

  lemma DroppedKeeps(s: Session, ids: set<nat>)
    requires Inv(s)
    ensures Inv(Dropped(s, ids))
  {
    WithoutShape(s.entries, ids);
    ShrinkKeeps(s, Without(s.entries, ids));
  }

  lemma SliceKeeps(s: Session, i: nat, j: nat)
    requires Inv(s) && i <= j <= |s.entries|
    ensures Inv(s.(entries := s.entries[i..j]))
  {
    var es := s.entries[i..j];
    assert forall k :: 0 <= k < |es| ==> es[k] == s.entries[i + k];
    ShrinkKeeps(s, es);
  }

  lemma RenumberedShape(es: seq<Entry>, next: nat, unused: nat, logs: nat)
    requires forall e <- es :: e.uid < unused && (e.owner.Some? ==> e.owner.value < logs)
    ensures Sorted(Renumbered(es, next))
    ensures forall e <- Renumbered(es, next) ::
              next < e.number <= next + |es| && e.uid < unused && (e.owner.Some? ==> e.owner.value < logs)
  {
    var r := Renumbered(es, next);
    forall e <- r
      ensures next < e.number <= next + |es| && e.uid < unused && (e.owner.Some? ==> e.owner.value < logs)
    {
      var i :| 0 <= i < |r| && r[i] == e;
      assert es[i] in es;
    }
  }

  lemma FreshShape(texts: seq<string>, next: nat, unused: nat)
    ensures forall e <- Fresh(texts, next, unused) :: e.uid < unused + |texts| && e.owner.None?
  {
  }

  lemma MembersOf(a: seq<Entry>, b: seq<Entry>)
    ensures forall e :: e in a + b <==> e in a || e in b
  {
  }

  /** The session after a compaction up to last, with these two new texts. */
  function CompactedTo(s: Session, last: nat, texts: seq<string>): Session {
    var kept := Above(s.entries, last);
    s.(entries := Renumbered(Fresh(texts, s.next, s.unused) + kept, s.next), next := s.next + |texts| + |kept|,
       unused := s.unused + |texts|)
  }

  lemma CompactedToKeeps(s: Session, last: nat, texts: seq<string>)
    requires Inv(s)
    ensures Inv(CompactedTo(s, last, texts))
  {
    var front, kept := Fresh(texts, s.next, s.unused), Above(s.entries, last);
    FreshShape(texts, s.next, s.unused);
    AboveShape(s.entries, last);
    forall e <- kept ensures e.uid < s.unused { assert EntryOk(s, e); }
    RenumberedKeeps(s, front, kept, s.unused + |texts|);
  }

  lemma RenumberedKeeps(s: Session, front: seq<Entry>, kept: seq<Entry>, unused: nat)
    requires Inv(s) && s.unused <= unused
    requires forall e <- front :: e.uid < unused && e.owner.None?
    requires forall e <- kept :: e.uid < unused && e in s.entries
    ensures Inv(s.(entries := Renumbered(front + kept, s.next), next := s.next + |front| + |kept|, unused := unused))
  {
    MembersOf(front, kept);
    RenumberedShape(front + kept, s.next, unused, |s.logs|);
    RenewKeeps(s, Renumbered(front + kept, s.next), s.next + |front| + |kept|, unused);
  }

  lemma ResetKeeps(s: Session)
    requires Inv(s)
    ensures Inv(ResetAll(s))
  {
  }

  lemma SnappedKeeps(s: Session)
    requires Inv(s)
    ensures Inv(Snapped(s))
  {
    if s.entries != [] {
      var t := Snapped(s);
      var last := s.entries[|s.entries| - 1];
      assert last in s.entries;
      forall e <- s.entries ensures e.number <= last.number && e.uid in UidsOf(s.entries) {
        var i :| 0 <= i < |s.entries| && s.entries[i] == e;
      }
      forall k | 0 <= k < |t.logs| ensures LogOk(t, k, t.logs[k]) { assert LogOk(s, k, s.logs[k]); }
    }
  }

  /** One log changes, and gains no ID that an entry of another owner has. */
  lemma LogKeeps(s: Session, k: nat, l: Log)
    requires Inv(s) && k < |s.logs| && LogOk(s, k, l)
    ensures Inv(s.(logs := s.logs[k := l]))
  {
    var t := s.(logs := s.logs[k := l]);
    forall j | 0 <= j < |t.logs| ensures LogOk(t, j, t.logs[j]) { assert LogOk(s, j, s.logs[j]); }
  }

  lemma RecordedKeeps(s: Session, k: nat, text: string)
    requires Inv(s) && k < |s.logs|
    ensures Inv(Recorded(s, k, text))
  {
    var l := s.logs[k];
    if l.closed {
      AddedKeeps(s, text, None);
    } else if !Stale(s, l) {
      OwnRecord(s, k, text, l.(ids := l.ids + [s.next + 1], texts := l.texts + [text]));
    }
  }

  lemma OwnRecord(s: Session, k: nat, text: string, m: Log)
    requires Inv(s) && k < |s.logs| && !Stale(s, s.logs[k]) && m.epoch == s.logs[k].epoch
    requires m.ids == s.logs[k].ids + [s.next + 1] && m.closed == s.logs[k].closed && m.dropping == s.logs[k].dropping
    ensures Inv(Added(s, text, Some(k)).(logs := s.logs[k := m]))
  {
    var t := Added(s, text, Some(k)).(logs := s.logs[k := m]);
    AddedEntries(s, text, Some(k));
    forall j | 0 <= j < |t.logs| ensures LogOk(t, j, t.logs[j]) {
      OwnRecordLog(s, k, text, t, j);
    }
  }

  lemma AddedEntries(s: Session, text: string, owner: Option<nat>)
    requires Inv(s)
    ensures var t := Added(s, text, owner);
            && Sorted(t.entries) && (forall e <- t.entries :: EntryOk(t, e))
            && (forall e <- t.entries :: e in s.entries || e == Entry(s.next + 1, text, s.unused, owner))
            && (forall snap <- s.snapshots :: SnapshotOk(t, snap))
  {
    var t := Added(s, text, owner);
    assert forall i :: 0 <= i < |s.entries| ==> s.entries[i] in s.entries;
    forall e <- t.entries ensures EntryOk(t, e) {
      if e in s.entries { assert EntryOk(s, e); }
    }
  }

  lemma OwnRecordLog(s: Session, k: nat, text: string, t: Session, j: nat)
    requires Inv(s) && k < |s.logs| && !Stale(s, s.logs[k]) && |t.logs| == |s.logs| && j < |s.logs|
    requires t == Added(s, text, Some(k)).(logs := s.logs[k := t.logs[k]])
    requires var m := t.logs[k];
             && m.epoch == s.logs[k].epoch && m.ids == s.logs[k].ids + [s.next + 1]
             && m.closed == s.logs[k].closed && m.dropping == s.logs[k].dropping
    ensures LogOk(t, j, t.logs[j])
  {
    assert LogOk(s, j, s.logs[j]);
    assert s.next + 1 !in s.issued;
    forall e <- t.entries
      ensures e.number in t.logs[j].ids ==> e.owner == Some(j) && !Stale(t, t.logs[j])
      ensures !t.logs[j].closed && e.owner == Some(j) && e.number in t.issued ==> e.number in t.logs[j].ids
    {
      if e in s.entries { assert EntryOk(s, e); } else { assert e == Entry(s.next + 1, text, s.unused, Some(k)); }
    }
  }

  lemma FinalCommittedKeeps(s: Session, k: nat, text: string, interrupted: bool)
    requires Inv(s) && Free(s, k)
    ensures Inv(FinalCommitted(s, k, text, interrupted).1) &&
            |FinalCommitted(s, k, text, interrupted).1.logs| == |s.logs|
  {
    var l := s.logs[k];
    var u := if interrupted then s else Dropped(s, SetOf(l.ids));
    DroppedKeeps(s, SetOf(l.ids));
    AddedKeeps(u, text, None);
    var m := l.(ids := [], closed := true);
    assert LogOk(s, k, l);
    assert LogOk(Added(u, text, None), k, m);
    LogKeeps(Added(u, text, None), k, m);
  }

  lemma FinalizedKeeps(s: Session, k: nat, text: string, interrupted: bool)
    requires Inv(s) && Free(s, k)
    ensures Inv(Finalized(s, k, text, interrupted).1)
  {
    FinalCommittedKeeps(s, k, text, interrupted);
    var u := FinalCommitted(s, k, text, interrupted).1;
    assert LogOk(u, k, u.logs[k]);
    LogKeeps(u, k, u.logs[k].(accepted := true));
  }

  lemma DeliveredKeeps(s: Session, k: nat)
    requires Inv(s) && Free(s, k)
    ensures Inv(Delivered(s, k))
  {
    var text := Joined(s.logs[k].texts);
    FinalCommittedKeeps(s, k, text, false);
    var u := FinalCommitted(s, k, text, false).1;
    assert LogOk(u, k, u.logs[k]);
    LogKeeps(u, k, u.logs[k].(fallback := text));
  }

  lemma FinishedKeeps(s: Session, k: nat, interrupted: bool)
    requires Inv(s) && k < |s.logs|
    ensures Inv(FinishedLog(s, k, interrupted))
  {
    var l := s.logs[k];
    assert LogOk(s, k, l);
    LogKeeps(s, k, l.(closed := true, dropping := if interrupted then [] else l.ids));
  }

  lemma DroppedNextKeeps(s: Session, k: nat)
    requires Inv(s) && k < |s.logs| && s.logs[k].dropping != []
    ensures Inv(DroppedNext(s, k))
  {
    var l := s.logs[k];
    var u := Dropped(s, {l.dropping[0]});
    DroppedKeeps(s, {l.dropping[0]});
    assert LogOk(u, k, l);
    assert LogOk(u, k, l.(dropping := l.dropping[1..]));
    LogKeeps(u, k, l.(dropping := l.dropping[1..]));
  }

  lemma NewLogKeeps(s: Session, l: Log)
    requires Inv(s) && l.ids == [] && l.dropping == [] && l.epoch <= s.epoch
    ensures Inv(s.(logs := s.logs + [l]))
  {
    var t := s.(logs := s.logs + [l]);
    forall j | 0 <= j < |t.logs| ensures LogOk(t, j, t.logs[j]) {
      if j < |s.logs| { assert LogOk(s, j, s.logs[j]); }
    }
  }

  lemma StepKeeps(s: Session, e: Event)
    requires Inv(s) && Enabled(s, e)
    ensures Inv(Step(s, e))
  {
    match e
    case Add(text) => AddedKeeps(s, text, None);
    case Drop(id) => DroppedKeeps(s, {id});
    case DropLast => if s.entries != [] { DropLastKeeps(s); }
    case Trim(max) => TrimmedKeeps(s, max);
    case Replace(texts) => ReplacedKeeps(s, texts);
    case Reset => ResetKeeps(s);
    case TakeSnapshot => SnappedKeeps(s);
    case Compact(i, summary) => CompactKeeps(s, s.snapshots[i], summary);
    case NewLog(any) => NewLogKeeps(s, Log(if any then 0 else s.epoch, false, [], [], "", false, []));
    case Record(k, text) => RecordedKeeps(s, k, text);
    case CommitFinal(k, text, interrupted) => FinalizedKeeps(s, k, text, interrupted);
    case CommitDelivered(k) => DeliveredKeeps(s, k);
    case Finish(k, interrupted) => FinishedKeeps(s, k, interrupted);
    case DropNext(k) => DroppedNextKeeps(s, k);
  }

  lemma DropLastKeeps(s: Session)
    requires Inv(s) && s.entries != []
    ensures Inv(s.(entries := s.entries[..|s.entries| - 1]))
  {
    SliceKeeps(s, 0, |s.entries| - 1);
    assert s.entries[0..|s.entries| - 1] == s.entries[..|s.entries| - 1];
  }

  lemma TrimmedKeeps(s: Session, max: nat)
    requires Inv(s)
    ensures Inv(Trimmed(s, max))
  {
    if max < |s.entries| {
      SliceKeeps(s, |s.entries| - max, |s.entries|);
      assert s.entries[|s.entries| - max..|s.entries|] == s.entries[|s.entries| - max..];
    }
  }

  lemma ReplacedKeeps(s: Session, texts: seq<string>)
    requires Inv(s)
    ensures Inv(Replaced(s, texts))
  {
    var es := Fresh(texts, s.next, s.unused);
    assert Sorted(es);
    RenewKeeps(s, es, s.next + |texts|, s.unused + |texts|);
  }

  lemma CompactKeeps(s: Session, snap: Snapshot, summary: string)
    requires Inv(s)
    ensures Inv(Compacted(s, snap, summary))
  {
    CompactedToKeeps(s, snap.last, [summary, Acknowledgement]);
  }

  // ---------- whole runs ----------

  predicate Possible(s: Session, run: seq<Event>)
    decreases |run|
  {
    run == [] || (Enabled(s, run[0]) && Possible(Step(s, run[0]), run[1..]))
  }

  function Run(s: Session, run: seq<Event>): Session
    requires Possible(s, run)
    decreases |run|
  {
    if run == [] then s else Run(Step(s, run[0]), run[1..])
  }

  /** What no step takes back. */
  predicate Later(s: Session, t: Session) {
    && s.next <= t.next && s.epoch <= t.epoch
    && (forall h <- s.issued :: h in t.issued && t.issued[h] == s.issued[h])
    && s.snapshots <= t.snapshots
    && |s.logs| <= |t.logs|
    && (forall k :: 0 <= k < |s.logs| ==>
          t.logs[k].epoch == s.logs[k].epoch && (s.logs[k].accepted ==> t.logs[k].accepted))
  }

  lemma StepIsLater(s: Session, e: Event)
    requires Inv(s) && Enabled(s, e)
    ensures Later(s, Step(s, e))
  {
    match e
    case CommitFinal(k, text, interrupted) => FinalIsLater(s, k, text, interrupted);
    case CommitDelivered(k) => FinalIsLater(s, k, Joined(s.logs[k].texts), false);
    case Record(k, text) => RecordIsLater(s, k, text);
    case _ =>
  }

  lemma FinalIsLater(s: Session, k: nat, text: string, interrupted: bool)
    requires Inv(s) && k < |s.logs|
    ensures Later(s, FinalCommitted(s, k, text, interrupted).1) &&
            |FinalCommitted(s, k, text, interrupted).1.logs| == |s.logs|
  {
  }

  lemma RecordIsLater(s: Session, k: nat, text: string)
    requires Inv(s) && k < |s.logs|
    ensures Later(s, Recorded(s, k, text))
  {
  }

  lemma {:induction false} RunKeeps(s: Session, run: seq<Event>)
    requires Inv(s) && Possible(s, run)
    ensures Inv(Run(s, run)) && Later(s, Run(s, run))
    decreases |run|
  {
    if run != [] {
      StepKeeps(s, run[0]);
      StepIsLater(s, run[0]);
      RunKeeps(Step(s, run[0]), run[1..]);
    }
  }

  /** A handle is never given out twice, and at any later time it removes the message it was given out for, or
      nothing. */
  lemma HandleRemovesItsOwn(s: Session, text: string, run: seq<Event>)
    requires Inv(s) && Possible(Step(s, Add(text)), run)
    ensures s.next + 1 !in s.issued
    ensures var h := s.next + 1;
            var t := Run(Step(s, Add(text)), run);
            var u := Step(t, Drop(h));
            && (forall e <- t.entries :: e !in u.entries ==> e.uid == s.unused)
            && (forall e <- u.entries :: e in t.entries && e.number != h)
  {
    var a := Step(s, Add(text));
    StepKeeps(s, Add(text));
    RunKeeps(a, run);
    assert a.issued[s.next + 1] == s.unused;
    DropRemovesItsOwn(Run(a, run), s.next + 1);
  }

  lemma DropRemovesItsOwn(t: Session, h: nat)
    requires Inv(t) && h in t.issued
    ensures var u := Dropped(t, {h});
            && (forall e <- t.entries :: e !in u.entries ==> e.uid == t.issued[h])
            && (forall e <- u.entries :: e in t.entries && e.number != h)
  {
    WithoutShape(t.entries, {h});
    forall e <- t.entries | e.number == h ensures e.uid == t.issued[h] { assert EntryOk(t, e); }
  }

  /** The messages of t that a compaction from this snapshot leaves, and what it makes of them. */
  predicate KeepsOthers(t: Session, u: Session, snap: Snapshot, summary: string) {
    if t.epoch != snap.epoch || summary == "" then u == t
    else
      var kept := Above(t.entries, snap.last);
      && (forall e <- t.entries :: e in kept || e.uid in snap.uids)
      && |u.entries| >= 2 && u.entries[2..] == Renumbered(kept, t.next + 2)
  }

  lemma CompactedKeepsOthers(t: Session, snap: Snapshot, summary: string)
    requires Inv(t) && SnapshotOk(t, snap)
    ensures KeepsOthers(t, Compacted(t, snap, summary), snap, summary)
  {
    AboveShape(t.entries, snap.last);
    CompactedShape(t, snap.last, [summary, Acknowledgement]);
  }

  /** However many compactions overlap, one that commits drops only messages that its own snapshot held, and keeps all
      others in their order, renumbered. */
  lemma CompactKeepsOthers(s: Session, run: seq<Event>, summary: string)
    requires Inv(s) && s.entries != [] && Possible(Step(s, TakeSnapshot), run)
    ensures var t := Run(Step(s, TakeSnapshot), run);
            var snap := Snapshot(s.epoch, s.entries[|s.entries| - 1].number, UidsOf(s.entries));
            |s.snapshots| < |t.snapshots| && KeepsOthers(t, Step(t, Compact(|s.snapshots|, summary)), snap, summary)
  {
    var t := Run(Step(s, TakeSnapshot), run);
    SnapshotLasts(s, run);
    CompactedKeepsOthers(t, t.snapshots[|s.snapshots|], summary);
  }

  lemma SnapshotLasts(s: Session, run: seq<Event>)
    requires Inv(s) && s.entries != [] && Possible(Snapped(s), run)
    ensures var t := Run(Snapped(s), run);
            && Inv(t) && |s.snapshots| < |t.snapshots|
            && t.snapshots[|s.snapshots|] == Snapshot(s.epoch, s.entries[|s.entries| - 1].number, UidsOf(s.entries))
            && SnapshotOk(t, t.snapshots[|s.snapshots|])
  {
    var a := Snapped(s);
    SnappedKeeps(s);
    RunKeeps(a, run);
    var t := Run(a, run);
    assert t.snapshots[|s.snapshots|] == a.snapshots[|s.snapshots|];
    assert t.snapshots[|s.snapshots|] in t.snapshots;
  }

  lemma CompactedShape(t: Session, last: nat, texts: seq<string>)
    ensures var u := CompactedTo(t, last, texts);
            var kept := Above(t.entries, last);
            |texts| <= |u.entries| && u.entries[|texts|..] == Renumbered(kept, t.next + |texts|)
  {
    RenumberedAppend(Fresh(texts, t.next, t.unused), Above(t.entries, last), t.next);
  }

  lemma RenumberedAppend(a: seq<Entry>, b: seq<Entry>, next: nat)
    ensures Renumbered(a + b, next)[|a|..] == Renumbered(b, next + |a|)
  {
  }

  /** A reply log accepts one final at most: once it has, it takes no other, whatever happens in between. */
  lemma OneFinalAtMost(s: Session, k: nat, text: string, interrupted: bool, run: seq<Event>, text': string,
                       interrupted': bool)
    requires Inv(s) && Free(s, k) && Finalized(s, k, text, interrupted).0
    requires Possible(Step(s, CommitFinal(k, text, interrupted)), run)
    ensures var t := Run(Step(s, CommitFinal(k, text, interrupted)), run);
            k < |t.logs| && Finalized(t, k, text', interrupted') == (false, t)
  {
    var a := Step(s, CommitFinal(k, text, interrupted));
    StepKeeps(s, CommitFinal(k, text, interrupted));
    RunKeeps(a, run);
    assert a.logs[k].accepted;
  }

  /** A final that is taken without interruption replaces exactly the log's own provisional replies, as far as they
      still have the number they were recorded under; all other messages stay, in order, with the final after them. */
  lemma FinalReplacesOwnReplies(s: Session, k: nat, text: string)
    requires Inv(s) && Free(s, k) && Finalized(s, k, text, false).0 && s.logs[k].fallback != text && !s.logs[k].closed
    ensures var u := Step(s, CommitFinal(k, text, false));
            && u.entries == Without(s.entries, SetOf(s.logs[k].ids)) + [Entry(s.next + 1, text, s.unused, None)]
            && forall e <- s.entries :: e !in u.entries <==> e.owner == Some(k) && e.number in s.issued
  {
    var l := s.logs[k];
    assert LogOk(s, k, l);
    WithoutShape(s.entries, SetOf(l.ids));
    forall e <- s.entries ensures e.number in l.ids <==> e.owner == Some(k) && e.number in s.issued {
      assert EntryOk(s, e);
    }
  }

  /** The log of an epoch that a reset has ended changes the history no more. */
  lemma StaleLogChangesNothing(s: Session, run: seq<Event>, k: nat, e: Event)
    requires Inv(s) && k < |s.logs| && s.logs[k].epoch != 0 && Possible(Step(s, Reset), run)
    requires (e.Record? || e.CommitFinal? || e.CommitDelivered? || e.Finish? || e.DropNext?) && e.k == k
    requires Enabled(Run(Step(s, Reset), run), e)
    ensures var t := Run(Step(s, Reset), run); Step(t, e).entries == t.entries && Step(t, e).next == t.next
  {
    var a := Step(s, Reset);
    assert LogOk(s, k, s.logs[k]);
    StepKeeps(s, Reset);
    RunKeeps(a, run);
    var t := Run(a, run);
    assert LogOk(t, k, t.logs[k]) && Stale(t, t.logs[k]);
    NothingToDrop(t.entries, SetOf(t.logs[k].ids));
    if e.DropNext? { NothingToDrop(t.entries, {t.logs[k].dropping[0]}); }
  }

  lemma {:induction false} NothingToDrop(es: seq<Entry>, ids: set<nat>)
    requires forall e <- es :: e.number !in ids
    ensures Without(es, ids) == es
  {
    if es != [] { NothingToDrop(es[1..], ids); }
  }

  // ---------- the loops that do this ----------

  lemma {:induction false} DropOne(es: seq<Entry>, i: nat)
    requires Sorted(es) && i < |es|
    ensures Without(es, {es[i].number}) == es[..i] + es[i + 1..]
  {
    var e, rest := es[0], es[1..];
    if i == 0 {
      forall x <- rest ensures x.number > e.number { var j :| 0 <= j < |rest| && rest[j] == x; }
      NothingToDrop(rest, {e.number});
      assert es[..0] + es[1..] == rest;
    } else {
      assert rest[i - 1] == es[i] && e.number < es[i].number;
      DropOne(rest, i - 1);
      KeepFirst(es, es[i].number);
      ConsCut(es, i);
    }
  }

  lemma KeepFirst(es: seq<Entry>, n: nat)
    requires es != [] && es[0].number != n
    ensures Without(es, {n}) == [es[0]] + Without(es[1..], {n})
  {
  }

  lemma ConsCut(es: seq<Entry>, i: nat)
    requires 0 < i < |es|
    ensures es[..i] + es[i + 1..] == [es[0]] + (es[1..][..i - 1] + es[1..][i..])
  {
  }

  lemma {:induction false} WithoutBoth(es: seq<Entry>, a: set<nat>, b: set<nat>)
    ensures Without(Without(es, a), b) == Without(es, a + b)
  {
    if es != [] {
      var rest := Without(es[1..], a);
      WithoutBoth(es[1..], a, b);
      if es[0].number !in a { assert ([es[0]] + rest)[1..] == rest; }
    }
  }

  class SessionHistory {
    /** History with historySeq. */
    var entries: seq<Entry>
    var nextMsgSeq: nat
    var epoch: nat
    var logs: seq<Log>
    ghost var issued: map<nat, nat>
    var unused: nat
    ghost var snapshots: seq<Snapshot>

    constructor ()
      ensures Inv(View()) && View() == Session([], 0, 1, map[], 0, [], [])
    {
      entries, nextMsgSeq, epoch, logs, issued, unused, snapshots := [], 0, 1, [], map[], 0, [];
    }

    ghost function View(): Session
      reads this
    {
      Session(entries, nextMsgSeq, epoch, issued, unused, snapshots, logs)
    }

    method AddMessage(text: string, owner: Option<nat>) returns (handle: nat)
      modifies this
      ensures View() == Added(old(View()), text, owner) && handle == nextMsgSeq
    {
      nextMsgSeq := nextMsgSeq + 1;
      entries := entries + [Entry(nextMsgSeq, text, unused, owner)];
      issued := issued[nextMsgSeq := unused];
      unused := unused + 1;
      return nextMsgSeq;
    }

    method DropMessage(id: nat)
      requires Sorted(entries)
      modifies this`entries
      ensures View() == Dropped(old(View()), {id}) && Sorted(entries)
    {
      ghost var es := entries;
      WithoutShape(es, {id});
      for i := 0 to |entries|
        invariant entries == es && forall j :: 0 <= j < i ==> es[j].number != id
      {
        if entries[i].number == id {
          DropOne(es, i);
          entries := entries[..i] + entries[i + 1..];
          return;
        }
      }
      NothingToDrop(es, {id});
    }

    method DropAll(ids: seq<nat>)
      requires Sorted(entries)
      modifies this`entries
      ensures View() == Dropped(old(View()), SetOf(ids))
    {
      ghost var es := entries;
      NothingToDrop(es, {});
      assert SetOf(ids[..0]) == {};
      for i := 0 to |ids|
        invariant Sorted(entries) && entries == Without(es, SetOf(ids[..i]))
        invariant View() == old(View()).(entries := entries)
      {
        WithoutBoth(es, SetOf(ids[..i]), {ids[i]});
        assert SetOf(ids[..i]) + {ids[i]} == SetOf(ids[..i + 1]);
        DropMessage(ids[i]);
      }
      assert ids[..|ids|] == ids;
    }

    /** The loops of CommitPrivateCompact, for a snapshot of this epoch. */
    method CommitPrivateCompact(snap: Snapshot, summary: string) returns (ok: bool)
      modifies this
      ensures View() == Compacted(old(View()), snap, summary) && (ok <==> old(epoch) == snap.epoch && summary != "")
    {
      if epoch != snap.epoch || summary == "" { return false; }
      var remaining := EntriesAbove(snap.last);
      var all := Fresh([summary, Acknowledgement], nextMsgSeq, unused) + remaining;
      ghost var next := nextMsgSeq;
      var renumbered: seq<Entry> := [];
      for i := 0 to |all|
        invariant nextMsgSeq == next + i && renumbered == Renumbered(all[..i], next)
        invariant View() == old(View()).(next := nextMsgSeq)
      {
        nextMsgSeq := nextMsgSeq + 1;
        renumbered := renumbered + [all[i].(number := nextMsgSeq)];
      }
      assert all[..|all|] == all;
      entries := renumbered;
      unused := unused + 2;
      return true;
    }

    method EntriesAbove(last: nat) returns (r: seq<Entry>)
      ensures r == Above(entries, last)
    {
      r := [];
      for i := 0 to |entries|
        invariant Above(entries, last) == r + Above(entries[i..], last)
      {
        var one := if entries[i].number > last then [entries[i]] else [];
        assert entries[i..][0] == entries[i] && entries[i..][1..] == entries[i + 1..];
        Assoc(r, one, Above(entries[i + 1..], last));
        r := r + one;
      }
    }

    /** commitFinalLocked. */
    method CommitFinalLocked(k: nat, text: string, interrupted: bool) returns (ok: bool)
      requires k < |logs| && Sorted(entries)
      modifies this
      ensures (ok, View()) == FinalCommitted(old(View()), k, text, interrupted)
    {
      var l := logs[k];
      if l.epoch != 0 && l.epoch != epoch { return false; }
      if l.fallback != "" && l.fallback == text { return true; }
      if !interrupted { DropAll(l.ids); }
      logs := logs[k := l.(ids := [], closed := true)];
      var _ := AddMessage(text, None);
      return true;
    }

    method CommitFinal(k: nat, text: string, interrupted: bool) returns (ok: bool)
      requires Free(View(), k) && Inv(View())
      modifies this
      ensures (ok, View()) == Finalized(old(View()), k, text, interrupted) && Inv(View())
    {
      FinalizedKeeps(View(), k, text, interrupted);
      FinalCommittedKeeps(View(), k, text, interrupted);
      if logs[k].accepted { return false; }
      ok := CommitFinalLocked(k, text, interrupted);
      if ok { logs := logs[k := logs[k].(accepted := true)]; }
    }

    /** Finish of a reply log, when nothing else happens in between. */
    method FinishLog(k: nat, interrupted: bool)
      requires Free(View(), k) && Inv(View())
      modifies this
      ensures View() == FinishedAlone(old(View()), k, interrupted)
    {
      var l := logs[k];
      if l.closed { return; }
      logs := logs[k := l.(closed := true)];
      if !interrupted { DropAll(l.ids); }
    }
  }

  function FinishedAlone(s: Session, k: nat, interrupted: bool): Session
    requires k < |s.logs|
  {
    var l := s.logs[k];
    if l.closed then s
    else (if interrupted then s else Dropped(s, SetOf(l.ids))).(logs := s.logs[k := l.(closed := true)])
  }

  function Times(e: Event, n: nat): seq<Event> { seq(n, _ => e) }

  lemma {:induction false} DropsFollow(s: Session, k: nat)
    requires k < |s.logs|
    ensures var l := s.logs[k];
            var run := Times(DropNext(k), |l.dropping|);
            Possible(s, run) && Run(s, run) == Dropped(s, SetOf(l.dropping)).(logs := s.logs[k := l.(dropping := [])])
    decreases |s.logs[k].dropping|
  {
    var l := s.logs[k];
    var run := Times(DropNext(k), |l.dropping|);
    if l.dropping == [] {
      NothingToDrop(s.entries, {});
      assert SetOf(l.dropping) == {} && s.logs[k := l] == s.logs;
    } else {
      var t := DroppedNext(s, k);
      DropsFollow(t, k);
      assert run[1..] == Times(DropNext(k), |l.dropping| - 1);
      WithoutBoth(s.entries, {l.dropping[0]}, SetOf(l.dropping[1..]));
      assert l.dropping == [l.dropping[0]] + l.dropping[1..];
      assert {l.dropping[0]} + SetOf(l.dropping[1..]) == SetOf(l.dropping);
    }
  }

  /** With nothing in between, Finish and its drops do just that. */
  lemma FinishStepsEnd(s: Session, k: nat, interrupted: bool)
    requires Free(s, k)
    ensures var t := Step(s, Finish(k, interrupted));
            var run := Times(DropNext(k), |t.logs[k].dropping|);
            Possible(t, run) && Run(t, run) == FinishedAlone(s, k, interrupted)
  {
    DropsFollow(Step(s, Finish(k, interrupted)), k);
    NothingToDrop(s.entries, {});
    assert SetOf([]) == {};
  }
}
