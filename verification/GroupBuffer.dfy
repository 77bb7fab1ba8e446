/** The group-chat buffer of one session (internal/llm/session.go).  Each function is one section of
    code that the session mutex protects; class SessionBuffer holds the fields those sections change. */
module GroupBuffer {
  import opened Text

  const DEFAULT_MAX_BUFFER: nat := 200
  const MAX_COMMITTED_SOURCES: nat := 32

  datatype Message = Message(id: string, role: string, content: string, image: string)
  datatype Item = Item(seqno: nat, message: Message, staged: bool)

  /** The latest compact batch together with the summary made from it. */
  datatype SummaryGroup = SummaryGroup(summary: string, ids: seq<string>, messages: seq<Message>)

  datatype Snapshot = Snapshot(summary: string, messages: seq<Message>, ids: seq<string>, through: nat, generation: nat)

  datatype Session = Session(
    buffer: seq<Item>, lastSeq: nat, generation: nat,
    summary: string, groups: seq<SummaryGroup>,
    prevSummary: string, prevGroups: seq<SummaryGroup>,
    lastIds: seq<string>, sources: map<nat, seq<string>>, revoked: set<string>)

  const EmptySession := Session([], 0, 0, "", [], "", [], [], map[], {})

  // ---------- shape of the buffer ----------

  predicate Increasing(buf: seq<Item>) {
    forall i, j :: 0 <= i < j < |buf| ==> buf[i].seqno < buf[j].seqno
  }

  predicate Holds(buf: seq<Item>, n: nat) {
    exists it :: it in buf && it.seqno == n
  }

  predicate BufferOk(s: Session) {
    Increasing(s.buffer) && forall it :: it in s.buffer ==> 1 <= it.seqno <= s.lastSeq
  }

  predicate NoneCommitted(buf: seq<Item>) {
    forall i :: 0 <= i < |buf| ==> buf[i].staged
  }

  // ---------- appending and evicting ----------

  /** The buffer without its first n committed items. */
  function DropCommitted(buf: seq<Item>, n: nat): seq<Item> {
    if buf == [] then []
    else if !buf[0].staged && n > 0 then DropCommitted(buf[1..], n - 1)
    else [buf[0]] + DropCommitted(buf[1..], n)
  }

  function Evict(buf: seq<Item>, max: nat): seq<Item> {
    if |buf| <= max then buf
    else
      var kept := DropCommitted(buf, |buf| - max);
      if |kept| <= max then kept else kept[|kept| - max..]
  }

  function Bound(max: int): nat {
    if max <= 0 then DEFAULT_MAX_BUFFER else max
  }

  predicate Blank(content: string) { TrimSpace(content) == "" }

  function WithRole(m: Message): Message { if m.role == "" then m.(role := "user") else m }

  function Append(s: Session, m: Message, staged: bool, max: int): Session {
    if Blank(m.content) then s
    else s.(buffer := Evict(s.buffer + [Item(s.lastSeq + 1, WithRole(m), staged)], Bound(max)),
            lastSeq := s.lastSeq + 1)
  }

  /** What eviction keeps, said without saying how: a subsequence of the right size, from which committed
      items leave oldest first and staged items leave, oldest first, only when no committed item is left. */
  predicate EvictionOutcome(buf: seq<Item>, kept: seq<Item>, max: nat) {
    && |kept| == (if |buf| <= max then |buf| else max)
    && Increasing(kept)
    && (forall k :: k in kept ==> k in buf)
    && (forall e, k :: e in buf && e !in kept && k in kept ==>
        (e.staged ==> k.staged) && (e.staged == k.staged ==> e.seqno < k.seqno))
  }

  /** What dropping the n oldest committed items leaves. */
  predicate DropOutcome(buf: seq<Item>, n: nat, kept: seq<Item>) {
    && Increasing(kept) && (forall k :: k in kept ==> k in buf) && |buf| - n <= |kept| <= |buf|
    && (forall e :: e in buf && e.staged ==> e in kept)
    && (forall e, k :: e in buf && e !in kept && k in kept && !k.staged ==> e.seqno < k.seqno)
    && (|kept| > |buf| - n ==> NoneCommitted(kept))
  }

  lemma {:induction false} DropCommittedShape(buf: seq<Item>, n: nat)
    requires Increasing(buf)
    ensures DropOutcome(buf, n, DropCommitted(buf, n))
  {
    if buf != [] {
      var first, rest := buf[0], buf[1..];
      assert buf == [first] + rest;
      assert forall k :: k in rest ==> first.seqno < k.seqno;
      if !first.staged && n > 0 {
        DropCommittedShape(rest, n - 1);
        DropsFirst(first, rest, n, DropCommitted(rest, n - 1));
      } else {
        DropCommittedShape(rest, n);
        if n == 0 { DropNone(buf); DropNone(rest); }
        KeepsFirst(first, rest, n, DropCommitted(rest, n));
      }
    }
  }

  lemma DropsFirst(first: Item, rest: seq<Item>, n: nat, kept: seq<Item>)
    requires n > 0 && !first.staged && DropOutcome(rest, n - 1, kept) && forall k :: k in rest ==> first.seqno < k.seqno
    ensures DropOutcome([first] + rest, n, kept)
  {
    assert forall e :: e in [first] + rest <==> e == first || e in rest;
  }

  lemma KeepsFirst(first: Item, rest: seq<Item>, n: nat, kept: seq<Item>)
    requires (first.staged || n == 0) && DropOutcome(rest, n, kept) && forall k :: k in rest ==> first.seqno < k.seqno
    requires n == 0 ==> kept == rest
    ensures DropOutcome([first] + rest, n, [first] + kept)
  {
    assert forall e :: e in [first] + rest <==> e == first || e in rest;
    assert forall e :: e in [first] + kept <==> e == first || e in kept;
  }

  lemma {:induction false} DropNone(buf: seq<Item>)
    ensures DropCommitted(buf, 0) == buf
  {
    if buf != [] { DropNone(buf[1..]); }
  }

  lemma IncreasingSuffix(buf: seq<Item>, from: nat)
    requires Increasing(buf) && from <= |buf|
    ensures Increasing(buf[from..])
    ensures forall e, k :: e in buf && e !in buf[from..] && k in buf[from..] ==> e.seqno < k.seqno
  {
    forall e, k | e in buf && e !in buf[from..] && k in buf[from..] ensures e.seqno < k.seqno {
      var i :| 0 <= i < |buf| && buf[i] == e;
      var j :| 0 <= j < |buf[from..]| && buf[from..][j] == k;
      assert forall m :: from <= m < |buf| ==> buf[from..][m - from] == buf[m];
    }
  }

  /** Eviction meets its outcome for every buffer and every ceiling. */
  lemma EvictionMeetsOutcome(buf: seq<Item>, max: nat)
    requires Increasing(buf)
    ensures EvictionOutcome(buf, Evict(buf, max), max)
  {
    if |buf| > max {
      DropCommittedShape(buf, |buf| - max);
      var kept := DropCommitted(buf, |buf| - max);
      if |kept| > max { StagedSuffix(buf, max, kept); } else { ExactlyKept(buf, max, kept); }
    }
  }

  lemma ExactlyKept(buf: seq<Item>, max: nat, kept: seq<Item>)
    requires |buf| > max && DropOutcome(buf, |buf| - max, kept) && |kept| <= max
    ensures EvictionOutcome(buf, kept, max)
  {
  }

  lemma StagedSuffix(buf: seq<Item>, max: nat, kept: seq<Item>)
    requires |buf| > max && DropOutcome(buf, |buf| - max, kept) && |kept| > max
    ensures EvictionOutcome(buf, kept[|kept| - max..], max)
  {
    IncreasingSuffix(kept, |kept| - max);
    var out := kept[|kept| - max..];
    forall k | k in out ensures k in kept && k.staged {
      var i :| 0 <= i < |out| && out[i] == k;
      assert kept[|kept| - max + i] == k;
    }
  }

  lemma EvictKeepsOrder(buf: seq<Item>, max: nat)
    requires Increasing(buf)
    ensures Increasing(Evict(buf, max)) && forall k :: k in Evict(buf, max) ==> k in buf
  {
    EvictionMeetsOutcome(buf, max);
  }

  // ---------- promoting, describing, dropping ----------

  predicate Selected(item: Item, seqno: nat, id: string) {
    item.staged && (if seqno > 0 then item.seqno == seqno else id != "" && item.message.id == id)
  }

  function PromoteItem(item: Item, seqno: nat, id: string): Item {
    if Selected(item, seqno, id) then item.(staged := false) else item
  }

  function Promote(s: Session, seqno: nat, id: string): Session {
    s.(buffer := seq(|s.buffer|, i requires 0 <= i < |s.buffer| => PromoteItem(s.buffer[i], seqno, TrimSpace(id))))
  }

  /** The first staged user item with this number; only it may still be described. */
  predicate Describable(item: Item, seqno: nat) { item.seqno == seqno && item.staged && item.message.role == "user" }

  function DescribeItem(item: Item, seqno: nat, text: string): Item {
    if Describable(item, seqno) then item.(message := item.message.(image := text)) else item
  }

  function Describe(s: Session, seqno: nat, text: string): Session {
    if seqno == 0 || text == "" then s
    else s.(buffer := seq(|s.buffer|, i requires 0 <= i < |s.buffer| => DescribeItem(s.buffer[i], seqno, text)))
  }

  predicate Discarded(item: Item, seqno: nat, id: string) {
    if seqno > 0 then item.staged && item.seqno == seqno else id != "" && item.message.id == id
  }

  function Without(buf: seq<Item>, seqno: nat, id: string): seq<Item> {
    if buf == [] then []
    else if Discarded(buf[0], seqno, id) then Without(buf[1..], seqno, id)
    else [buf[0]] + Without(buf[1..], seqno, id)
  }

  predicate Polluted(s: Session, id: string) {
    id != "" && (id in s.lastIds || exists i :: 0 <= i < |s.groups| && id in s.groups[i].ids)
  }

  function RollBack(s: Session): Session {
    s.(summary := s.prevSummary, groups := s.prevGroups, prevSummary := "", prevGroups := [], lastIds := [])
  }

  function SourcesWithout(sources: map<nat, seq<string>>, id: string): map<nat, seq<string>> {
    map n | n in sources && id !in sources[n] :: sources[n]
  }

  function Revoke(s: Session, id: string): Session {
    if id == "" then s else s.(revoked := s.revoked + {id}, sources := SourcesWithout(s.sources, id))
  }

  function Drop(s: Session, seqno: nat, rawId: string): Session {
    var id := TrimSpace(rawId);
    if seqno == 0 && id == "" then s
    else
      var s1 := s.(buffer := Without(s.buffer, seqno, id));
      var s2 := if Polluted(s1, id) then RollBack(s1) else s1;
      var s3 := Revoke(s2, id);
      s3.(generation := s3.generation + 1)
  }

  /** An item goes, or the summary is rolled back, or a committed source is forgotten. */
  predicate DropsAnything(s: Session, seqno: nat, id: string) {
    || (exists item <- s.buffer :: Discarded(item, seqno, id))
    || Polluted(s, id)
    || (id != "" && exists n <- s.sources :: id in s.sources[n])
  }

  lemma {:induction false} WithoutShape(buf: seq<Item>, seqno: nat, id: string)
    requires Increasing(buf)
    ensures var kept := Without(buf, seqno, id);
      && Increasing(kept)
      && (forall k :: k in kept <==> k in buf && !Discarded(k, seqno, id))
  {
    if buf != [] {
      WithoutShape(buf[1..], seqno, id);
      assert buf == [buf[0]] + buf[1..];
      var rest := Without(buf[1..], seqno, id);
      assert forall k :: k in rest ==> k in buf[1..] && buf[0].seqno < k.seqno;
      if !Discarded(buf[0], seqno, id) { assert Without(buf, seqno, id) == [buf[0]] + rest; }
    }
  }

  // ---------- snapshot and commit ----------

  /** How many items precede the first staged one. */
  function Eligible(buf: seq<Item>): nat {
    if buf == [] || buf[0].staged then 0 else 1 + Eligible(buf[1..])
  }

  lemma {:induction false} EligiblePrefix(buf: seq<Item>)
    ensures var k := Eligible(buf);
      && k <= |buf| && (forall i :: 0 <= i < k ==> !buf[i].staged) && (k < |buf| ==> buf[k].staged)
  {
    if buf != [] && !buf[0].staged { EligiblePrefix(buf[1..]); }
  }

  function TakeSnapshot(s: Session, size: int): Option<Snapshot> {
    EligiblePrefix(s.buffer);
    var k := Eligible(s.buffer);
    if size <= 0 || k < size then None
    else Some(Snapshot(s.summary,
      seq(k, i requires 0 <= i < k => s.buffer[i].message),
      seq(k, i requires 0 <= i < k => s.buffer[i].message.id),
      s.buffer[k - 1].seqno, s.generation))
  }

  function After(buf: seq<Item>, through: nat): seq<Item> {
    if buf != [] && buf[0].seqno <= through then After(buf[1..], through) else buf
  }

  lemma {:induction false} AfterShape(buf: seq<Item>, through: nat)
    requires Increasing(buf)
    ensures var kept := After(buf, through);
      && Increasing(kept) && (forall k :: k in kept <==> k in buf && k.seqno > through)
  {
    if buf != [] && buf[0].seqno <= through { AfterShape(buf[1..], through); assert buf == [buf[0]] + buf[1..]; }
  }

  /** The keys left when only the newest `limit` sources are retained. */
  function Newest(keys: set<nat>, limit: nat): set<nat> {
    set k | k in keys && |Newer(keys, k)| < limit
  }

  function Newer(keys: set<nat>, k: nat): set<nat> { set j | j in keys && k < j }

  /** Retention never drops a newer source in favour of an older one, and drops nothing it has room for. */
  lemma KeepNewestShape(m: map<nat, seq<string>>, limit: nat)
    ensures forall j, k :: k in KeepNewest(m, limit) && j in m && k < j ==> j in KeepNewest(m, limit)
    ensures |m| <= limit ==> KeepNewest(m, limit) == m
    ensures |KeepNewest(m, limit)| <= limit
  {
    NewestFits(m.Keys, limit);
    assert KeepNewest(m, limit).Keys == Newest(m.Keys, limit);
    assert |KeepNewest(m, limit)| == |KeepNewest(m, limit).Keys|;
    forall j, k | k in KeepNewest(m, limit) && j in m && k < j ensures j in KeepNewest(m, limit) {
      assert Newer(m.Keys, j) <= Newer(m.Keys, k);
      SubsetSize(Newer(m.Keys, j), Newer(m.Keys, k));
    }
    if |m| <= limit {
      forall k | k in m ensures k in KeepNewest(m, limit) {
        assert Newer(m.Keys, k) <= m.Keys - {k};
        SubsetSize(Newer(m.Keys, k), m.Keys - {k});
      }
    }
  }

  lemma NewestFits(keys: set<nat>, limit: nat)
    ensures |Newest(keys, limit)| <= limit
  {
    var some := Newest(keys, limit);
    if some != {} {
      var k := Oldest(some);
      assert some <= Newer(keys, k) + {k};
      SubsetSize(some, Newer(keys, k) + {k});
    }
  }

  lemma {:induction false} Oldest(some: set<nat>) returns (k: nat)
    requires some != {}
    ensures k in some && forall j :: j in some ==> k <= j
    decreases |some|
  {
    k :| k in some;
    var rest := some - {k};
    assert forall j :: j in some ==> j == k || j in rest;
    if rest != {} {
      var other := Oldest(rest);
      if other < k { k := other; }
    }
  }

  lemma SubsetSize(a: set<nat>, b: set<nat>)
    requires a <= b
    ensures |a| <= |b|
  {
    assert b == a + (b - a);
  }

  function KeepNewest(m: map<nat, seq<string>>, limit: nat): map<nat, seq<string>> {
    map k | k in m && k in Newest(m.Keys, limit) :: m[k]
  }

  predicate Committable(s: Session, snap: Snapshot, text: string) {
    TrimSpace(text) != "" && snap.generation == s.generation
  }

  function Commit(s: Session, snap: Snapshot, text: string): Session
    requires Committable(s, snap, text)
  {
    var t := TrimSpace(text);
    s.(prevSummary := s.summary, prevGroups := s.groups, lastIds := snap.ids,
       sources := KeepNewest(s.sources[snap.through := snap.ids], MAX_COMMITTED_SOURCES),
       summary := t, groups := [SummaryGroup(t, snap.ids, snap.messages)],
       buffer := After(s.buffer, snap.through))
  }

  /** ResetSession: everything about the group goes, but sources and revocations stay. */
  function ClearForReset(s: Session): Session {
    s.(buffer := [], generation := s.generation + 1, summary := "", groups := [], prevSummary := "", prevGroups := [],
       lastIds := [])
  }

  /** ResetGroupCompact: as above, and sources and revocations go too. */
  function ClearCompaction(s: Session): Session {
    ClearForReset(s).(sources := map[], revoked := {})
  }

  // ---------- the object whose methods do this in place ----------

  class SessionBuffer {
    var buffer: seq<Item>
    var lastSeq: nat
    var generation: nat
    var summary: string
    var groups: seq<SummaryGroup>
    var prevSummary: string
    var prevGroups: seq<SummaryGroup>
    var lastIds: seq<string>
    var sources: map<nat, seq<string>>
    var revoked: set<string>

    ghost function View(): Session reads this {
      Session(buffer, lastSeq, generation, summary, groups, prevSummary, prevGroups, lastIds, sources, revoked)
    }

    constructor ()
      ensures View() == EmptySession
    {
      buffer, lastSeq, generation, summary, groups := [], 0, 0, "", [];
      prevSummary, prevGroups, lastIds, sources, revoked := "", [], [], map[], {};
    }

    /** The two in-place eviction passes over an over-full buffer. */
    method EvictPasses(max: nat)
      requires |buffer| > max
      modifies this`buffer
      ensures buffer == Evict(old(buffer), max)
    {
      var excess := |buffer| - max;
      var dropped, kept, i := 0, [], 0;
      while i < |buffer|
        invariant 0 <= i <= |buffer| && 0 <= dropped <= excess && buffer == old(buffer)
        invariant DropCommitted(buffer, excess) == kept + DropCommitted(buffer[i..], excess - dropped)
      {
        assert buffer[i..][0] == buffer[i] && buffer[i..][1..] == buffer[i + 1..];
        if !buffer[i].staged && dropped < excess {
          dropped := dropped + 1;
        } else {
          kept := kept + [buffer[i]];
        }
        i := i + 1;
      }
      buffer := kept;
      if |buffer| > max {
        buffer := buffer[|buffer| - max..];
      }
    }

    method AppendMessage(m: Message, staged: bool, max: int) returns (seqno: nat, length: nat)
      modifies this
      ensures View() == Append(old(View()), m, staged, max)
      ensures seqno == (if Blank(m.content) then 0 else old(lastSeq) + 1)
      ensures length == (if Blank(m.content) then 0 else |buffer|)
    {
      if Blank(m.content) { return 0, 0; }
      lastSeq := lastSeq + 1;
      buffer := buffer + [Item(lastSeq, WithRole(m), staged)];
      if |buffer| > Bound(max) { EvictPasses(Bound(max)); }
      return lastSeq, |buffer|;
    }

    method PromoteSlot(seqno: nat, rawId: string) returns (promoted: bool)
      modifies this`buffer
      ensures View() == Promote(old(View()), seqno, rawId)
      ensures promoted <==> exists i :: 0 <= i < |old(buffer)| && Selected(old(buffer)[i], seqno, TrimSpace(rawId))
    {
      var id := TrimSpace(rawId);
      promoted := false;
      ghost var was := buffer;
      var i := 0;
      while i < |buffer|
        invariant 0 <= i <= |buffer| == |was|
        invariant forall j :: 0 <= j < i ==> buffer[j] == PromoteItem(was[j], seqno, id)
        invariant forall j :: i <= j < |was| ==> buffer[j] == was[j]
        invariant promoted <==> exists j :: 0 <= j < i && Selected(was[j], seqno, id)
      {
        if Selected(buffer[i], seqno, id) {
          buffer := buffer[i := buffer[i].(staged := false)];
          promoted := true;
        }
        i := i + 1;
      }
    }

    /** SetImageDescription of a staged message's guard, while the guard is open. */
    method DescribeSlot(seqno: nat, text: string) returns (described: bool)
      requires Increasing(buffer)
      modifies this`buffer
      ensures View() == Describe(old(View()), seqno, text)
      ensures described <==> seqno > 0 && text != "" && exists item <- old(buffer) :: Describable(item, seqno)
    {
      if seqno == 0 || text == "" { return false; }
      ghost var was := buffer;
      for i := 0 to |buffer|
        invariant buffer == was && forall j :: 0 <= j < i ==> !Describable(was[j], seqno)
      {
        if Describable(buffer[i], seqno) {
          buffer := buffer[i := DescribeItem(buffer[i], seqno, text)];
          assert forall j :: i < j < |was| ==> was[j].seqno > seqno;
          return true;
        }
      }
      return false;
    }

    method FilterBuffer(seqno: nat, id: string) returns (dropped: bool)
      modifies this`buffer
      ensures buffer == Without(old(buffer), seqno, id)
      ensures dropped <==> exists item <- old(buffer) :: Discarded(item, seqno, id)
    {
      var filtered, i := [], 0;
      dropped := false;
      while i < |buffer|
        invariant 0 <= i <= |buffer| && buffer == old(buffer)
        invariant dropped <==> exists j :: 0 <= j < i && Discarded(buffer[j], seqno, id)
        invariant Without(buffer, seqno, id) == filtered + Without(buffer[i..], seqno, id)
      {
        assert buffer[i..][0] == buffer[i] && buffer[i..][1..] == buffer[i + 1..];
        if Discarded(buffer[i], seqno, id) {
          dropped := true;
        } else {
          Assoc(filtered, [buffer[i]], Without(buffer[i + 1..], seqno, id));
          filtered := filtered + [buffer[i]];
        }
        i := i + 1;
      }
      buffer := filtered;
    }

    method FindPollution(id: string) returns (polluted: bool)
      ensures polluted == Polluted(View(), id)
    {
      polluted := id != "" && id in lastIds;
      if id == "" || polluted { return; }
      var g := 0;
      while g < |groups| && !polluted
        invariant 0 <= g <= |groups|
        invariant polluted <==> exists j :: 0 <= j < g && id in groups[j].ids
      {
        polluted := id in groups[g].ids;
        g := g + 1;
      }
    }

    method RollBackSummary()
      modifies this
      ensures View() == RollBack(old(View()))
    {
      summary, groups, prevSummary, prevGroups, lastIds := prevSummary, prevGroups, "", [], [];
    }

    method RevokeId(id: string) returns (dropped: bool)
      requires id != ""
      modifies this
      ensures View() == Revoke(old(View()), id)
      ensures dropped <==> exists n <- old(sources) :: id in old(sources)[n]
    {
      dropped := exists n <- sources :: id in sources[n];
      revoked := revoked + {id};
      sources := SourcesWithout(sources, id);
    }

    /** The result says whether anything was dropped; the source's result is also true if a distillation is aborted. */
    method DropSlot(seqno: nat, rawId: string) returns (dropped: bool)
      modifies this
      ensures View() == Drop(old(View()), seqno, rawId)
      ensures dropped <==> DropsAnything(old(View()), seqno, TrimSpace(rawId))
    {
      var id := TrimSpace(rawId);
      if seqno == 0 && id == "" { return false; }
      dropped := FilterBuffer(seqno, id);
      ghost var s1 := View();
      var polluted := FindPollution(id);
      if polluted { RollBackSummary(); }
      ghost var s2 := View();
      assert s2 == if Polluted(s1, id) then RollBack(s1) else s1;
      var revoked := false;
      if id != "" { revoked := RevokeId(id); }
      generation := generation + 1;
      return dropped || polluted || revoked;
    }

    method SnapshotBatch(size: int) returns (r: Option<Snapshot>)
      ensures r == TakeSnapshot(View(), size)
    {
      if size <= 0 || |buffer| < size { EligiblePrefix(buffer); return None; }
      var k := 0;
      while k < |buffer| && !buffer[k].staged
        invariant 0 <= k <= |buffer|
        invariant Eligible(buffer) == k + Eligible(buffer[k..])
      {
        assert buffer[k..][0] == buffer[k] && buffer[k..][1..] == buffer[k + 1..];
        k := k + 1;
      }
      assert Eligible(buffer) == k;
      if k < size { return None; }
      var buf := buffer;
      r := Some(Snapshot(summary,
        seq(k, i requires 0 <= i < k => buf[i].message),
        seq(k, i requires 0 <= i < k => buf[i].message.id),
        buf[k - 1].seqno, generation));
    }

    /** persisted is the answer of the durable write that a SQL store makes inside this section. */
    method CommitSummary(snap: Snapshot, text: string, persisted: bool) returns (ok: bool)
      modifies this
      ensures ok <==> Committable(old(View()), snap, text) && persisted
      ensures View() == if ok then Commit(old(View()), snap, text) else old(View())
    {
      var t := TrimSpace(text);
      if t == "" || snap.generation != generation || !persisted { return false; }
      prevSummary, prevGroups, lastIds := summary, groups, snap.ids;
      sources := KeepNewest(sources[snap.through := snap.ids], MAX_COMMITTED_SOURCES);
      summary, groups := t, [SummaryGroup(t, snap.ids, snap.messages)];
      var firstNew := 0;
      while firstNew < |buffer| && buffer[firstNew].seqno <= snap.through
        invariant 0 <= firstNew <= |buffer|
        invariant After(buffer, snap.through) == After(buffer[firstNew..], snap.through)
      {
        assert buffer[firstNew..][0] == buffer[firstNew] && buffer[firstNew..][1..] == buffer[firstNew + 1..];
        firstNew := firstNew + 1;
      }
      buffer := buffer[firstNew..];
      return true;
    }

    method ResetForSession()
      modifies this
      ensures View() == ClearForReset(old(View()))
    {
      buffer, generation, summary, groups := [], generation + 1, "", [];
      prevSummary, prevGroups, lastIds := "", [], [];
    }
  }
}
