/** The durable store of group summaries (internal/groupsummary/store.go): session identity, and a deletion epoch
    per session that turns away writers from before a deletion. */
module SummaryStore {
  import opened Text

  const CANONICAL := "group:"
  const AIOCQHTTP := "aiocqhttp:group:"
  const QQ := "qq:group:"
  const ONEBOT := "onebot:group:"

  /** The canonical form of any QQ group session alias. */
  function Canonical(id: string): string {
    var t := TrimSpace(id);
    if AIOCQHTTP <= t then CANONICAL + t[|AIOCQHTTP|..]
    else if QQ <= t then CANONICAL + t[|QQ|..]
    else if ONEBOT <= t then CANONICAL + t[|ONEBOT|..]
    else t
  }

  function Aliases(id: string): seq<string> {
    var c := Canonical(id);
    if c == "" then []
    else if CANONICAL <= c then
      var group := c[|CANONICAL|..];
      [c, AIOCQHTTP + group, QQ + group, ONEBOT + group]
    else [c]
  }

  lemma TailTrimmed(prefix: string, tail: string, t: string)
    requires t == prefix + tail && Trimmed(t) && prefix != ""
    ensures tail != "" ==> !IsSpace(tail[|tail| - 1])
  {
    if tail != "" { assert t[|t| - 1] == tail[|tail| - 1]; }
  }

  lemma CanonicalTrimmed(id: string)
    ensures Trimmed(Canonical(id))
    ensures Canonical(id) == "" <==> TrimSpace(id) == ""
    ensures var c := Canonical(id); !(AIOCQHTTP <= c) && !(QQ <= c) && !(ONEBOT <= c)
  {
    var t, c := TrimSpace(id), Canonical(id);
    TrimSpaceShape(id);
    if c != t {
      var p := if AIOCQHTTP <= t then AIOCQHTTP else if QQ <= t then QQ else ONEBOT;
      assert t == p + t[|p|..];
      TailTrimmed(p, t[|p|..], t);
      assert c[0] == 'g';
    }
  }

  /** Canonical forms are stable. */
  lemma CanonicalIdempotent(id: string)
    ensures Canonical(Canonical(id)) == Canonical(id)
  {
    CanonicalTrimmed(id);
    TrimSpaceShape(Canonical(id));
  }

  lemma PrefixedCanonical(prefix: string, group: string)
    requires prefix in [AIOCQHTTP, QQ, ONEBOT] && Trimmed(CANONICAL + group)
    ensures Canonical(prefix + group) == CANONICAL + group
  {
    var t := prefix + group;
    assert Trimmed(t) by {
      if group != "" {
        assert t[|t| - 1] == group[|group| - 1];
        assert (CANONICAL + group)[|CANONICAL + group| - 1] == group[|group| - 1];
      }
    }
    TrimSpaceShape(t);
    assert t[|prefix|..] == group && t[0] == prefix[0];
  }

  /** Every alias names the same session as the identifier it was made from. */
  lemma AliasesAgree(id: string, a: string)
    requires a in Aliases(id)
    ensures Canonical(a) == Canonical(id)
  {
    CanonicalTrimmed(id);
    CanonicalIdempotent(id);
    var c := Canonical(id);
    if CANONICAL <= c && a != c {
      var group := c[|CANONICAL|..];
      assert c == CANONICAL + group;
      var p := if a == AIOCQHTTP + group then AIOCQHTTP else if a == QQ + group then QQ else ONEBOT;
      PrefixedCanonical(p, group);
    }
  }

  datatype Record = Record(sessionId: string, summary: string, createdAt: int, updatedAt: int)

  datatype Store = Store(records: map<string, Record>, generations: map<string, nat>, blocked: bool)

  datatype Outcome = Applied | Stale | Failed

  function Generation(s: Store, id: string): nat {
    var c := Canonical(id);
    if c in s.generations then s.generations[c] else 0
  }

  function Lookup(s: Store, id: string): Option<Record> {
    if Canonical(id) in s.records then Some(s.records[Canonical(id)])
    else if id in s.records then Some(s.records[id]) else None
  }

  function Forget(records: map<string, Record>, ids: seq<string>): map<string, Record> {
    map k | k in records && k !in ids :: records[k]
  }

  function UpsertOutcome(s: Store, id: string, text: string, expected: nat, saved: bool): Outcome {
    if TrimSpace(id) == "" || TrimSpace(text) == "" then Failed
    else if Generation(s, TrimSpace(id)) != expected then Stale
    else if s.blocked || !saved then Failed
    else Applied
  }

  /** saved is whether the write to disk or to SQL succeeds; now is the clock. */
  function Upsert(s: Store, id: string, text: string, expected: nat, saved: bool, now: int): Store {
    if UpsertOutcome(s, id, text, expected, saved) != Applied then s
    else
      var c := Canonical(TrimSpace(id));
      var created := if c in s.records then s.records[c].createdAt else now;
      s.(records := Forget(s.records, Aliases(TrimSpace(id)))[c := Record(c, TrimSpace(text), created, now)])
  }

  /** The deletion epoch of the session and of its aliases advances whether or not the write succeeds. */
  function Advance(s: Store, id: string): map<string, nat> {
    var g := Generation(s, id) + 1;
    map k | k in s.generations.Keys + {Canonical(id)} + (set a | a in Aliases(id)) ::
      if k == Canonical(id) || k in Aliases(id) then g else s.generations[k]
  }

  predicate DeleteSucceeds(s: Store, id: string, saved: bool) {
    TrimSpace(id) == "" || (!s.blocked && (saved || forall a :: a in Aliases(id) ==> a !in s.records))
  }

  function Delete(s: Store, rawId: string, saved: bool): Store {
    var id := TrimSpace(rawId);
    if id == "" then s
    else s.(generations := Advance(s, id), records := if DeleteSucceeds(s, id, saved)
            then Forget(s.records, Aliases(id)) else s.records)
  }

  /** Records are kept under canonical names only. */
  predicate StoreOk(s: Store) {
    forall k :: k in s.records ==> Canonical(k) == k && s.records[k].sessionId == k
  }

  lemma TrimCanonical(id: string)
    ensures Canonical(TrimSpace(id)) == Canonical(id) && Aliases(TrimSpace(id)) == Aliases(id)
    ensures Generation(Store(map[], map[], false), id) == 0
    ensures forall s: Store :: Generation(s, TrimSpace(id)) == Generation(s, id)
  {
    TrimSpaceShape(id);
    TrimSpaceShape(TrimSpace(id));
  }

  lemma CanonicalIsAlias(id: string)
    requires TrimSpace(id) != ""
    ensures Canonical(id) in Aliases(id)
  {
    CanonicalTrimmed(id);
  }

  lemma UpsertKeepsOk(s: Store, id: string, text: string, expected: nat, saved: bool, now: int)
    requires StoreOk(s)
    ensures StoreOk(Upsert(s, id, text, expected, saved, now))
    ensures Upsert(s, id, text, expected, saved, now).generations == s.generations
    ensures forall other :: Canonical(other) != Canonical(id) ==>
              Lookup(Upsert(s, id, text, expected, saved, now), other) == Lookup(s, other)
  {
    TrimCanonical(id);
    CanonicalIdempotent(id);
    var z := Upsert(s, id, text, expected, saved, now);
    forall other | Canonical(other) != Canonical(id) ensures Lookup(z, other) == Lookup(s, other) {
      CanonicalIdempotent(other);
      if Canonical(other) in Aliases(id) { AliasesAgree(id, Canonical(other)); }
      if other in Aliases(id) { AliasesAgree(id, other); }
    }
  }

  /** An applied write is what every alias of the session then reads. */
  lemma UpsertVisibleToAliases(s: Store, id: string, text: string, expected: nat, saved: bool, now: int, a: string)
    requires UpsertOutcome(s, id, text, expected, saved) == Applied && Canonical(a) == Canonical(id)
    ensures Lookup(Upsert(s, id, text, expected, saved, now), a).Some?
    ensures Lookup(Upsert(s, id, text, expected, saved, now), a).value.summary == TrimSpace(text)
  {
    TrimCanonical(id);
  }

  /** After a deletion every alias of the session has a later epoch; and if it succeeded, no alias finds a record. */
  lemma DeleteShutsOut(s: Store, id: string, saved: bool, a: string)
    requires StoreOk(s) && TrimSpace(id) != "" && Canonical(a) == Canonical(id)
    ensures var z := Delete(s, id, saved);
      && Generation(z, a) == Generation(s, a) + 1
      && StoreOk(z)
      && (DeleteSucceeds(s, id, saved) ==> Lookup(z, a).None?)
      && (!DeleteSucceeds(s, id, saved) ==> Lookup(z, a) == Lookup(s, a))
  {
    TrimCanonical(id);
    TrimCanonical(a);
    TrimSpaceShape(TrimSpace(id));
    CanonicalIsAlias(id);
  }

  /** So no write prepared before a deletion, under any alias of the session, applies after it. */
  lemma DeleteRefusesOldWrites(s: Store, id: string, saved: bool, a: string, text: string, expected: nat, ok: bool)
    requires StoreOk(s) && TrimSpace(id) != "" && Canonical(a) == Canonical(id) && expected <= Generation(s, a)
    ensures UpsertOutcome(Delete(s, id, saved), a, text, expected, ok) != Applied
  {
    DeleteShutsOut(s, id, saved, a);
    TrimCanonical(a);
  }

  // ---------- one session of the store ----------

  /** What the store holds for one session, whatever alias names it. */
  datatype Cell = Cell(generation: nat, summary: Option<string>, blocked: bool)

  function CellOf(s: Store, id: string): Cell {
    Cell(Generation(s, id), if Canonical(id) in s.records then Some(s.records[Canonical(id)].summary)
         else None, s.blocked)
  }

  function CellOutcome(c: Cell, text: string, expected: nat, saved: bool): Outcome {
    if TrimSpace(text) == "" then Failed
    else if c.generation != expected then Stale
    else if c.blocked || !saved then Failed else Applied
  }

  function CellUpsert(c: Cell, text: string, expected: nat, saved: bool): Cell {
    if CellOutcome(c, text, expected, saved) == Applied then c.(summary := Some(TrimSpace(text))) else c
  }

  predicate CellDeletes(c: Cell, saved: bool) { !c.blocked && (saved || c.summary.None?) }

  function CellDelete(c: Cell, saved: bool): Cell {
    c.(generation := c.generation + 1, summary := if CellDeletes(c, saved) then None else c.summary)
  }

  /** A write under one alias is a write to the session's cell as every alias sees it, and to no other session. */
  lemma UpsertRefinesCell(s: Store, id: string, text: string, expected: nat, saved: bool, now: int, a: string)
    requires StoreOk(s) && TrimSpace(id) != ""
    ensures Canonical(a) == Canonical(id) ==>
      && UpsertOutcome(s, id, text, expected, saved) == CellOutcome(CellOf(s, a), text, expected, saved)
      && CellOf(Upsert(s, id, text, expected, saved, now), a) == CellUpsert(CellOf(s, a), text, expected, saved)
    ensures Canonical(a) != Canonical(id) ==> CellOf(Upsert(s, id, text, expected, saved, now), a) == CellOf(s, a)
    ensures StoreOk(Upsert(s, id, text, expected, saved, now))
  {
    UpsertKeepsOk(s, id, text, expected, saved, now);
    TrimCanonical(id);
    CanonicalIdempotent(a);
    if Canonical(a) != Canonical(id) && Canonical(a) in Aliases(id) { AliasesAgree(id, Canonical(a)); }
  }

  /** Likewise for a deletion. */
  lemma DeleteRefinesCell(s: Store, id: string, saved: bool, a: string)
    requires StoreOk(s) && TrimSpace(id) != ""
    ensures Canonical(a) == Canonical(id) ==>
      && DeleteSucceeds(s, id, saved) == CellDeletes(CellOf(s, a), saved)
      && CellOf(Delete(s, id, saved), a) == CellDelete(CellOf(s, a), saved)
    ensures Canonical(a) != Canonical(id) ==> CellOf(Delete(s, id, saved), a) == CellOf(s, a)
    ensures StoreOk(Delete(s, id, saved))
  {
    TrimCanonical(id);
    TrimSpaceShape(TrimSpace(id));
    CanonicalIdempotent(a);
    CanonicalIsAlias(id);
    if Canonical(a) != Canonical(id) {
      if Canonical(a) in Aliases(id) { AliasesAgree(id, Canonical(a)); }
    } else {
      forall b | b in Aliases(id) && b in s.records ensures b == Canonical(id) { AliasesAgree(id, b); }
      DeleteShutsOut(s, id, saved, a);
    }
  }

  /** The object whose maps these operations replace. */
  class SummaryFile {
    var records: map<string, Record>
    var generations: map<string, nat>
    var blocked: bool

    ghost function View(): Store reads this { Store(records, generations, blocked) }

    method UpsertSummary(rawId: string, rawText: string, expected: nat, saved: bool, now: int) returns (r: Outcome)
      modifies this`records
      ensures r == UpsertOutcome(old(View()), rawId, rawText, expected, saved)
      ensures View() == Upsert(old(View()), rawId, rawText, expected, saved, now)
    {
      var id, text := TrimSpace(rawId), TrimSpace(rawText);
      if id == "" || text == "" { return Failed; }
      var c := Canonical(id);
      var current := if c in generations then generations[c] else 0;
      if current != expected { return Stale; }
      if blocked || !saved { return Failed; }
      var created := if c in records then records[c].createdAt else now;
      records := Forget(records, Aliases(id))[c := Record(c, text, created, now)];
      return Applied;
    }

    method DeleteSummary(rawId: string, saved: bool) returns (ok: bool)
      modifies this`records, this`generations
      ensures ok == DeleteSucceeds(old(View()), rawId, saved)
      ensures View() == Delete(old(View()), rawId, saved)
    {
      var id := TrimSpace(rawId);
      TrimSpaceShape(rawId);
      TrimSpaceShape(id);
      if id == "" { return true; }
      ghost var s := View();
      TrimCanonical(rawId);
      generations := Advance(Store(records, generations, blocked), id);
      if blocked { return false; }
      var next, deleted, i := records, false, 0;
      var aliases := Aliases(id);
      while i < |aliases|
        invariant 0 <= i <= |aliases|
        invariant next == Forget(records, aliases[..i])
        invariant deleted <==> exists a :: a in aliases[..i] && a in records
      {
        assert aliases[..i + 1] == aliases[..i] + [aliases[i]];
        if aliases[i] in next { next, deleted := next - {aliases[i]}, true; }
        i := i + 1;
      }
      assert aliases[..i] == aliases;
      if !deleted { assert next == records; return true; }
      if !saved { return false; }
      records := next;
      return true;
    }
  }
}
