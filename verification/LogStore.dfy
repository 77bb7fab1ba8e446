/** The in-memory log (internal/logs/logs.go and internal/logs/images.go): a ring of entries under a byte budget, with
    reference-counted images.  It behaves as a bounded queue. */
module LogStore {
  import opened Text

  datatype Entry = Entry(id: nat, content: string, trace: string, instance: string, name: string, images: seq<string>)

  function EntryBytes(e: Entry): nat { |e.content| + |e.trace| + |e.instance| + |e.name| + 64 }

  // ---------- the queue ----------

  function Bytes(live: seq<Entry>): nat { if live == [] then 0 else EntryBytes(live[0]) + Bytes(live[1..]) }

  /** References to images from live entries. */
  function Refs(live: seq<Entry>): multiset<string> {
    if live == [] then multiset{} else multiset(live[0].images) + Refs(live[1..])
  }

  /** size: the ring's capacity; max: the byte budget, none if it is not positive; last: the latest ID given out. */
  datatype Queue = Queue(live: seq<Entry>, size: nat, max: int, last: nat, instance: string, name: string)

  /** The oldest entries go until the budget is kept. */
  function Evicted(live: seq<Entry>, max: int): seq<Entry> {
    if live == [] || max <= 0 || Bytes(live) <= max then live else Evicted(live[1..], max)
  }

  function Next(q: Queue, content: string, trace: string, images: seq<string>): Entry {
    Entry(q.last + 1, content, trace, q.instance, q.name, images)
  }

  function Logged(q: Queue, content: string, trace: string, images: seq<string>): Queue {
    q.(live := Evicted(Kept(q) + [Next(q, content, trace, images)], q.max), last := q.last + 1)
  }

  datatype Event =
    | Log(content: string, trace: string, images: seq<string>)
    | SetMaxBytes(max: int)
    | Clear
    | Rename(name: string)

  function Step(q: Queue, e: Event): Queue {
    match e
    case Log(content, trace, images) => Logged(q, content, trace, images)
    case SetMaxBytes(max) => q.(max := max, live := Evicted(q.live, max))
    case Clear => q.(live := [])
    case Rename(name) => q.(name := name)
  }

  /** IDs count up to the last one given out. */
  predicate Consecutive(live: seq<Entry>, last: nat) {
    |live| <= last && forall i :: 0 <= i < |live| ==> live[i].id == last - |live| + 1 + i
  }

  predicate QueueOk(q: Queue) {
    0 < q.size && |q.live| <= q.size && Consecutive(q.live, q.last) && (q.max > 0 ==> Bytes(q.live) <= q.max)
  }

  /** How many entries are evicted. */
  function EvictCount(live: seq<Entry>, max: int): (d: nat)
    ensures d <= |live|
  {
    if live == [] || max <= 0 || Bytes(live) <= max then 0 else 1 + EvictCount(live[1..], max)
  }

  /** What is kept is the end of what was there, and stays within a positive budget. */
  lemma {:induction false} EvictedShape(live: seq<Entry>, max: int)
    ensures Evicted(live, max) == live[EvictCount(live, max)..]
    ensures max > 0 ==> Bytes(Evicted(live, max)) <= max
    decreases |live|
  {
    if live == [] || max <= 0 || Bytes(live) <= max {
      assert live[0..] == live;
    } else {
      var d := EvictCount(live[1..], max);
      EvictedShape(live[1..], max);
      assert live[1..][d..] == live[d + 1..];
    }
  }

  lemma SuffixConsecutive(live: seq<Entry>, last: nat, d: nat)
    requires Consecutive(live, last) && d <= |live|
    ensures Consecutive(live[d..], last)
  {
  }

  lemma EvictedConsecutive(live: seq<Entry>, last: nat, max: int)
    requires Consecutive(live, last)
    ensures Consecutive(Evicted(live, max), last) && |Evicted(live, max)| <= |live|
  {
    EvictedShape(live, max);
    SuffixConsecutive(live, last, EvictCount(live, max));
  }

  /** The ring gives up its oldest entry when it is full. */
  function Kept(q: Queue): seq<Entry> { if |q.live| >= q.size && q.live != [] then q.live[1..] else q.live }

  lemma LogKeeps(q: Queue, content: string, trace: string, images: seq<string>)
    requires QueueOk(q)
    ensures QueueOk(Logged(q, content, trace, images))
  {
    var n := Next(q, content, trace, images);
    SuffixConsecutive(q.live, q.last, |q.live| - |Kept(q)|);
    assert q.live[0..] == q.live;
    assert Consecutive(Kept(q) + [n], q.last + 1);
    EvictedConsecutive(Kept(q) + [n], q.last + 1, q.max);
    EvictedShape(Kept(q) + [n], q.max);
  }

  lemma StepKeeps(q: Queue, e: Event)
    requires QueueOk(q)
    ensures QueueOk(Step(q, e)) && Step(q, e).size == q.size
  {
    match e
    case Log(content, trace, images) => LogKeeps(q, content, trace, images);
    case SetMaxBytes(max) =>
      EvictedConsecutive(q.live, q.last, max);
      EvictedShape(q.live, max);
    case Clear =>
    case Rename(_) =>
  }

  /** Everything logged in a run, in order. */
  function AllLogged(q: Queue, run: seq<Event>): seq<Entry>
    decreases |run|
  {
    if run == [] then []
    else
      (if run[0].Log? then [Next(q, run[0].content, run[0].trace, run[0].images)] else []) +
      AllLogged(Step(q, run[0]), run[1..])
  }

  function Run(q: Queue, run: seq<Event>): Queue
    decreases |run|
  {
    if run == [] then q else Run(Step(q, run[0]), run[1..])
  }

  predicate IsSuffix(a: seq<Entry>, b: seq<Entry>) { |a| <= |b| && b[|b| - |a|..] == a }

  lemma SuffixOfSuffix(live: seq<Entry>, all: seq<Entry>, d: nat)
    requires IsSuffix(live, all) && d <= |live|
    ensures IsSuffix(live[d..], all)
  {
  }

  lemma SuffixSnoc(live: seq<Entry>, all: seq<Entry>, n: Entry)
    requires IsSuffix(live, all)
    ensures IsSuffix(live + [n], all + [n])
  {
  }

  lemma StepIsSuffix(q: Queue, e: Event, all: seq<Entry>)
    requires IsSuffix(q.live, all)
    ensures IsSuffix(Step(q, e).live, all + if e.Log? then [Next(q, e.content, e.trace, e.images)] else [])
  {
    assert all + [] == all;
    match e
    case Log(content, trace, images) => LogIsSuffix(q, Next(q, content, trace, images), all);
    case SetMaxBytes(max) =>
      EvictedShape(q.live, max);
      SuffixOfSuffix(q.live, all, EvictCount(q.live, max));
    case _ =>
  }

  lemma LogIsSuffix(q: Queue, n: Entry, all: seq<Entry>)
    requires IsSuffix(q.live, all)
    ensures IsSuffix(Evicted(Kept(q) + [n], q.max), all + [n])
  {
    assert q.live[0..] == q.live;
    SuffixOfSuffix(q.live, all, |q.live| - |Kept(q)|);
    SuffixSnoc(Kept(q), all, n);
    EvictedShape(Kept(q) + [n], q.max);
    SuffixOfSuffix(Kept(q) + [n], all + [n], EvictCount(Kept(q) + [n], q.max));
  }

  /** After any run, the live entries are the latest of all that were logged, without a gap: their IDs count up to the
      last one given out, there are no more than the ring holds, and together they keep a positive budget. */
  lemma {:induction false} RunKeepsLatest(q: Queue, run: seq<Event>, all: seq<Entry>)
    requires QueueOk(q) && IsSuffix(q.live, all)
    ensures QueueOk(Run(q, run)) && IsSuffix(Run(q, run).live, all + AllLogged(q, run))
    decreases |run|
  {
    if run == [] {
      assert all + [] == all;
    } else {
      var e := run[0];
      var one := if e.Log? then [Next(q, e.content, e.trace, e.images)] else [];
      StepKeeps(q, e);
      StepIsSuffix(q, e, all);
      RunKeepsLatest(Step(q, e), run[1..], all + one);
      Assoc(all, one, AllLogged(Step(q, e), run[1..]));
    }
  }

  // ---------- the ring ----------

  /** The slots in ring order, from the cursor. */
  function Rotated<T>(slots: seq<T>, cursor: nat): (r: seq<T>)
    requires cursor <= |slots|
    ensures |r| == |slots|
  {
    slots[cursor..] + slots[..cursor]
  }

  function At(cursor: nat, i: nat, size: nat): (k: nat)
    requires cursor < size && i < size
    ensures k < size
  {
    if cursor + i < size then cursor + i else cursor + i - size
  }

  lemma RotatedUpdate<T>(slots: seq<T>, cursor: nat, i: nat, v: T)
    requires cursor < |slots| && i < |slots|
    ensures Rotated(slots, cursor)[i] == slots[At(cursor, i, |slots|)]
    ensures Rotated(slots[At(cursor, i, |slots|) := v], cursor) == Rotated(slots, cursor)[i := v]
  {
  }

  lemma RotatedAdvance<T>(slots: seq<T>, cursor: nat, v: T)
    requires cursor < |slots|
    ensures Rotated(slots[cursor := v], if cursor + 1 < |slots| then cursor + 1 else 0) ==
            Rotated(slots, cursor)[1..] + [v]
  {
  }

  /** Empty slots, then the live entries in order. */
  function Slots(empty: nat, live: seq<Entry>): (r: seq<Option<Entry>>)
    ensures |r| == empty + |live|
    ensures forall i :: 0 <= i < |r| ==> r[i] == if i < empty then None else Some(live[i - empty])
  {
    seq(empty + |live|, i requires 0 <= i < empty + |live| => if i < empty then None else Some(live[i - empty]))
  }

  /** The image cache holds exactly the images with references, each with its count. */
  ghost predicate Tally(cache: map<string, int>, refs: multiset<string>) {
    forall h :: (h in cache <==> refs[h] > 0) && (h in cache ==> cache[h] == refs[h])
  }

  lemma {:induction false} SumsAppend(a: seq<Entry>, b: seq<Entry>)
    ensures Bytes(a + b) == Bytes(a) + Bytes(b) && Refs(a + b) == Refs(a) + Refs(b)
  {
    if a == [] {
      assert a + b == b;
    } else {
      assert (a + b)[1..] == a[1..] + b;
      SumsAppend(a[1..], b);
    }
  }

  lemma TallyDrop(cache: map<string, int>, refs: multiset<string>, h: string)
    requires Tally(cache, refs) && refs[h] > 0
    ensures Tally(if cache[h] <= 1 then cache - {h} else cache[h := cache[h] - 1], refs - multiset{h})
  {
  }

  lemma TallyAdd(cache: map<string, int>, refs: multiset<string>, h: string)
    requires Tally(cache, refs)
    ensures Tally(cache[h := (if h in cache then cache[h] else 0) + 1], refs + multiset{h})
  {
  }

  class Store {
    var slots: array<Option<Entry>>
    var cursor: nat
    var totalBytes: int
    var maxBytes: int
    var nextEntryID: nat
    var imageCache: map<string, int>
    var name: string
    const id: string
    /** The entries in the ring, oldest first. */
    ghost var live: seq<Entry>

    ghost predicate Valid()
      reads this, slots
    {
      && 0 < slots.Length && cursor < slots.Length && |live| <= slots.Length
      && Rotated(slots[..], cursor) == Slots(slots.Length - |live|, live)
      && totalBytes == Bytes(live)
      && Tally(imageCache, Refs(live))
    }

    ghost function View(): Queue
      reads this, slots
    {
      Queue(live, slots.Length, maxBytes, nextEntryID, id, name)
    }

    constructor (id: string, name: string, size: nat, maxBytes: int)
      ensures Valid() && fresh(slots)
      ensures View() == Queue([], if size == 0 then 1 else size, maxBytes, 0, id, name)
    {
      this.id, this.name, this.maxBytes := id, name, maxBytes;
      slots := new Option<Entry>[if size == 0 then 1 else size](_ => None);
      cursor, totalBytes, nextEntryID, imageCache := 0, 0, 0, map[];
      live := [];
      new;
      assert Rotated(slots[..], 0) == Slots(slots.Length, []);
    }

    /** releaseImagesLocked. */
    method ReleaseImages(refs: seq<string>, ghost counted: multiset<string>)
      requires Tally(imageCache, counted) && multiset(refs) <= counted
      modifies this`imageCache
      ensures Tally(imageCache, counted - multiset(refs))
    {
      assert refs[..0] == [];
      for i := 0 to |refs|
        invariant Tally(imageCache, counted - multiset(refs[..i]))
      {
        assert refs[..i + 1] == refs[..i] + [refs[i]];
        assert refs == refs[..i + 1] + refs[i + 1..];
        ghost var left := counted - multiset(refs[..i]);
        TallyDrop(imageCache, left, refs[i]);
        imageCache := if imageCache[refs[i]] <= 1 then imageCache - {refs[i]}
            else imageCache[refs[i] := imageCache[refs[i]] - 1];
        assert left - multiset{refs[i]} == counted - multiset(refs[..i + 1]);
      }
      assert refs[..|refs|] == refs;
    }

    /** retainImagesLocked. */
    method RetainImages(images: seq<string>, ghost counted: multiset<string>)
      requires Tally(imageCache, counted)
      modifies this`imageCache
      ensures Tally(imageCache, counted + multiset(images))
    {
      assert images[..0] == [];
      for i := 0 to |images|
        invariant Tally(imageCache, counted + multiset(images[..i]))
      {
        assert images[..i + 1] == images[..i] + [images[i]];
        TallyAdd(imageCache, counted + multiset(images[..i]), images[i]);
        imageCache := imageCache[images[i] := (if images[i] in imageCache then imageCache[images[i]] else 0) + 1];
        assert counted + multiset(images[..i]) + multiset{images[i]} == counted + multiset(images[..i + 1]);
      }
      assert images[..|images|] == images;
    }

    /** The oldest slot that is not empty yet. */
    method EvictOldest(i: nat)
      requires Valid() && live != [] && i == slots.Length - |live|
      modifies this`totalBytes, this`imageCache, this`live, slots
      ensures Valid() && live == old(live)[1..] && slots == old(slots)
    {
      ghost var s := slots[..];
      var k := At(cursor, i, slots.Length);
      RotatedUpdate(s, cursor, i, None);
      assert slots[k] == Some(live[0]);
      var e := slots[k].value;
      ReleaseImages(e.images, Refs(live));
      totalBytes := totalBytes - EntryBytes(e);
      slots[k] := None;
      assert slots[..] == s[k := None];
      live := live[1..];
    }

    /** evictOverBudgetLocked. */
    method EvictOverBudget()
      requires Valid()
      modifies this`totalBytes, this`imageCache, this`live, slots
      ensures Valid() && slots == old(slots) && live == Evicted(old(live), maxBytes)
    {
      if maxBytes <= 0 || totalBytes <= maxBytes { return; }
      ghost var all := live;
      var i := 0;
      while i < slots.Length && totalBytes > maxBytes
        invariant Valid() && 0 <= i <= slots.Length && slots == old(slots)
        invariant slots.Length - |live| >= i
        invariant Evicted(live, maxBytes) == Evicted(all, maxBytes)
      {
        var k := At(cursor, i, slots.Length);
        RotatedUpdate(slots[..], cursor, i, None);
        if slots[k].Some? { EvictOldest(i); }
        i := i + 1;
      }
    }

    /** What the slot at the cursor held is given up. */
    method ForgetOldest()
      requires Valid()
      modifies this`totalBytes, this`imageCache
      ensures totalBytes == Bytes(Kept(View())) && Tally(imageCache, Refs(Kept(View())))
    {
      RotatedUpdate(slots[..], cursor, 0, None);
      if slots[cursor].Some? {
        ReleaseImages(slots[cursor].value.images, Refs(live));
        totalBytes := totalBytes - EntryBytes(slots[cursor].value);
      }
    }

    /** The entry takes the slot at the cursor. */
    method Place(entry: Entry, ghost kept: seq<Entry>)
      requires 0 < slots.Length && cursor < slots.Length && |live| <= slots.Length
      requires Rotated(slots[..], cursor) == Slots(slots.Length - |live|, live) && kept == Kept(View())
      modifies this`cursor, this`live, slots
      ensures slots == old(slots) && cursor < slots.Length && live == kept + [entry] && |live| <= slots.Length
      ensures Rotated(slots[..], cursor) == Slots(slots.Length - |live|, live)
    {
      ghost var s := slots[..];
      RotatedAdvance(s, cursor, Some(entry));
      SlotsAdvance(View(), entry);
      slots[cursor] := Some(entry);
      assert slots[..] == s[cursor := Some(entry)];
      cursor := if cursor + 1 < slots.Length then cursor + 1 else 0;
      live := kept + [entry];
    }

    /** The part of logWithImages that puts the entry in place of the oldest slot. */
    method Put(entry: Entry)
      requires Valid()
      modifies this`cursor, this`totalBytes, this`imageCache, this`live, slots
      ensures Valid() && slots == old(slots) && live == Kept(old(View())) + [entry]
    {
      ghost var kept := Kept(View());
      Account(entry, kept);
      Place(entry, kept);
    }

    /** Bytes and images, as they are with the entry in the oldest one's place. */
    method Account(entry: Entry, ghost kept: seq<Entry>)
      requires Valid() && kept == Kept(View())
      modifies this`totalBytes, this`imageCache
      ensures totalBytes == Bytes(kept + [entry]) && Tally(imageCache, Refs(kept + [entry]))
    {
      ForgetOldest();
      RetainImages(entry.images, Refs(kept));
      totalBytes := totalBytes + EntryBytes(entry);
      SumsSnoc(kept, entry);
    }

    method LogWithImages(content: string, trace: string, images: seq<string>)
      requires Valid()
      modifies this, slots
      ensures Valid() && slots == old(slots) && View() == Step(old(View()), Log(content, trace, images))
    {
      ghost var q := View();
      nextEntryID := nextEntryID + 1;
      var entry := Entry(nextEntryID, content, trace, id, name, images);
      assert entry == Next(q, content, trace, images) && Kept(View()) == Kept(q);
      Put(entry);
      EvictOverBudget();
    }

    method SetMaxBytes(max: int)
      requires Valid()
      modifies this, slots
      ensures Valid() && slots == old(slots) && View() == Step(old(View()), Event.SetMaxBytes(max))
    {
      maxBytes := max;
      EvictOverBudget();
    }

    method Clear()
      requires Valid()
      modifies this
      ensures Valid() && fresh(slots) && View() == Step(old(View()), Event.Clear)
    {
      slots := new Option<Entry>[slots.Length](_ => None);
      imageCache, totalBytes, live := map[], 0, [];
      assert Rotated(slots[..], cursor) == Slots(slots.Length, []);
    }

    method Rename(name: string)
      requires Valid()
      modifies this`name
      ensures Valid() && View() == Step(old(View()), Event.Rename(name))
    {
      this.name := name;
    }

    /** Snapshot: once round the ring from the cursor. */
    method Snapshot() returns (logs: seq<Entry>)
      requires Valid()
      ensures logs == live
    {
      logs := [];
      ghost var gap := slots.Length - |live|;
      for i := 0 to slots.Length
        invariant logs == if i <= gap then [] else live[..i - gap]
      {
        var k := At(cursor, i, slots.Length);
        RotatedUpdate(slots[..], cursor, i, None);
        if slots[k].Some? { logs := logs + [slots[k].value]; }
      }
    }
  }

  lemma SlotsAdvance(q: Queue, e: Entry)
    requires 0 < q.size && |q.live| <= q.size
    ensures Slots(q.size - |q.live|, q.live)[1..] + [Some(e)] == Slots(q.size - |Kept(q) + [e]|, Kept(q) + [e])
  {
  }

  lemma SumsSnoc(live: seq<Entry>, e: Entry)
    ensures Bytes(live + [e]) == Bytes(live) + EntryBytes(e) && Refs(live + [e]) == Refs(live) + multiset(e.images)
  {
    SumsAppend(live, [e]);
    assert [e][1..] == [] && Bytes([e][1..]) == 0;
    assert Refs([e]) == multiset(e.images) + Refs([e][1..]);
  }
}
