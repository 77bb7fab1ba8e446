/** The vector index of one scope's memories (internal/memory/embedding.go): snapshot comparison, ranking, and the
    worker that rebuilds the index.  IDs stand for strings in their order, and hashes for non-empty strings. */
module Embeddings {
  import opened Text

  type Id = nat
  type Hash = h: nat | h > 0 witness 1

  datatype Memory = Memory(id: Id, hash: Hash, text: string)

  predicate UniqueIds(ms: seq<Memory>) { forall i, j :: 0 <= i < j < |ms| ==> ms[i].id != ms[j].id }

  datatype Pair = Pair(id: Id, hash: Hash)

  /** Each ID with its hash. */
  function Pairs(ms: seq<Memory>): set<Pair> { set m <- ms :: Pair(m.id, m.hash) }

  lemma PairsSnoc(ms: seq<Memory>, m: Memory)
    ensures Pairs(ms + [m]) == Pairs(ms) + {Pair(m.id, m.hash)}
  {
    assert forall x :: x in ms + [m] <==> x in ms || x == m;
    assert m in ms + [m];
  }

  lemma {:induction false} PairsSize(ms: seq<Memory>)
    requires UniqueIds(ms)
    ensures |Pairs(ms)| == |ms|
  {
    if ms != [] {
      var n := |ms| - 1;
      var front, last := ms[..n], ms[n];
      PairsSize(front);
      NotAgain(ms);
      OneMore(front, last);
      assert ms == front + [last];
    }
  }

  lemma OneMore(ms: seq<Memory>, m: Memory)
    requires Pair(m.id, m.hash) !in Pairs(ms)
    ensures |Pairs(ms + [m])| == |Pairs(ms)| + 1
  {
    PairsSnoc(ms, m);
  }

  lemma NotAgain(ms: seq<Memory>)
    requires UniqueIds(ms) && ms != []
    ensures Pair(ms[|ms| - 1].id, ms[|ms| - 1].hash) !in Pairs(ms[..|ms| - 1])
  {
    var n := |ms| - 1;
    forall m <- ms[..n] ensures m.id != ms[n].id {
      var i :| 0 <= i < n && ms[..n][i] == m;
      assert ms[i] == m;
    }
  }

  /** The map that both snapshotMatches and rankEmbedded build. */
  method IndexOf(ms: seq<Memory>) returns (values: map<Id, Hash>)
    requires UniqueIds(ms)
    ensures forall p: Pair :: p in Pairs(ms) <==> p.id in values && values[p.id] == p.hash
  {
    values := map[];
    for i := 0 to |ms|
      invariant forall id <- values :: exists j :: 0 <= j < i && ms[j].id == id
      invariant forall p: Pair :: p in Pairs(ms[..i]) <==> p.id in values && values[p.id] == p.hash
    {
      assert ms[..i + 1] == ms[..i] + [ms[i]];
      PairsSnoc(ms[..i], ms[i]);
      assert ms[i].id !in values;
      values := values[ms[i].id := ms[i].hash];
    }
    assert ms[..|ms|] == ms;
  }

  /** snapshotMatches: true exactly when both lists hold the same IDs with the same hashes. */
  method SnapshotMatches(before: seq<Memory>, after: seq<Memory>) returns (same: bool)
    requires UniqueIds(before) && UniqueIds(after)
    ensures same <==> Pairs(before) == Pairs(after)
  {
    PairsSize(before);
    PairsSize(after);
    if |before| != |after| { return false; }
    var values := IndexOf(before);
    for i := 0 to |after|
      invariant forall j :: 0 <= j < i ==> Pair(after[j].id, after[j].hash) in Pairs(before)
    {
      ghost var p := Pair(after[i].id, after[i].hash);
      assert after[i] in after && p in Pairs(after);
      if after[i].id !in values || values[after[i].id] != after[i].hash { return false; }
    }
    SubsetOfSameSize(Pairs(after), Pairs(before));
    return true;
  }

  lemma {:induction false} SubsetOfSameSize(x: set<Pair>, y: set<Pair>)
    requires x <= y && |x| == |y|
    ensures x == y
    decreases |x|
  {
    if x == {} {
      assert y == {};
    } else {
      var e :| e in x;
      SubsetOfSameSize(x - {e}, y - {e});
      assert x == x - {e} + {e} && y == y - {e} + {e};
    }
  }

  // ---------- ranking ----------

  datatype Score = Score(id: Id, hash: Hash, distance: real)

  predicate Less(a: Score, b: Score) { if a.distance == b.distance then a.id < b.id else a.distance < b.distance }

  predicate Ordered(ss: seq<Score>) { forall i, j :: 0 <= i < j < |ss| ==> Less(ss[i], ss[j]) }

  predicate DistinctIds(ss: seq<Score>) { forall i, j :: 0 <= i < j < |ss| ==> ss[i].id != ss[j].id }

  function Inserted(s: Score, ss: seq<Score>): seq<Score> {
    if ss == [] || Less(s, ss[0]) then [s] + ss else [ss[0]] + Inserted(s, ss[1..])
  }

  /** sort.Slice with the order of rankEmbedded. */
  function Sorted(ss: seq<Score>): seq<Score> {
    if ss == [] then [] else Inserted(ss[0], Sorted(ss[1..]))
  }

  lemma {:induction false} InsertedShape(s: Score, ss: seq<Score>)
    requires Ordered(ss) && forall x <- ss :: x.id != s.id
    ensures Ordered(Inserted(s, ss)) && multiset(Inserted(s, ss)) == multiset(ss) + multiset{s}
    ensures forall x :: x in Inserted(s, ss) <==> x in ss || x == s
  {
    if ss != [] {
      assert ss == [ss[0]] + ss[1..];
      assert ss[0] in ss;
      if Less(s, ss[0]) {
        assert forall j :: 0 <= j < |ss| ==> Less(s, ss[j]);
      } else {
        InsertedShape(s, ss[1..]);
        forall x <- Inserted(s, ss[1..]) ensures Less(ss[0], x) {
          if x in ss[1..] { var i :| 0 <= i < |ss[1..]| && ss[1..][i] == x; }
        }
      }
    }
  }

  /** The order is total on distinct IDs, so that sorting has one result: the scores themselves, in order. */
  lemma {:induction false} SortedShape(ss: seq<Score>)
    requires DistinctIds(ss)
    ensures Ordered(Sorted(ss)) && multiset(Sorted(ss)) == multiset(ss)
    ensures forall x :: x in Sorted(ss) <==> x in ss
  {
    if ss != [] {
      SortedShape(ss[1..]);
      assert ss == [ss[0]] + ss[1..];
      forall x <- Sorted(ss[1..]) ensures x.id != ss[0].id {
        var i :| 0 <= i < |ss[1..]| && ss[1..][i] == x;
      }
      InsertedShape(ss[0], Sorted(ss[1..]));
    }
  }

  predicate Live(current: set<Pair>, s: Score) { Pair(s.id, s.hash) in current }

  /** Scores of live memories whose hash is current. */
  function Hits(ss: seq<Score>, current: set<Pair>): seq<Score> {
    if ss == [] then [] else if Live(current, ss[0]) then [ss[0]] + Hits(ss[1..], current) else Hits(ss[1..], current)
  }

  function Ranked(ss: seq<Score>, current: set<Pair>, limit: int): seq<Score> {
    var hits := Hits(Sorted(ss), current);
    if limit > 0 && |hits| > limit then hits[..limit] else hits
  }

  lemma {:induction false} HitsShape(ss: seq<Score>, current: set<Pair>)
    requires Ordered(ss)
    ensures Ordered(Hits(ss, current)) && forall x :: x in Hits(ss, current) <==> x in ss && Live(current, x)
  {
    if ss != [] {
      HitsShape(ss[1..], current);
      forall x <- Hits(ss[1..], current) ensures Less(ss[0], x) {
        var i :| 0 <= i < |ss[1..]| && ss[1..][i] == x;
      }
    }
  }

  /** A search returns only live memories whose current hash matches their vector, nearest first and by ID among
      equals; what it leaves out, though live and matching, comes after everything returned, and only when the limit is
      reached. */
  lemma RankedIsBest(ss: seq<Score>, current: set<Pair>, limit: int)
    requires DistinctIds(ss)
    ensures var r := Ranked(ss, current, limit);
            && Ordered(r) && (forall x <- r :: x in ss && Live(current, x))
            && (limit > 0 ==> |r| <= limit)
            && (forall x <- ss :: Live(current, x) && x !in r ==>
                  limit > 0 && |r| == limit && forall y <- r :: Less(y, x))
  {
    SortedShape(ss);
    HitsShape(Sorted(ss), current);
    var hits := Hits(Sorted(ss), current);
    var r := Ranked(ss, current, limit);
    forall x <- ss | Live(current, x) && x !in r ensures limit > 0 && |r| == limit && forall y <- r :: Less(y, x) {
      var i :| 0 <= i < |hits| && hits[i] == x;
      assert forall j :: 0 <= j < |r| ==> r[j] == hits[j] && r[j] in r;
      forall y <- r ensures Less(y, x) {
        var j :| 0 <= j < |r| && r[j] == y;
        assert hits[j] == y;
      }
    }
  }

  /** rankEmbedded; the memories returned are those of the scores. */
  method RankEmbedded(entries: seq<Memory>, ss: seq<Score>, limit: int) returns (result: seq<Score>)
    requires UniqueIds(entries)
    ensures result == Ranked(ss, Pairs(entries), limit)
  {
    var values := IndexOf(entries);
    ghost var current := Pairs(entries);
    var sorted := Sorted(ss);
    result := [];
    for i := 0 to |sorted|
      invariant Hits(sorted, current) == result + Hits(sorted[i..], current)
      invariant limit > 0 ==> |result| < limit
    {
      assert sorted[i..][0] == sorted[i] && sorted[i..][1..] == sorted[i + 1..];
      assert Live(current, sorted[i]) <==> sorted[i].id in values && values[sorted[i].id] == sorted[i].hash;
      if sorted[i].id in values && values[sorted[i].id] == sorted[i].hash {
        Assoc(result, [sorted[i]], Hits(sorted[i + 1..], current));
        result := result + [sorted[i]];
        if limit > 0 && |result| == limit {
          assert Hits(sorted, current)[..limit] == result;
          return;
        }
      }
    }
  }

  // ---------- the worker ----------

  type Fingerprint = nat

  /** The state of one scope; vectors says which memories have a vector, and for which hash. */
  datatype Index = Index(
    fingerprint: Fingerprint, requested: nat, ready: bool, vectors: set<Pair>,
    active: bool, pending: bool, reflect: bool, generation: nat)

  datatype Result = Ok | Stale | Failed

  datatype Worker =
    | Off
    | Top
    | Rebuilding(fp: Fingerprint)
    | Embedding(fp: Fingerprint, snapshot: set<Pair>)
    | Done(result: Result)

  /** A search that has looked up the index: its generation, and how often the index had been published. */
  datatype Query = Query(fp: Fingerprint, generation: nat, publications: nat)

  /** What was true at the latest publication: the fingerprint in force, the memories held under their lock, and those
      that got no vector. */
  datatype Publication = Publication(fp: Fingerprint, memories: set<Pair>, skipped: set<Pair>)

  /** What a search returned, the memories it was made against, and the publication that its vectors came from. */
  datatype Answer = Answer(fp: Fingerprint, scores: seq<Score>, limit: int, hits: seq<Score>, memories: set<Pair>,
                           publication: Option<Publication>)

  /** asked counts the updates asked for, and served those asked for before the worker last took up work. */
  datatype System = System(
    memories: set<Pair>, alive: bool, index: Index, worker: Worker, queries: seq<Query>, answers: seq<Answer>,
    published: Option<Publication>, publications: nat, asked: nat, served: nat)

  datatype Event =
    | ChangeMemories(memories: set<Pair>)
    | Ensure(fp: Fingerprint, source: nat, hasValid: bool, retry: bool)
    | Update
    | Take
    | Read
    | Publish(skipped: set<Pair>)
    | Fail(result: Result)
    | Finish
    | Look
    | Search(q: nat, scores: seq<Score>, limit: int)
    | Invalidate(q: nat)
    | Die

  /** queueLocked: a worker is started unless one is active; starting fails only when the runtime is over. */
  function Queued(s: System): System {
    var i := s.index.(pending := true);
    if s.index.active then s.(index := i, asked := s.asked + 1)
    else if s.alive then s.(index := i.(active := true), worker := Top, asked := s.asked + 1)
    else s.(index := i, asked := s.asked + 1)
  }

  /** Each vector has one score, of whatever distance. */
  predicate Scored(vectors: set<Pair>, scores: seq<Score>) {
    && DistinctIds(scores)
    && (forall x <- scores :: Pair(x.id, x.hash) in vectors)
    && (forall p <- vectors :: exists x <- scores :: Pair(x.id, x.hash) == p)
  }

  predicate Enabled(s: System, e: Event) {
    match e
    case Take => s.worker.Top?
    case Read => s.worker.Rebuilding?
    case Publish(_) => s.worker.Embedding?
    case Fail(_) => s.worker.Rebuilding? || s.worker.Embedding?
    case Finish => s.worker.Done?
    case Look => s.index.ready
    case Search(q, scores, _) => q < |s.queries| && Scored(s.index.vectors, scores)
    case Invalidate(q) => q < |s.queries|
    case _ => true
  }

  function Step(s: System, e: Event): System
    requires Enabled(s, e)
  {
    var i := s.index;
    match e
    case ChangeMemories(ms) => s.(memories := ms)
    case Ensure(fp, source, hasValid, retry) =>
      if i.fingerprint != fp then
        Queued(s.(index := i.(fingerprint := fp, requested := source, ready := false, vectors := {}, reflect := true,
                              generation := i.generation + 1)))
      else if i.requested != source then
        Queued(s.(index := i.(requested := source, ready := i.ready && hasValid,
                              reflect := i.reflect || (i.ready && !hasValid))))
      else if !i.active && retry then Queued(s)
      else s
    case Update => Queued(s)
    case Take =>
      if !i.pending || !s.alive then s.(index := i.(active := false), worker := Off)
      else s.(index := i.(pending := false, reflect := false), worker := Rebuilding(i.fingerprint), served := s.asked)
    case Read => s.(worker := Embedding(s.worker.fp, s.memories))
    case Publish(skipped) =>
      if s.alive && s.memories == s.worker.snapshot && i.fingerprint == s.worker.fp then
        s.(index := i.(vectors := s.worker.snapshot - skipped, ready := true, generation := i.generation + 1),
           worker := Done(Ok), published := Some(Publication(i.fingerprint, s.memories, skipped)),
           publications := s.publications + 1)
      else s.(worker := Done(Stale))
    case Fail(result) => s.(worker := Done(if result.Ok? then Failed else result))
    case Finish =>
      if s.worker.result.Stale? then
        if s.alive then s.(index := i.(pending := true), worker := Top, asked := s.asked + 1) else s.(worker := Off)
      else s.(worker := Top)
    case Look => s.(queries := s.queries + [Query(i.fingerprint, i.generation, s.publications)])
    case Search(q, scores, limit) =>
      if !i.ready || i.fingerprint != s.queries[q].fp then s
      else
        var hits := Ranked(scores, s.memories, limit);
        s.(answers := s.answers + [Answer(s.queries[q].fp, scores, limit, hits, s.memories, s.published)])
    case Invalidate(q) =>
      if !i.ready || i.fingerprint != s.queries[q].fp || i.generation != s.queries[q].generation then s
      else Queued(s.(index := i.(ready := false, reflect := true)))
    case Die => s.(alive := false)
  }

  /** The vectors are those of this publication, and the fingerprint is the one it was made for. */
  predicate Fits(i: Index, p: Publication) { i.fingerprint == p.fp && i.vectors == p.memories - p.skipped }

  /** Only memories of that moment with a matching hash, nearest first, and every such memory unless the limit is
      reached. */
  predicate AnswerOk(a: Answer) {
    && a.publication.Some? && a.publication.value.fp == a.fp
    && Scored(a.publication.value.memories - a.publication.value.skipped, a.scores)
    && a.hits == Ranked(a.scores, a.memories, a.limit)
  }

  predicate Inv(s: System) {
    && (s.index.ready ==> s.published.Some? && Fits(s.index, s.published.value))
    && (forall a <- s.answers :: AnswerOk(a))
    && (s.alive && s.index.pending ==> s.index.active)
    && (s.alive ==> (s.index.active <==> !s.worker.Off?))
    && s.served <= s.asked && (s.asked > s.served ==> s.index.pending)
    && (forall q <- s.queries ::
          && q.generation <= s.index.generation && q.publications <= s.publications
          && (q.publications < s.publications ==> q.generation < s.index.generation))
  }

  lemma QueuedKeeps(s: System, i: Index)
    requires Inv(s) && i.active == s.index.active && i.pending == s.index.pending && i.generation >= s.index.generation
    requires i.ready ==> s.index.ready && i.fingerprint == s.index.fingerprint && i.vectors == s.index.vectors
    ensures Inv(Queued(s.(index := i)))
  {
  }

  lemma StepKeeps(s: System, e: Event)
    requires Inv(s) && Enabled(s, e)
    ensures Inv(Step(s, e)) && s.queries <= Step(s, e).queries && s.publications <= Step(s, e).publications
  {
    var i := s.index;
    match e
    case Ensure(fp, source, hasValid, retry) => EnsureKeeps(s, fp, source, hasValid, retry);
    case Update => QueuedKeeps(s, i);
    case Invalidate(_) => QueuedKeeps(s, i.(ready := false, reflect := true));
    case _ =>
  }

  lemma EnsureKeeps(s: System, fp: Fingerprint, source: nat, hasValid: bool, retry: bool)
    requires Inv(s)
    ensures Inv(Step(s, Ensure(fp, source, hasValid, retry)))
  {
    var i := s.index;
    QueuedKeeps(s, i);
    QueuedKeeps(s, i.(fingerprint := fp, requested := source, ready := false, vectors := {}, reflect := true,
                      generation := i.generation + 1));
    QueuedKeeps(s, i.(requested := source, ready := i.ready && hasValid,
                      reflect := i.reflect || (i.ready && !hasValid)));
  }

  predicate Possible(s: System, run: seq<Event>)
    decreases |run|
  {
    run == [] || (Enabled(s, run[0]) && Possible(Step(s, run[0]), run[1..]))
  }

  function Run(s: System, run: seq<Event>): System
    requires Possible(s, run)
    decreases |run|
  {
    if run == [] then s else Run(Step(s, run[0]), run[1..])
  }

  lemma {:induction false} RunKeeps(s: System, run: seq<Event>)
    requires Inv(s) && Possible(s, run)
    ensures Inv(Run(s, run)) && s.queries <= Run(s, run).queries && s.publications <= Run(s, run).publications
    decreases |run|
  {
    if run != [] {
      StepKeeps(s, run[0]);
      RunKeeps(Step(s, run[0]), run[1..]);
    }
  }

  const Initial := System({}, true, Index(0, 0, false, {}, false, false, false, 0), Off, [], [], None, 0, 0, 0)

  /** No update is lost while the runtime is alive: one asked for since the worker last took up work is still pending,
      and then there is an active worker, which is somewhere in its loop and has not ended. */
  lemma UpdatesAreNotLost(run: seq<Event>)
    requires Possible(Initial, run)
    ensures var s := Run(Initial, run);
            && (s.alive && s.index.pending ==> s.index.active && !s.worker.Off?)
            && (s.asked > s.served ==> s.index.pending)
            && (s.alive && s.index.pending && s.worker.Top? ==> Step(s, Take).served == s.asked)
  {
    RunKeeps(Initial, run);
  }

  /** In every run, through re-routing, invalidation and failed rebuilds: whenever the index is ready, its fingerprint
      is the one that was in force at the latest publication, and its vectors are for exactly the memories that were
      held under their lock at that moment, with the hashes they had, save those the model could not embed. */
  lemma PublishedIsCurrent(run: seq<Event>)
    requires Possible(Initial, run)
    ensures var s := Run(Initial, run);
            s.index.ready ==>
              && s.published.Some? && s.index.fingerprint == s.published.value.fp
              && s.index.vectors == s.published.value.memories - s.published.value.skipped
  {
    RunKeeps(Initial, run);
  }

  /** A query that looked up an earlier publication cannot invalidate a later one. */
  lemma OldQueryIsHarmless(s: System, run: seq<Event>)
    requires Inv(s) && s.index.ready && Possible(Step(s, Look), run)
    ensures var t := Run(Step(s, Look), run);
            |s.queries| < |t.queries| &&
            (t.publications > s.publications ==> Step(t, Invalidate(|s.queries|)) == t)
  {
    StepKeeps(s, Look);
    RunKeeps(Step(s, Look), run);
    var t := Run(Step(s, Look), run);
    assert t.queries[|s.queries|] in t.queries;
  }

  /** Every search of every run returns only memories that exist at that moment with the hash they had when the index
      was published, nearest first and by ID among equals; a memory of which the same holds is left out only when the
      limit is reached, and then comes after everything returned. */
  lemma SearchReturnsLive(run: seq<Event>, a: Answer)
    requires Possible(Initial, run) && a in Run(Initial, run).answers
    ensures a.publication.Some? && a.publication.value.fp == a.fp
    ensures Ordered(a.hits) && (a.limit > 0 ==> |a.hits| <= a.limit)
    ensures forall x <- a.hits ::
              Pair(x.id, x.hash) in a.memories * (a.publication.value.memories - a.publication.value.skipped)
    ensures forall p <- a.memories * (a.publication.value.memories - a.publication.value.skipped) ::
              exists x <- a.scores :: Pair(x.id, x.hash) == p &&
                (x in a.hits || (a.limit > 0 && |a.hits| == a.limit && forall y <- a.hits :: Less(y, x)))
  {
    RunKeeps(Initial, run);
    assert AnswerOk(a);
    RankedIsBest(a.scores, a.memories, a.limit);
    forall p <- a.memories * (a.publication.value.memories - a.publication.value.skipped)
      ensures exists x <- a.scores :: Pair(x.id, x.hash) == p &&
                (x in a.hits || (a.limit > 0 && |a.hits| == a.limit && forall y <- a.hits :: Less(y, x)))
    {
      var x :| x in a.scores && Pair(x.id, x.hash) == p;
      assert Live(a.memories, x);
    }
  }

  class EmbeddingScope {
    var index: Index
    var alive: bool
    var worker: Worker
    ghost var memories: set<Pair>
    ghost var queries: seq<Query>
    ghost var answers: seq<Answer>
    ghost var published: Option<Publication>
    ghost var publications: nat
    ghost var asked: nat
    ghost var served: nat

    constructor ()
      ensures View() == Initial
    {
      index := Initial.index;
      alive, worker := true, Off;
      memories, queries, answers, published, publications, asked, served := {}, [], [], None, 0, 0, 0;
    }

    ghost function View(): System
      reads this
    {
      System(memories, alive, index, worker, queries, answers, published, publications, asked, served)
    }

    method QueueLocked()
      modifies this
      ensures View() == Queued(old(View()))
    {
      index := index.(pending := true);
      asked := asked + 1;
      if index.active { return; }
      if alive {
        index := index.(active := true);
        worker := Top;
      }
    }

    /** The locked part of ensure. */
    method EnsureLocked(fp: Fingerprint, source: nat, hasValid: bool, retry: bool)
      modifies this
      ensures View() == Step(old(View()), Ensure(fp, source, hasValid, retry))
    {
      if index.fingerprint != fp {
        index := index.(fingerprint := fp, ready := false, vectors := {}, requested := source,
                        generation := index.generation + 1, reflect := true);
        QueueLocked();
      } else if index.requested != source {
        if index.ready && !hasValid { index := index.(ready := false, reflect := true); }
        index := index.(requested := source);
        QueueLocked();
      } else if !index.active && retry {
        QueueLocked();
      }
    }

    /** The top of the worker's loop. */
    method TakeWork() returns (more: bool)
      requires worker.Top?
      modifies this
      ensures View() == Step(old(View()), Take) && (more <==> !worker.Off?)
    {
      if !index.pending || !alive {
        index := index.(active := false);
        worker := Off;
        return false;
      }
      worker := Rebuilding(index.fingerprint);
      index := index.(pending := false, reflect := false);
      served := asked;
      return true;
    }

    /** invalidateDimensions. */
    method InvalidateDimensions(fp: Fingerprint, generation: nat, ghost q: nat)
      requires q < |queries| && queries[q].fp == fp && queries[q].generation == generation
      modifies this
      ensures View() == Step(old(View()), Invalidate(q))
    {
      if !index.ready || index.fingerprint != fp || index.generation != generation { return; }
      index := index.(ready := false, reflect := true);
      QueueLocked();
    }
  }
}
