/** Planning which container images to delete (scripts/ghcr_cleanup.py).  The registry's manifests are a finite graph
    from digests to the digests they refer to: children of an image index and subjects, as the OCI Image Format
    Specification describes them under "Image Index" and "Image Manifest".  A digest outside the graph cannot be
    resolved. */
module ImageCleanup {
  import opened Text

  type Digest = nat
  type Graph = map<Digest, seq<Digest>>

  // ---------- what is reachable ----------

  predicate IsPath(g: Graph, path: seq<Digest>) {
    path != [] && forall i :: 0 <= i < |path| - 1 ==> path[i] in g && path[i + 1] in g[path[i]]
  }

  /** In the reflexive-transitive closure of the roots. */
  ghost predicate Reachable(g: Graph, roots: set<Digest>, d: Digest) {
    exists path :: IsPath(g, path) && path[0] in roots && path[|path| - 1] == d
  }

  lemma RootIsReachable(g: Graph, roots: set<Digest>, d: Digest)
    requires d in roots
    ensures Reachable(g, roots, d)
  {
    assert IsPath(g, [d]) && [d][0] in roots && [d][|[d]| - 1] == d;
  }

  lemma ChildIsReachable(g: Graph, roots: set<Digest>, d: Digest, child: Digest)
    requires Reachable(g, roots, d) && d in g && child in g[d]
    ensures Reachable(g, roots, child)
  {
    var path :| IsPath(g, path) && path[0] in roots && path[|path| - 1] == d;
    var longer := path + [child];
    assert IsPath(g, longer) && longer[0] in roots && longer[|longer| - 1] == child;
  }

  /** A set with the roots that every reference stays within has everything reachable. */
  lemma {:induction false} ClosedHoldsPath(g: Graph, keep: set<Digest>, path: seq<Digest>)
    requires IsPath(g, path) && path[0] in keep
    requires forall d <- keep :: d in g && forall c <- g[d] :: c in keep
    ensures path[|path| - 1] in keep
    decreases |path|
  {
    if |path| > 1 {
      assert path[1] in g[path[0]];
      ClosedHoldsPath(g, keep, path[1..]);
    }
  }

  predicate Resolves(g: Graph, ds: seq<Digest>) { forall d <- ds :: d in g }

  /** Everything kept or waiting is reachable, and nothing kept refers to anything else. */
  ghost predicate Progress(g: Graph, roots: set<Digest>, keep: set<Digest>, pending: seq<Digest>) {
    && (forall d <- keep :: d in g && Reachable(g, roots, d))
    && (forall d <- pending :: d in g && Reachable(g, roots, d))
    && (forall d <- roots :: d in keep || d in pending)
    && (forall d <- keep :: forall c <- g[d] :: c in keep || c in pending)
  }

  /** The references of a manifest that are not kept yet, if each can be resolved. */
  method Children(g: Graph, keep: set<Digest>, children: seq<Digest>) returns (r: Option<seq<Digest>>)
    ensures r.Some? <==> forall c <- children :: c in keep || c in g
    ensures r.Some? ==> Resolves(g, r.value) && (forall c <- r.value :: c in children)
    ensures r.Some? ==> forall c <- children :: c in keep || c in r.value
  {
    var found: seq<Digest> := [];
    for i := 0 to |children|
      invariant Resolves(g, found) && (forall c <- found :: c in children)
      invariant forall j :: 0 <= j < i ==> children[j] in keep || children[j] in found
    {
      if children[i] !in keep {
        if children[i] !in g { return None; }
        found := found + [children[i]];
      }
    }
    return Some(found);
  }

  /** The worklist of cleanup.  It ends on every finite graph, cyclic or not, and keeps exactly the closure; it gives
      up if and only if something reachable cannot be resolved. */
  method Closure(g: Graph, roots: seq<Digest>) returns (keep: Option<set<Digest>>)
    ensures keep.Some? ==> forall d :: d in keep.value <==> Reachable(g, (set x <- roots), d)
    ensures keep.Some? <==> forall d :: Reachable(g, (set x <- roots), d) ==> d in g
  {
    ghost var start := set x <- roots;
    forall d <- start ensures Reachable(g, start, d) { RootIsReachable(g, start, d); }
    if exists d <- roots :: d !in g {
      ghost var d :| d in roots && d !in g;
      assert d in start;
      return None;
    }
    var kept: set<Digest> := {};
    var pending := roots;
    while pending != []
      invariant Progress(g, start, kept, pending)
      decreases g.Keys - kept, |pending|
    {
      var n := |pending| - 1;
      var digest := pending[n];
      assert digest in pending && pending == pending[..n] + [digest];
      if digest in kept {
        pending := pending[..n];
      } else {
        forall c <- g[digest] ensures Reachable(g, start, c) { ChildIsReachable(g, start, digest, c); }
        var more := Children(g, kept + {digest}, g[digest]);
        if more.None? { return None; }
        ghost var before := pending;
        kept := kept + {digest};
        pending := pending[..n] + more.value;
        assert forall d <- before :: d in pending || d == digest;
      }
    }
    forall d | Reachable(g, start, d) ensures d in kept {
      var path :| IsPath(g, path) && path[0] in start && path[|path| - 1] == d;
      ClosedHoldsPath(g, kept, path);
    }
    return Some(kept);
  }

  // ---------- versions and tags ----------

  /** The kinds of tag that the two patterns and the two fixed names tell apart. */
  datatype Tag = Main | Latest | Release(version: string) | Sha(commit: string) | Other(name: string)

  datatype Version = Version(id: nat, digest: Digest, tags: seq<Tag>, created: int)

  predicate Protected(t: Tag) { t.Main? || t.Latest? || t.Release? }

  predicate HasProtected(v: Version) { exists t <- v.tags :: Protected(t) }

  /** A commit's image that no protected tag points to. */
  predicate Intermediate(v: Version) { (exists t <- v.tags :: t.Sha?) && !HasProtected(v) }

  predicate UniqueVersions(vs: seq<Version>) {
    forall i, j :: 0 <= i < j < |vs| ==> vs[i].id != vs[j].id && vs[i].digest != vs[j].digest
  }

  const Retention: nat := 10

  predicate Newer(a: Version, b: Version) { if a.created == b.created then a.id > b.id else a.created > b.created }

  predicate NewestFirst(vs: seq<Version>) { forall i, j :: 0 <= i < j < |vs| ==> Newer(vs[i], vs[j]) }

  function Inserted(v: Version, vs: seq<Version>): seq<Version> {
    if vs == [] || Newer(v, vs[0]) then [v] + vs else [vs[0]] + Inserted(v, vs[1..])
  }

  function Sorted(vs: seq<Version>): seq<Version> {
    if vs == [] then [] else Inserted(vs[0], Sorted(vs[1..]))
  }

  function Select(vs: seq<Version>, keep: Version -> bool): seq<Version> {
    if vs == [] then [] else if keep(vs[0]) then [vs[0]] + Select(vs[1..], keep) else Select(vs[1..], keep)
  }

  /** The newest intermediate images. */
  function Retained(vs: seq<Version>): seq<Version> {
    var sorted := Sorted(Select(vs, Intermediate));
    if |sorted| > Retention then sorted[..Retention] else sorted
  }

  lemma {:induction false} SelectShape(vs: seq<Version>, keep: Version -> bool)
    ensures forall v :: v in Select(vs, keep) <==> v in vs && keep(v)
    ensures UniqueVersions(vs) ==> UniqueVersions(Select(vs, keep))
  {
    if vs != [] {
      SelectShape(vs[1..], keep);
      if UniqueVersions(vs) {
        forall v <- Select(vs[1..], keep) ensures v.id != vs[0].id && v.digest != vs[0].digest {
          var i :| 0 <= i < |vs[1..]| && vs[1..][i] == v;
        }
      }
    }
  }

  lemma {:induction false} InsertedShape(v: Version, vs: seq<Version>)
    requires NewestFirst(vs) && forall x <- vs :: x.id != v.id
    ensures NewestFirst(Inserted(v, vs)) && |Inserted(v, vs)| == |vs| + 1
    ensures forall x :: x in Inserted(v, vs) <==> x in vs || x == v
  {
    if vs != [] {
      assert vs[0] in vs && vs == [vs[0]] + vs[1..];
      if Newer(v, vs[0]) {
        assert forall j :: 0 <= j < |vs| ==> Newer(v, vs[j]);
      } else {
        InsertedShape(v, vs[1..]);
        forall x <- Inserted(v, vs[1..]) ensures Newer(vs[0], x) {
          if x in vs[1..] { var i :| 0 <= i < |vs[1..]| && vs[1..][i] == x; }
        }
      }
    }
  }

  lemma {:induction false} SortedShape(vs: seq<Version>)
    requires UniqueVersions(vs)
    ensures NewestFirst(Sorted(vs)) && |Sorted(vs)| == |vs| && forall x :: x in Sorted(vs) <==> x in vs
  {
    if vs != [] {
      SortedShape(vs[1..]);
      assert vs == [vs[0]] + vs[1..];
      forall x <- Sorted(vs[1..]) ensures x.id != vs[0].id {
        var i :| 0 <= i < |vs[1..]| && vs[1..][i] == x;
      }
      InsertedShape(vs[0], Sorted(vs[1..]));
    }
  }

  /** The retained images are the ten newest intermediate ones, or all if there are no more than ten. */
  lemma RetainedAreNewest(vs: seq<Version>)
    requires UniqueVersions(vs)
    ensures var r := Retained(vs);
            && (forall v <- r :: v in vs && Intermediate(v)) && |r| <= Retention
            && forall v <- vs :: Intermediate(v) && v !in r ==> |r| == Retention && forall w <- r :: Newer(w, v)
  {
    var some := Select(vs, Intermediate);
    SelectShape(vs, Intermediate);
    SortedShape(some);
    var sorted, r := Sorted(some), Retained(vs);
    assert forall j :: 0 <= j < |r| ==> r[j] == sorted[j] && r[j] in r;
    forall v <- vs | Intermediate(v) && v !in r ensures |r| == Retention && forall w <- r :: Newer(w, v) {
      var i :| 0 <= i < |sorted| && sorted[i] == v;
      forall w <- r ensures Newer(w, v) {
        var j :| 0 <= j < |r| && r[j] == w;
      }
    }
  }

  // ---------- the plan ----------

  /** A version is a root if a protected tag points to it, or if it is retained. */
  function Roots(vs: seq<Version>): seq<Digest> {
    DigestsOf(Select(vs, HasProtected)) + DigestsOf(Retained(vs))
  }

  function DigestsOf(vs: seq<Version>): (r: seq<Digest>)
    ensures |r| == |vs| && forall i :: 0 <= i < |r| ==> r[i] == vs[i].digest
  {
    seq(|vs|, i requires 0 <= i < |vs| => vs[i].digest)
  }

  datatype TagOn = TagOn(tag: Tag, digest: Digest)

  function TagsOf(v: Version): (r: seq<TagOn>)
    ensures |r| == |v.tags| && forall i :: 0 <= i < |r| ==> r[i] == TagOn(v.tags[i], v.digest)
  {
    seq(|v.tags|, i requires 0 <= i < |v.tags| => TagOn(v.tags[i], v.digest))
  }

  function AllTags(vs: seq<Version>): seq<TagOn> { if vs == [] then [] else TagsOf(vs[0]) + AllTags(vs[1..]) }

  predicate UniqueTags(ts: seq<TagOn>) { forall i, j :: 0 <= i < j < |ts| ==> ts[i].tag != ts[j].tag }

  /** reconcile_registry_tags: the registry has the same tags on the same digests. */
  predicate Agrees(ts: seq<TagOn>, registry: map<Tag, Digest>) {
    && (forall t <- ts :: t.tag in registry && registry[t.tag] == t.digest)
    && (forall tag <- registry :: exists t <- ts :: t.tag == tag)
  }

  /** main and latest point to the same image. */
  predicate MainIsLatest(ts: seq<TagOn>) { exists m <- ts :: m.tag.Main? && TagOn(Latest, m.digest) in ts }

  /** Whether the metadata and the registry are fit to plan from. */
  predicate Consistent(vs: seq<Version>, registry: map<Tag, Digest>) {
    UniqueVersions(vs) && UniqueTags(AllTags(vs)) && MainIsLatest(AllTags(vs)) && Agrees(AllTags(vs), registry)
  }

  predicate TaggedFirst(vs: seq<Version>) { forall i, j :: 0 <= i < j < |vs| ==> vs[j].tags != [] ==> vs[i].tags != [] }

  /** The versions that nothing kept needs, tagged ones first, otherwise in the order of the listing. */
  ghost function Candidates(vs: seq<Version>, g: Graph): seq<Version> {
    var roots := set d <- Roots(vs);
    Select(vs, (v: Version) => !Reachable(g, roots, v.digest) && v.tags != []) +
    Select(vs, (v: Version) => !Reachable(g, roots, v.digest) && v.tags == [])
  }

  /** Every root and everything it depends on can be resolved. */
  ghost predicate AllResolve(vs: seq<Version>, g: Graph) {
    forall d :: Reachable(g, (set x <- Roots(vs)), d) ==> d in g
  }

  /** cleanup up to the first deletion: nothing, unless all is consistent and every root and its dependencies
      resolve. */
  method Plan(vs: seq<Version>, registry: map<Tag, Digest>, g: Graph) returns (plan: Option<seq<Version>>)
    ensures plan.Some? <==> Consistent(vs, registry) && AllResolve(vs, g)
    ensures plan.Some? ==> plan.value == Candidates(vs, g) && TaggedFirst(plan.value)
    ensures plan.Some? ==>
              forall v :: v in plan.value <==> v in vs && !Reachable(g, (set d <- Roots(vs)), v.digest)
  {
    if !Consistent(vs, registry) { return None; }
    var keep := Closure(g, Roots(vs));
    if keep.None? { return None; }
    var k := keep.value;
    var tagged := Select(vs, (v: Version) => v.digest !in k && v.tags != []);
    var untagged := Select(vs, (v: Version) => v.digest !in k && v.tags == []);
    SelectShape(vs, (v: Version) => v.digest !in k && v.tags != []);
    SelectShape(vs, (v: Version) => v.digest !in k && v.tags == []);
    TwoParts(tagged, untagged);
    ghost var roots := set d <- Roots(vs);
    SameSelection(vs, (v: Version) => v.digest !in k && v.tags != [],
                  (v: Version) => !Reachable(g, roots, v.digest) && v.tags != []);
    SameSelection(vs, (v: Version) => v.digest !in k && v.tags == [],
                  (v: Version) => !Reachable(g, roots, v.digest) && v.tags == []);
    return Some(tagged + untagged);
  }

  lemma {:induction false} SameSelection(vs: seq<Version>, a: Version -> bool, b: Version -> bool)
    requires forall v <- vs :: a(v) == b(v)
    ensures Select(vs, a) == Select(vs, b)
  {
    if vs != [] { SameSelection(vs[1..], a, b); }
  }

  lemma TwoParts(a: seq<Version>, b: seq<Version>)
    requires (forall v <- a :: v.tags != []) && (forall v <- b :: v.tags == [])
    ensures TaggedFirst(a + b)
  {
    var c := a + b;
    assert forall k :: 0 <= k < |c| ==> if k < |a| then c[k] in a else c[k] in b;
  }

  /** A planned version is neither protected nor retained nor needed by one that is. */
  lemma PlannedIsUnneeded(vs: seq<Version>, g: Graph, v: Version)
    requires UniqueVersions(vs) && v in vs && !Reachable(g, (set d <- Roots(vs)), v.digest)
    ensures !HasProtected(v) && v !in Retained(vs)
    ensures forall d :: Reachable(g, (set x <- Roots(vs)), d) && d in g ==> v.digest !in g[d]
  {
    var roots := set d <- Roots(vs);
    SelectShape(vs, HasProtected);
    if HasProtected(v) {
      var a := Select(vs, HasProtected);
      var i :| 0 <= i < |a| && a[i] == v;
      assert Roots(vs)[i] == v.digest;
      RootIsReachable(g, roots, v.digest);
    }
    if v in Retained(vs) {
      var r := Retained(vs);
      var i :| 0 <= i < |r| && r[i] == v;
      assert Roots(vs)[|Select(vs, HasProtected)| + i] == v.digest;
      RootIsReachable(g, roots, v.digest);
    }
    forall d | Reachable(g, roots, d) && d in g ensures v.digest !in g[d] {
      if v.digest in g[d] { ChildIsReachable(g, roots, d, v.digest); }
    }
  }

  // ---------- deletion ----------

  predicate Unchanged(v: Version, current: map<nat, Version>) { v.id in current && current[v.id] == v }

  /** The candidates up to the first that is no longer what was planned. */
  function UnchangedPrefix(plan: seq<Version>, current: map<nat, Version>): seq<Version> {
    if plan == [] || !Unchanged(plan[0], current) then [] else [plan[0]] + UnchangedPrefix(plan[1..], current)
  }

  lemma {:induction false} UnchangedPrefixShape(plan: seq<Version>, current: map<nat, Version>)
    ensures var n := |UnchangedPrefix(plan, current)|;
            && n <= |plan| && UnchangedPrefix(plan, current) == plan[..n]
            && (forall v <- plan[..n] :: Unchanged(v, current))
            && (n < |plan| ==> !Unchanged(plan[n], current))
  {
    if plan != [] && Unchanged(plan[0], current) {
      UnchangedPrefixShape(plan[1..], current);
      var n := |UnchangedPrefix(plan[1..], current)|;
      assert plan[..n + 1] == [plan[0]] + plan[1..][..n];
    }
  }

  /** The deletion loop; current is what the registry says of each version when its turn comes. */
  method Delete(plan: seq<Version>, current: map<nat, Version>) returns (deleted: seq<Version>)
    ensures deleted == UnchangedPrefix(plan, current)
  {
    deleted := [];
    for i := 0 to |plan|
      invariant UnchangedPrefix(plan, current) == deleted + UnchangedPrefix(plan[i..], current)
    {
      assert plan[i..][0] == plan[i] && plan[i..][1..] == plan[i + 1..];
      if !Unchanged(plan[i], current) { return; }
      Assoc(deleted, [plan[i]], UnchangedPrefix(plan[i + 1..], current));
      deleted := deleted + [plan[i]];
    }
  }

  /** cleanup with deletion.  Nothing is deleted unless all was consistent and is still what was planned from; then it
      is the plan up to the first version that has changed, and with none changed the whole plan. */
  method Cleanup(vs: seq<Version>, registry: map<Tag, Digest>, g: Graph, vs': seq<Version>, registry': map<Tag, Digest>,
                 current: map<nat, Version>) returns (deleted: seq<Version>)
    ensures deleted == if Consistent(vs, registry) && AllResolve(vs, g) && multiset(vs') == multiset(vs) &&
                          Agrees(AllTags(vs), registry')
                       then UnchangedPrefix(Candidates(vs, g), current) else []
    ensures forall v <- deleted ::
              && v in vs && !Reachable(g, (set d <- Roots(vs)), v.digest)
              && !HasProtected(v) && v !in Retained(vs) && Unchanged(v, current)
  {
    var plan := Plan(vs, registry, g);
    if plan.None? || multiset(vs') != multiset(vs) || !Agrees(AllTags(vs), registry') { return []; }
    deleted := Delete(plan.value, current);
    UnchangedPrefixShape(plan.value, current);
    forall v <- deleted ensures v in plan.value && !HasProtected(v) && v !in Retained(vs) {
      PlannedIsUnneeded(vs, g, v);
    }
  }
}
