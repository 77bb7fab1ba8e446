/** Changing one key of a .env file (MutateEnv, internal/instanceconfig/envfile.go). */
module EnvEdit {
  import opened Text
  import opened EnvScanner
  import opened EnvMeaning
  import opened EnvFormat

  // ---------- editing the statements ----------

  predicate For(st: Statement, key: string) { st.isKey && st.key == key }

  predicate HasKey(stmts: seq<Statement>, key: string) { exists i :: 0 <= i < |stmts| && For(stmts[i], key) }

  function Without(stmts: seq<Statement>, key: string): seq<Statement> {
    if stmts == [] then []
    else if For(stmts[0], key) then Without(stmts[1..], key)
    else [stmts[0]] + Without(stmts[1..], key)
  }

  function Replaced(stmts: seq<Statement>, key: string, st: Statement): seq<Statement> {
    if stmts == [] then []
    else if For(stmts[0], key) then [st] + Without(stmts[1..], key)
    else [stmts[0]] + Replaced(stmts[1..], key, st)
  }

  function Appended(stmts: seq<Statement>, st: Statement): seq<Statement> {
    stmts + (if stmts != [] && !EndsLine(stmts[|stmts| - 1].raw) then [Statement("\n", false, "")] else []) + [st]
  }

  function Mutated(stmts: seq<Statement>, key: string, st: Statement): seq<Statement> {
    if HasKey(stmts, key) then Replaced(stmts, key, st) else Appended(stmts, st)
  }

  function Rendered(stmts: seq<Statement>): string {
    var s := Concat(stmts);
    if s != "" && !EndsLine(s) then s + "\n" else s
  }

  /** The loop of mutateEnvStatements. */
  method ReplaceFirst(stmts: seq<Statement>, key: string, st: Statement) returns (result: seq<Statement>, found: bool)
    ensures result == Replaced(stmts, key, st) && (found <==> HasKey(stmts, key))
  {
    found := false;
    result := [];
    for i := 0 to |stmts|
      invariant found <==> exists j :: 0 <= j < i && For(stmts[j], key)
      invariant found ==> Replaced(stmts, key, st) == result + Without(stmts[i..], key)
      invariant !found ==> Replaced(stmts, key, st) == result + Replaced(stmts[i..], key, st)
    {
      EditStep(stmts, i, key, st);
      Assoc(result, [stmts[i]], Without(stmts[i + 1..], key));
      Assoc(result, [stmts[i]], Replaced(stmts[i + 1..], key, st));
      Assoc(result, [st], Without(stmts[i + 1..], key));
      if For(stmts[i], key) {
        if !found {
          result := result + [st];
          found := true;
        }
      } else {
        result := result + [stmts[i]];
      }
    }
  }

  lemma EditStep(stmts: seq<Statement>, i: nat, key: string, st: Statement)
    requires i < |stmts|
    ensures Without(stmts[i..], key) ==
            if For(stmts[i], key) then Without(stmts[i + 1..], key) else [stmts[i]] + Without(stmts[i + 1..], key)
    ensures Replaced(stmts[i..], key, st) ==
            if For(stmts[i], key) then [st] + Without(stmts[i + 1..], key)
            else [stmts[i]] + Replaced(stmts[i + 1..], key, st)
  {
    assert stmts[i..][0] == stmts[i] && stmts[i..][1..] == stmts[i + 1..];
  }

  /** mutateEnvStatements. */
  method MutateStatements(stmts: seq<Statement>, key: string, formatted: string) returns (result: seq<Statement>)
    ensures result == Mutated(stmts, key, Statement(formatted + "\n", true, key))
  {
    var st := Statement(formatted + "\n", true, key);
    var found;
    result, found := ReplaceFirst(stmts, key, st);
    if !found {
      ReplacedNothing(stmts, key, st);
      if |result| > 0 && !EndsLine(result[|result| - 1].raw) { result := result + [Statement("\n", false, "")]; }
      result := result + [st];
    }
  }

  lemma {:induction false} ReplacedNothing(stmts: seq<Statement>, key: string, st: Statement)
    requires !HasKey(stmts, key)
    ensures Replaced(stmts, key, st) == stmts
  {
    if stmts != [] {
      assert !For(stmts[0], key) && forall i :: 0 <= i < |stmts[1..]| ==> stmts[1..][i] == stmts[i + 1];
      ReplacedNothing(stmts[1..], key, st);
    }
  }

  /** removeKeyFromStatements. */
  method RemoveKey(stmts: seq<Statement>, key: string) returns (result: seq<Statement>)
    ensures result == Without(stmts, key)
  {
    result := [];
    for i := 0 to |stmts|
      invariant Without(stmts, key) == result + Without(stmts[i..], key)
    {
      EditStep(stmts, i, key, stmts[i]);
      Assoc(result, [stmts[i]], Without(stmts[i + 1..], key));
      if !For(stmts[i], key) { result := result + [stmts[i]]; }
    }
  }

  /** renderEnvStatements. */
  method Render(stmts: seq<Statement>) returns (res: string)
    ensures res == Rendered(stmts)
  {
    res := "";
    for i := 0 to |stmts|
      invariant Concat(stmts) == res + Concat(stmts[i..])
    {
      assert stmts[i..][1..] == stmts[i + 1..];
      res := res + stmts[i].raw;
    }
    if |res| > 0 && !EndsLine(res) { res := res + "\n"; }
  }

  datatype Edit = Set(value: string) | Remove

  function NewFile(raw: string, key: string, edit: Edit): string {
    match edit
    case Remove => Rendered(Without(Parse(raw), key))
    case Set(value) => Rendered(Mutated(Parse(raw), key, NewStatement(key, value)))
  }

  /** MutateEnv. */
  method MutateEnv(raw: string, key: string, edit: Edit, accepted: string -> bool) returns (r: Option<string>)
    ensures r == match edit
                 case Remove => Some(NewFile(raw, key, edit))
                 case Set(value) =>
                   if '\0' in value || !accepted(Formatted(key, value)) then None else Some(NewFile(raw, key, edit))
  {
    var stmts := ParseStatements(raw);
    if edit.Remove? {
      stmts := RemoveKey(stmts, key);
    } else {
      var formatted := FormatEnvEntry(key, edit.value, accepted);
      if formatted.None? { return None; }
      stmts := MutateStatements(stmts, key, formatted.value);
    }
    var text := Render(stmts);
    return Some(text);
  }

  // ---------- what the edit should do to the entries ----------

  function Others(es: seq<Entry>, key: string): seq<Entry> {
    if es == [] then []
    else if es[0].key == key then Others(es[1..], key)
    else [es[0]] + Others(es[1..], key)
  }

  /** The new entry goes where the first old one was, or else at the end. */
  function Put(es: seq<Entry>, e: Entry): seq<Entry> {
    if es == [] then [e]
    else if es[0].key == e.key then [e] + Others(es[1..], e.key)
    else [es[0]] + Put(es[1..], e)
  }

  function Edited(es: seq<Entry>, key: string, edit: Edit): seq<Entry> {
    match edit
    case Remove => Others(es, key)
    case Set(value) => Put(es, Entry(key, Formatted(key, value)))
  }

  /** Index of the first entry for a key, or the number of entries. */
  function FirstAt(es: seq<Entry>, key: string): nat {
    if es == [] || es[0].key == key then 0 else 1 + FirstAt(es[1..], key)
  }

  /** An edit leaves the other entries as they were, in order; afterwards the key is there once, with its new text, at
      the place of its first old entry or else at the end, or not at all. */
  lemma {:induction false} EditedShape(es: seq<Entry>, key: string, edit: Edit)
    ensures Others(Edited(es, key, edit), key) == Others(es, key)
    ensures edit.Remove? ==> forall e <- Edited(es, key, edit) :: e.key != key
    ensures edit.Set? ==>
              && FirstAt(es, key) < |Edited(es, key, edit)|
              && Edited(es, key, edit)[FirstAt(es, key)] == Entry(key, Formatted(key, edit.value))
              && (forall i :: 0 <= i < |Edited(es, key, edit)| && i != FirstAt(es, key) ==>
                   Edited(es, key, edit)[i].key != key)
  {
    OthersTwice(es, key);
    if es != [] {
      OthersTwice(es[1..], key);
      EditedShape(es[1..], key, edit);
    }
  }

  lemma {:induction false} OthersTwice(es: seq<Entry>, key: string)
    ensures Others(Others(es, key), key) == Others(es, key)
    ensures forall e <- Others(es, key) :: e.key != key
  {
    if es != [] {
      OthersTwice(es[1..], key);
      var o := Others(es[1..], key);
      assert ([es[0]] + o)[1..] == o;
    }
  }

  // ---------- lists ----------

  predicate AllScanned(stmts: seq<Statement>) { forall st <- stmts :: Scanned(st) }

  predicate AllEnded(stmts: seq<Statement>) { forall st <- stmts :: Scanned(st) && Ended(st) }

  lemma {:induction false} WithoutMembers(stmts: seq<Statement>, key: string)
    ensures forall x <- Without(stmts, key) :: x in stmts
  {
    if stmts != [] { WithoutMembers(stmts[1..], key); }
  }

  lemma {:induction false} ReplacedMembers(stmts: seq<Statement>, key: string, st: Statement)
    ensures forall x <- Replaced(stmts, key, st) :: x in stmts || x == st
  {
    if stmts != [] {
      WithoutMembers(stmts[1..], key);
      ReplacedMembers(stmts[1..], key, st);
    }
  }

  lemma {:induction false} WithoutSnoc(p: seq<Statement>, u: Statement, key: string)
    ensures Without(p + [u], key) == Without(p, key) + if For(u, key) then [] else [u]
  {
    if p == [] {
      assert p + [u] == [u] && [u][1..] == [];
    } else {
      assert (p + [u])[1..] == p[1..] + [u];
      WithoutSnoc(p[1..], u, key);
    }
  }

  lemma {:induction false} ReplacedSnoc(p: seq<Statement>, u: Statement, key: string, st: Statement)
    ensures Replaced(p + [u], key, st) ==
            Replaced(p, key, st) + if !For(u, key) then [u] else if HasKey(p, key) then [] else [st]
  {
    if p == [] {
      assert p + [u] == [u] && [u][1..] == [];
    } else {
      assert (p + [u])[1..] == p[1..] + [u];
      if For(p[0], key) {
        WithoutSnoc(p[1..], u, key);
      } else {
        ReplacedSnoc(p[1..], u, key, st);
        assert forall i :: 0 <= i < |p[1..]| ==> p[1..][i] == p[i + 1];
        assert HasKey(p, key) ==> HasKey(p[1..], key) by {
          if HasKey(p, key) {
            var i :| 0 <= i < |p| && For(p[i], key);
            assert For(p[1..][i - 1], key);
          }
        }
      }
    }
  }

  lemma {:induction false} EntriesAppend(a: seq<Statement>, b: seq<Statement>)
    requires AllScanned(a) && AllScanned(b)
    ensures AllScanned(a + b) && Entries(a + b) == Entries(a) + Entries(b)
  {
    if a == [] {
      assert a + b == b;
    } else {
      EntriesAppend(a[1..], b);
      ConsEntries(a[0], a[1..]);
      ConsEntries(a[0], a[1..] + b);
      Assoc([a[0]], a[1..], b);
      assert a == [a[0]] + a[1..];
      Assoc(EntriesOf(a[0]), Entries(a[1..]), Entries(b));
    }
  }

  lemma {:induction false} OthersAppend(a: seq<Entry>, b: seq<Entry>, key: string)
    ensures Others(a + b, key) == Others(a, key) + Others(b, key)
  {
    if a == [] {
      assert a + b == b;
    } else {
      OthersAppend(a[1..], b, key);
      assert (a + b)[1..] == a[1..] + b;
      Assoc([a[0]], Others(a[1..], key), Others(b, key));
    }
  }

  // ---------- the entries of an edited list ----------

  lemma OneEntry(st: Statement, key: string)
    requires Scanned(st)
    ensures Others(EntriesOf(st), key) == if For(st, key) then [] else EntriesOf(st)
    ensures st.isKey <==> |EntriesOf(st)| == 1
    ensures !st.isKey <==> EntriesOf(st) == []
    ensures st.isKey ==> EntriesOf(st)[0].key == st.key
  {
    var es := EntriesOf(st);
    if st.isKey { assert es[1..] == [] && Others([], key) == []; }
  }

  lemma ConsEntries(st: Statement, rest: seq<Statement>)
    requires Scanned(st) && AllScanned(rest)
    ensures AllScanned([st] + rest) && Entries([st] + rest) == EntriesOf(st) + Entries(rest)
  {
    assert ([st] + rest)[1..] == rest;
  }

  lemma {:induction false} EntriesWithout(stmts: seq<Statement>, key: string)
    requires AllScanned(stmts)
    ensures AllScanned(Without(stmts, key)) && Entries(Without(stmts, key)) == Others(Entries(stmts), key)
  {
    if stmts != [] {
      var st, rest := stmts[0], stmts[1..];
      EntriesWithout(rest, key);
      WithoutCons(st, rest, key);
      assert stmts == [st] + rest;
    }
  }

  lemma WithoutCons(st: Statement, rest: seq<Statement>, key: string)
    requires Scanned(st) && AllScanned(rest) && AllScanned(Without(rest, key))
    requires Entries(Without(rest, key)) == Others(Entries(rest), key)
    ensures AllScanned([st] + rest) && AllScanned(Without([st] + rest, key))
    ensures Entries(Without([st] + rest, key)) == Others(Entries([st] + rest), key)
  {
    OneEntry(st, key);
    OthersAppend(EntriesOf(st), Entries(rest), key);
    ConsEntries(st, rest);
    assert ([st] + rest)[1..] == rest;
    if For(st, key) {
      assert Without([st] + rest, key) == Without(rest, key);
    } else {
      ConsEntries(st, Without(rest, key));
    }
  }

  lemma {:induction false} EntriesReplaced(stmts: seq<Statement>, key: string, st: Statement, e: Entry)
    requires AllScanned(stmts) && HasKey(stmts, key) && Scanned(st) && EntriesOf(st) == [e] && e.key == key
    ensures AllScanned(Replaced(stmts, key, st)) && Entries(Replaced(stmts, key, st)) == Put(Entries(stmts), e)
  {
    var s0, rest := stmts[0], stmts[1..];
    OneEntry(s0, key);
    if For(s0, key) {
      EntriesWithout(rest, key);
      ConsEntries(st, Without(rest, key));
      PutFront(EntriesOf(s0), Entries(rest), e);
    } else {
      KeyInRest(stmts, key);
      EntriesReplaced(rest, key, st, e);
      ConsEntries(s0, Replaced(rest, key, st));
      PutFront(EntriesOf(s0), Entries(rest), e);
    }
  }

  lemma KeyInRest(stmts: seq<Statement>, key: string)
    requires HasKey(stmts, key) && !For(stmts[0], key)
    ensures HasKey(stmts[1..], key)
  {
    var i :| 0 <= i < |stmts| && For(stmts[i], key);
    assert For(stmts[1..][i - 1], key);
  }

  lemma PutFront(front: seq<Entry>, es: seq<Entry>, e: Entry)
    requires |front| <= 1
    ensures Put(front + es, e) ==
            if front != [] && front[0].key == e.key then [e] + Others(es, e.key) else front + Put(es, e)
  {
    assert front != [] ==> (front + es)[1..] == es;
    assert front == [] ==> front + es == es;
  }

  lemma {:induction false} PutAtEnd(es: seq<Entry>, e: Entry)
    requires forall x <- es :: x.key != e.key
    ensures Put(es, e) == es + [e]
  {
    if es != [] { PutAtEnd(es[1..], e); }
  }

  // ---------- rendering ----------

  /** The list with its last line completed. */
  function Finished(stmts: seq<Statement>): seq<Statement> {
    if stmts == [] || EndsLine(stmts[|stmts| - 1].raw) then stmts
    else
      var u := stmts[|stmts| - 1];
      stmts[..|stmts| - 1] + [u.(raw := u.raw + "\n")]
  }

  lemma ConcatSnoc(p: seq<Statement>, u: Statement)
    ensures Concat(p + [u]) == Concat(p) + u.raw
  {
    ConcatAppend(p, [u]);
    assert [u][1..] == [] && Concat([u]) == u.raw + Concat([]);
  }

  lemma RenderedIsFinished(p: seq<Statement>, u: Statement)
    requires u.raw != ""
    ensures Rendered(p + [u]) == Concat(Finished(p + [u])) ==
            Concat(p) + if EndsLine(u.raw) then u.raw else u.raw + "\n"
    ensures Finished(p + [u]) == p + [if EndsLine(u.raw) then u else u.(raw := u.raw + "\n")]
  {
    ConcatSnoc(p, u);
    assert Concat(p) + u.raw != "" && (EndsLine(Concat(p) + u.raw) <==> EndsLine(u.raw));
    if !EndsLine(u.raw) {
      ConcatSnoc(p, u.(raw := u.raw + "\n"));
      assert (p + [u])[..|p|] == p;
      Assoc(Concat(p), u.raw, "\n");
    }
  }

  lemma SnocSplit(p: seq<Statement>, u: Statement)
    requires AllEnded(p) && Scanned(u)
    ensures WellSplit(p + [u]) && AllScanned(p + [u])
  {
    assert forall i :: 0 <= i < |p| ==> (p + [u])[i] == p[i] && p[i] in p;
  }

  lemma EndedSplit(p: seq<Statement>)
    requires AllEnded(p)
    ensures WellSplit(p) && AllScanned(p)
  {
    assert forall i :: 0 <= i < |p| ==> p[i] in p;
  }

  /** A rendered list says what its statements say, if the last of them is closed or complete as it is. */
  lemma RenderedSays(p: seq<Statement>, u: Statement)
    requires AllEnded(p) && Scanned(u) && (ClosedStatement(u) || EndsLine(u.raw))
    ensures AllScanned(p + [u]) && Meaning(Rendered(p + [u])) == Entries(p + [u])
  {
    SnocSplit(p, u);
    RenderedIsFinished(p, u);
    if EndsLine(u.raw) {
      ListSays(p + [u]);
    } else {
      NewlineEnds(u);
      var v := u.(raw := u.raw + "\n");
      SnocSplit(p, v);
      ListSays(p + [v]);
      SameEntries(p, u, v);
    }
  }

  lemma SameEntries(p: seq<Statement>, u: Statement, v: Statement)
    requires AllEnded(p) && Scanned(u) && Scanned(v) && EntriesOf(u) == EntriesOf(v)
    ensures AllScanned(p + [u]) && AllScanned(p + [v]) && Entries(p + [u]) == Entries(p + [v])
  {
    EndedSplit(p);
    EntriesAppend(p, [u]);
    EntriesAppend(p, [v]);
    ConsEntries(u, []);
    ConsEntries(v, []);
    assert [u] + [] == [u] && [v] + [] == [v];
  }

  lemma {:induction false} FrontSays(p: seq<Statement>, r: string)
    requires AllEnded(p)
    ensures AllScanned(p) && Meaning(Concat(p) + r) == Entries(p) + Meaning(r)
  {
    EndedSplit(p);
    if p == [] {
      assert Concat(p) + r == r;
    } else {
      FrontSays(p[1..], r);
      FrontCons(p[0], p[1..], r);
      assert p == [p[0]] + p[1..];
    }
  }

  lemma FrontCons(st: Statement, rest: seq<Statement>, r: string)
    requires Scanned(st) && Ended(st) && AllScanned(rest) && Meaning(Concat(rest) + r) == Entries(rest) + Meaning(r)
    ensures AllScanned([st] + rest) && Meaning(Concat([st] + rest) + r) == Entries([st] + rest) + Meaning(r)
  {
    var t := Concat(rest) + r;
    ConcatCons(st, rest, r);
    ConsEntries(st, rest);
    SaysInFront(st, t, Entries(rest), Meaning(r));
  }

  lemma SaysInFront(st: Statement, t: string, es: seq<Entry>, more: seq<Entry>)
    requires Scanned(st) && Ended(st) && Meaning(t) == es + more
    ensures Meaning(st.raw + t) == EntriesOf(st) + es + more
  {
    StatementSays(st, t);
  }

  lemma ConcatCons(st: Statement, rest: seq<Statement>, r: string)
    ensures Concat([st] + rest) + r == st.raw + (Concat(rest) + r)
  {
    assert ([st] + rest)[1..] == rest;
  }

  /** Anything written after an open quote becomes part of its value. */
  lemma OpenSwallows(u: Statement, x: string)
    requires Scanned(u) && !ClosedStatement(u) && x != ""
    ensures Meaning(u.raw + x) != [] && |Meaning(u.raw + x)[0].text| > |u.raw|
  {
    var a := u.raw;
    var h := HeadAt(a).value;
    HeadOver(a, h.separator, x);
    OpenGrows(a, h.separator, x);
    FirstEntry(a + x, h);
  }

  lemma FirstEntry(s: string, h: Head)
    requires s != "" && !Blank(s[0]) && HeadAt(s) == Some(h)
    ensures Meaning(s) != [] && |Meaning(s)[0].text| == Span(s, h.separator)
  {
    var n := Span(s, h.separator);
    MeaningOfKey(s, h, s[..n], s[n..]);
  }

  lemma OpenGrows(a: string, separator: nat, x: string)
    requires separator < |a| && !Closed(a, separator) && x != ""
    ensures Span(a + x, separator) > |a|
  {
    var v := a[separator + 1..];
    assert (a + x)[separator + 1..] == v + x;
    SkipPadOver(v, x);
    var w := v[SkipPad(v)..];
    assert (v + x)[SkipPad(v)..] == w + x;
    CloseOver(w, 1, x);
  }

  lemma OpenFails(p: seq<Statement>, u: Statement, x: string, more: seq<Entry>)
    requires AllEnded(p) && Scanned(u) && !ClosedStatement(u) && x != ""
    ensures AllScanned(p + [u]) && Meaning(Concat(p) + (u.raw + x)) != Entries(p + [u]) + more
  {
    SnocSplit(p, u);
    EndedSplit(p);
    FrontSays(p, u.raw + x);
    OpenSwallows(u, x);
    EntriesAppend(p, [u]);
    ConsEntries(u, []);
    assert [u] + [] == [u];
    var n := |Entries(p)|;
    assert (Entries(p + [u]) + more)[n] == EntriesOf(u)[0];
    assert Meaning(Concat(p) + (u.raw + x))[n] == Meaning(u.raw + x)[0];
    assert |EntriesOf(u)[0].text| <= |u.raw|;
  }

  // ---------- the edit ----------

  function EntriesIn(file: string): seq<Entry> {
    ParseMeans(file);
    Entries(Parse(file))
  }

  /** The file ends inside an open quote; by then only the last statement can be open. */
  predicate LeftOpen(stmts: seq<Statement>) {
    stmts != [] && Scanned(stmts[|stmts| - 1]) && !ClosedStatement(stmts[|stmts| - 1])
  }

  /** Either no quote is left open, or the open statement goes, or nothing is written after it. */
  predicate EditIsSafe(raw: string, key: string, edit: Edit) {
    var stmts := Parse(raw);
    || !LeftOpen(stmts)
    || For(stmts[|stmts| - 1], key)
    || (EndsLine(raw) && (edit.Remove? || HasKey(stmts, key)))
  }

  lemma KeepsLast(q: seq<Statement>, u: Statement)
    requires AllEnded(q) && Scanned(u)
    ensures AllScanned(q + [u])
    ensures Meaning(Rendered(q + [u])) == Entries(q + [u]) <==> ClosedStatement(u) || EndsLine(u.raw)
  {
    SnocSplit(q, u);
    if ClosedStatement(u) || EndsLine(u.raw) {
      RenderedSays(q, u);
    } else {
      RenderedIsFinished(q, u);
      OpenFails(q, u, "\n", []);
      assert Entries(q + [u]) + [] == Entries(q + [u]);
    }
  }

  lemma LosesLast(q: seq<Statement>)
    requires AllEnded(q)
    ensures AllScanned(q) && Meaning(Rendered(q)) == Entries(q)
  {
    if q != [] {
      var n := |q| - 1;
      assert q == q[..n] + [q[n]];
      RenderedSays(q[..n], q[n]);
    }
  }

  lemma AppendedSays(stmts: seq<Statement>, st: Statement)
    requires WellSplit(stmts) && AllScanned(stmts) && Scanned(st) && Ended(st) && EndsLine(st.raw)
    ensures Meaning(Rendered(Appended(stmts, st))) == Entries(stmts) + EntriesOf(st) <==> !LeftOpen(stmts)
  {
    if stmts == [] {
      assert Appended(stmts, st) == [] + [st];
      RenderedSays([], st);
      ConsEntries(st, []);
    } else {
      FrontEnded(stmts);
      AppendedAfter(stmts[..|stmts| - 1], stmts[|stmts| - 1], st);
    }
  }

  lemma AppendedText(p: seq<Statement>, u: Statement, st: Statement)
    requires u.raw != "" && EndsLine(st.raw)
    ensures Rendered(Appended(p + [u], st)) == Rendered(p + [u]) + st.raw
  {
    var l := p + [u];
    var nl := Statement("\n", false, "");
    RenderedIsFinished(p, u);
    ConcatSnoc(p, u);
    if EndsLine(u.raw) {
      assert l + [] == l;
      RenderedSnoc(l, st);
    } else {
      ConcatSnoc(l, nl);
      RenderedSnoc(l + [nl], st);
      Regroup(Concat(p), u.raw, "\n", "");
    }
  }

  lemma RenderedSnoc(l: seq<Statement>, st: Statement)
    requires EndsLine(st.raw)
    ensures Rendered(l + [st]) == Concat(l) + st.raw
  {
    ConcatSnoc(l, st);
  }

  lemma AppendedAfter(p: seq<Statement>, u: Statement, st: Statement)
    requires AllEnded(p) && Scanned(u) && Scanned(st) && Ended(st) && EndsLine(st.raw)
    ensures AllScanned(p + [u])
    ensures Meaning(Rendered(Appended(p + [u], st))) == Entries(p + [u]) + EntriesOf(st) <==> ClosedStatement(u)
  {
    AppendedText(p, u, st);
    SnocSplit(p, u);
    if ClosedStatement(u) { AppendedToClosed(p, u, st); } else { AppendedToOpen(p, u, st); }
  }

  lemma AppendedToOpen(p: seq<Statement>, u: Statement, st: Statement)
    requires AllEnded(p) && Scanned(u) && !ClosedStatement(u) && Scanned(st)
    ensures AllScanned(p + [u]) && Meaning(Rendered(p + [u]) + st.raw) != Entries(p + [u]) + EntriesOf(st)
  {
    var x := (if EndsLine(u.raw) then "" else "\n") + st.raw;
    TextAfter(p, u, st, x);
    OpenFails(p, u, x, EntriesOf(st));
  }

  lemma TextAfter(p: seq<Statement>, u: Statement, st: Statement, x: string)
    requires u.raw != "" && x == (if EndsLine(u.raw) then "" else "\n") + st.raw
    ensures Rendered(p + [u]) + st.raw == Concat(p) + (u.raw + x)
  {
    RenderedIsFinished(p, u);
    if EndsLine(u.raw) {
      assert x == st.raw;
      Regroup(Concat(p), u.raw, "", st.raw);
    } else {
      Regroup(Concat(p), u.raw, "\n", st.raw);
    }
  }

  lemma Regroup(a: string, b: string, c: string, d: string)
    ensures a + (b + c) + d == a + (b + (c + d)) && a + b + c == a + (b + c) && (c == "" ==> b + c == b && c + d == d)
  {
  }

  lemma AppendedToClosed(p: seq<Statement>, u: Statement, st: Statement)
    requires AllEnded(p) && Scanned(u) && ClosedStatement(u) && Scanned(st) && Ended(st)
    ensures AllScanned(p + [u]) && Meaning(Rendered(p + [u]) + st.raw) == Entries(p + [u]) + EntriesOf(st)
  {
    RenderedIsFinished(p, u);
    var v := if EndsLine(u.raw) then u else u.(raw := u.raw + "\n");
    if !EndsLine(u.raw) { NewlineEnds(u); }
    SameEntries(p, u, v);
    FrontSays(p + [v], st.raw);
    LastSays(st);
  }

  lemma FrontEnded(stmts: seq<Statement>)
    requires WellSplit(stmts) && stmts != []
    ensures AllEnded(stmts[..|stmts| - 1]) && Scanned(stmts[|stmts| - 1])
    ensures stmts == stmts[..|stmts| - 1] + [stmts[|stmts| - 1]]
  {
    var p := stmts[..|stmts| - 1];
    forall st <- p ensures Scanned(st) && Ended(st) {
      var i :| 0 <= i < |p| && p[i] == st;
      assert stmts[i] == st;
    }
  }

  lemma WithoutEnded(p: seq<Statement>, key: string)
    requires AllEnded(p)
    ensures AllEnded(Without(p, key))
  {
    WithoutMembers(p, key);
  }

  lemma ReplacedEnded(p: seq<Statement>, key: string, st: Statement)
    requires AllEnded(p) && Scanned(st) && Ended(st)
    ensures AllEnded(Replaced(p, key, st)) && AllEnded(Replaced(p, key, st) + [st])
  {
    ReplacedMembers(p, key, st);
  }

  lemma ConcatEndsAsLast(p: seq<Statement>, u: Statement)
    requires u.raw != ""
    ensures EndsLine(Concat(p + [u])) <==> EndsLine(u.raw)
  {
    ConcatSnoc(p, u);
  }

  lemma RemoveIsExact(p: seq<Statement>, u: Statement, key: string)
    requires AllEnded(p) && Scanned(u)
    ensures AllScanned(p + [u])
    ensures Meaning(Rendered(Without(p + [u], key))) == Others(Entries(p + [u]), key) <==>
            For(u, key) || ClosedStatement(u) || EndsLine(u.raw)
  {
    SnocSplit(p, u);
    EntriesWithout(p + [u], key);
    WithoutSnoc(p, u, key);
    WithoutEnded(p, key);
    var q := Without(p, key);
    if For(u, key) {
      assert q + [] == q;
      LosesLast(q);
    } else {
      KeepsLast(q, u);
    }
  }

  lemma ReplaceIsExact(p: seq<Statement>, u: Statement, key: string, st: Statement, e: Entry)
    requires AllEnded(p) && Scanned(u) && HasKey(p + [u], key)
    requires Scanned(st) && Ended(st) && EntriesOf(st) == [e] && e.key == key
    ensures AllScanned(p + [u])
    ensures Meaning(Rendered(Replaced(p + [u], key, st))) == Put(Entries(p + [u]), e) <==>
            For(u, key) || ClosedStatement(u) || EndsLine(u.raw)
  {
    SnocSplit(p, u);
    EntriesReplaced(p + [u], key, st, e);
    if For(u, key) {
      ReplaceWithLast(p, u, key, st);
    } else {
      ReplacedSnoc(p, u, key, st);
      ReplacedEnded(p, key, st);
      KeepsLast(Replaced(p, key, st), u);
    }
  }

  lemma ReplaceWithLast(p: seq<Statement>, u: Statement, key: string, st: Statement)
    requires AllEnded(p) && For(u, key) && Scanned(st) && Ended(st)
    ensures var l := Replaced(p + [u], key, st); AllScanned(l) && Meaning(Rendered(l)) == Entries(l)
  {
    ReplacedSnoc(p, u, key, st);
    ReplacedEnded(p, key, st);
    assert Replaced(p, key, st) + [] == Replaced(p, key, st);
    LosesLast(Replaced(p + [u], key, st));
  }

  lemma {:induction false} NoEntryForKey(stmts: seq<Statement>, key: string)
    requires AllScanned(stmts) && !HasKey(stmts, key)
    ensures forall e <- Entries(stmts) :: e.key != key
  {
    if stmts != [] {
      assert !For(stmts[0], key);
      assert forall i :: 0 <= i < |stmts[1..]| ==> stmts[1..][i] == stmts[i + 1];
      NoEntryForKey(stmts[1..], key);
      OneEntry(stmts[0], key);
    }
  }

  /** Reading a file back after an edit gives the edited entries, if and only if the edit is safe: nothing is written
      into a quote that the file leaves open. */
  lemma EditIsExact(raw: string, key: string, edit: Edit)
    requires edit.Set? ==> Writable(key) && !Swallows(edit.value)
    ensures EntriesIn(NewFile(raw, key, edit)) == Edited(EntriesIn(raw), key, edit) <==> EditIsSafe(raw, key, edit)
  {
    ParseMeans(NewFile(raw, key, edit));
    ParseMeans(raw);
    ParseScans(raw);
    ParseIsLossless(raw);
    match edit
    case Remove => RemoveFromFile(Parse(raw), key);
    case Set(value) =>
      FormattedIsOneEntry(key, value);
      SetInFile(Parse(raw), key, NewStatement(key, value), Entry(key, Formatted(key, value)));
  }

  lemma RemoveFromFile(stmts: seq<Statement>, key: string)
    requires WellSplit(stmts) && AllScanned(stmts)
    ensures Meaning(Rendered(Without(stmts, key))) == Others(Entries(stmts), key) <==>
            !LeftOpen(stmts) || For(stmts[|stmts| - 1], key) || EndsLine(Concat(stmts))
  {
    if stmts == [] {
      LosesLast([]);
    } else {
      var p, u := stmts[..|stmts| - 1], stmts[|stmts| - 1];
      FrontEnded(stmts);
      RemoveIsExact(p, u, key);
      ConcatEndsAsLast(p, u);
    }
  }

  lemma SetInFile(stmts: seq<Statement>, key: string, st: Statement, e: Entry)
    requires WellSplit(stmts) && AllScanned(stmts)
    requires Scanned(st) && Ended(st) && EndsLine(st.raw) && EntriesOf(st) == [e] && e.key == key
    ensures Meaning(Rendered(Mutated(stmts, key, st))) == Put(Entries(stmts), e) <==>
            !LeftOpen(stmts) || For(stmts[|stmts| - 1], key) || (EndsLine(Concat(stmts)) && HasKey(stmts, key))
  {
    if HasKey(stmts, key) {
      ReplaceInFile(stmts, key, st, e);
    } else {
      NoEntryForKey(stmts, key);
      PutAtEnd(Entries(stmts), e);
      AppendedSays(stmts, st);
      assert stmts != [] ==> !For(stmts[|stmts| - 1], key);
    }
  }

  lemma ReplaceInFile(stmts: seq<Statement>, key: string, st: Statement, e: Entry)
    requires WellSplit(stmts) && AllScanned(stmts) && HasKey(stmts, key)
    requires Scanned(st) && Ended(st) && EntriesOf(st) == [e] && e.key == key
    ensures Meaning(Rendered(Replaced(stmts, key, st))) == Put(Entries(stmts), e) <==>
            !LeftOpen(stmts) || For(stmts[|stmts| - 1], key) || EndsLine(Concat(stmts))
  {
    var p, u := stmts[..|stmts| - 1], stmts[|stmts| - 1];
    FrontEnded(stmts);
    ReplaceIsExact(p, u, key, st, e);
    ConcatEndsAsLast(p, u);
  }

  /** For instance, after `A="x` no other key can be set: it would end up inside the value of A. */
  lemma OpenQuoteExample(key: string, w: string, other: string, value: string)
    requires Writable(key) && w != "" && Quote(w[0]) && forall p :: 1 <= p < |w| ==> w[p] != w[0]
    requires Writable(other) && other != key && !Swallows(value)
    ensures var raw := key + "=" + w;
            EntriesIn(NewFile(raw, other, Set(value))) != Edited(EntriesIn(raw), other, Set(value))
  {
    EditIsExact(key + "=" + w, other, Set(value));
    OnlyOpen(key, w);
  }

  lemma OnlyOpen(key: string, w: string)
    requires Writable(key) && w != "" && Quote(w[0]) && forall p :: 1 <= p < |w| ==> w[p] != w[0]
    ensures var raw := key + "=" + w;
            Parse(raw) == [Statement(raw, true, key)] && LeftOpen(Parse(raw))
  {
    var raw := key + "=" + w;
    KeyIsFound(key, w);
    WrittenValue(key, w);
    CloseIsNone(w, 1);
    var h := Head(key, |key|);
    assert KeyLength(raw, |key|) == |raw|;
    OneRound(raw, h);
    ParseScans(raw);
    assert !Closed(raw, |key|);
  }

  lemma OneRound(raw: string, h: Head)
    requires raw != "" && !Blank(raw[0]) && HeadAt(raw) == Some(h) && KeyLength(raw, h.separator) == |raw|
    ensures Parse(raw) == [Statement(raw, true, h.key)]
  {
    assert raw[0..] == raw && raw[0..|raw|] == raw;
    RoundIs(raw, 0, raw, |raw|);
    ParseUnfolds(raw, |raw|, "");
    assert [] + [Statement(raw, true, h.key)] == [Statement(raw, true, h.key)];
    assert Round(raw) + Parse("") == Round(raw);
  }
}
