/** What a .env file says, read front to back without splitting it into statements first, and why statements may be
    rearranged: the text of one says the same in front of any other. */
module EnvMeaning {
  import opened Text
  import opened EnvScanner

  /** A key with the text of its statement up to the end of the value: no trailing comment, no newline. */
  datatype Entry = Entry(key: string, text: string)

  /** Length of a value: to its closing quote, or to the end of the line. */
  function ValueSpan(w: string): (n: nat)
    ensures n <= |w|
  {
    if w != "" && Quote(w[0]) then match CloseFrom(w, 1) { case None => |w| case Some(c) => c + 1 }
    else BodyLength(w)
  }

  function BodyLength(s: string): (n: nat)
    ensures n <= |s|
  {
    if s == "" || s[0] == '\n' then 0 else 1 + BodyLength(s[1..])
  }

  /** Length of the key statement at the front of t up to the end of its value. */
  function Span(t: string, separator: nat): (n: nat)
    requires separator < |t|
    ensures separator < n <= |t|
  {
    var w := FromValue(t, separator);
    |t| - |w| + ValueSpan(w)
  }

  /** The value ends: it is not quoted, or its quote is closed. */
  predicate Closed(t: string, separator: nat)
    requires separator < |t|
  {
    var w := FromValue(t, separator);
    w == "" || !Quote(w[0]) || CloseFrom(w, 1).Some?
  }

  function Meaning(s: string): seq<Entry>
    decreases |s|
  {
    var p := SkipBlank(s);
    var t := s[p..];
    if t == "" then []
    else
      match HeadAt(t)
      case None => Meaning(t[LineLength(t)..])
      case Some(h) => [Entry(h.key, t[..Span(t, h.separator)])] + Meaning(t[Span(t, h.separator)..])
  }

  // ---------- what depends only on the front of the text ----------

  lemma {:induction false} SkipBlankOver(a: string, r: string)
    ensures SkipBlank(a) == |a| ==> SkipBlank(a + r) == |a| + SkipBlank(r)
    ensures SkipBlank(a) < |a| ==> SkipBlank(a + r) == SkipBlank(a) && !Blank(a[SkipBlank(a)])
  {
    if a == "" {
      assert a + r == r;
    } else {
      assert (a + r)[1..] == a[1..] + r;
      SkipBlankOver(a[1..], r);
    }
  }

  lemma {:induction false} SkipPadOver(a: string, r: string)
    ensures SkipPad(a) < |a| ==> SkipPad(a + r) == SkipPad(a) && !Pad(a[SkipPad(a)])
    ensures SkipPad(a) == |a| ==> SkipPad(a + r) == |a| + SkipPad(r)
  {
    if a == "" {
      assert a + r == r;
    } else {
      assert (a + r)[1..] == a[1..] + r;
      SkipPadOver(a[1..], r);
    }
  }

  /** The first line of a is complete. */
  predicate HasLine(a: string) { BodyLength(a) < |a| }

  lemma {:induction false} LineOver(a: string, r: string)
    ensures HasLine(a) ==> LineLength(a + r) == LineLength(a) && BodyLength(a + r) == BodyLength(a)
    ensures HasLine(a) <==> a != "" && a[LineLength(a) - 1] == '\n'
    ensures HasLine(a) ==> a[BodyLength(a)] == '\n'
    ensures LineLength(a) == BodyLength(a) + if HasLine(a) then 1 else 0
    ensures !HasLine(a) ==> LineLength(a + "\n") == |a| + 1 && BodyLength(a + "\n") == |a|
  {
    if a != "" {
      assert (a + r)[1..] == a[1..] + r && (a + "\n")[1..] == a[1..] + "\n";
      if a[0] != '\n' { LineOver(a[1..], r); }
    }
  }

  lemma {:induction false} CloseOver(w: string, i: nat, r: string)
    requires 1 <= i && w != ""
    ensures CloseFrom(w, i).Some? ==> CloseFrom(w + r, i) == CloseFrom(w, i)
    ensures CloseFrom(w, i).None? && CloseFrom(w + r, i).Some? ==> CloseFrom(w + r, i).value >= |w|
    decreases |w| - i
  {
    if i < |w| { CloseOver(w, i + 1, r); }
  }

  /** Neither part of a key nor a pad inside one. */
  predicate Stop(c: char) { Separator(c) || c == '\n' }

  lemma {:induction false} ScanOver(a: string, j: nat, r: string)
    requires j < |a| && Stop(a[j])
    ensures ScanSeparator(a + r) == ScanSeparator(a)
  {
    assert (a + r)[1..] == a[1..] + r;
    if j > 0 { ScanOver(a[1..], j - 1, r); }
  }

  lemma ExportOver(a: string, j: nat, r: string)
    requires j < |a| && Stop(a[j])
    ensures ExportLength(a + r) == ExportLength(a) <= j
  {
    var e := "export";
    assert forall i :: 0 <= i < 6 ==> !Stop(e[i]);
    if e <= a + r && |a + r| > 6 && Pad((a + r)[6]) {
      assert (a + r)[j] == a[j] && forall i :: 0 <= i < 6 ==> (a + r)[i] == e[i];
      assert a[..6] == (a + r)[..6] == e;
      PadStops(a[6..], j - 6);
      SkipPadOver(a[6..], r);
      assert (a + r)[6..] == a[6..] + r;
    } else if e <= a && |a| > 6 && Pad(a[6]) {
      assert false;
    }
  }

  lemma {:induction false} PadStops(a: string, j: nat)
    requires j < |a| && !Pad(a[j])
    ensures SkipPad(a) <= j
  {
    if j > 0 { PadStops(a[1..], j - 1); }
  }

  lemma HeadOver(a: string, j: nat, r: string)
    requires j < |a| && Stop(a[j])
    ensures HeadAt(a + r) == HeadAt(a)
  {
    KeyOver(a, j, r);
    assert (a + r)[0] == a[0];
  }

  lemma KeyOver(a: string, j: nat, r: string)
    requires j < |a| && Stop(a[j])
    ensures KeyAndSeparator(a + r) == KeyAndSeparator(a)
  {
    ExportOver(a, j, r);
    var p := ExportLength(a);
    Slices(a, r, p);
    ScanOver(a[p..], j - p, r);
    if ScanSeparator(a[p..]).Some? { SliceOver(a, r, p, p + ScanSeparator(a[p..]).value); }
  }

  lemma SliceOver(a: string, r: string, i: nat, j: nat)
    requires i <= j <= |a|
    ensures (a + r)[i..j] == a[i..j]
  {
  }

  lemma NoHeadBeforeNewline(a: string)
    requires HeadAt(a).None?
    ensures HeadAt(a + "\n").None?
  {
    if HeadAt(a + "\n").Some? {
      var j := HeadAt(a + "\n").value.separator;
      assert j < |a| && Stop(a[j]);
      HeadOver(a, j, "\n");
      assert false;
    }
  }

  // ---------- statements ----------

  predicate EndsLine(s: string) { s != "" && s[|s| - 1] == '\n' }

  /** At most one line, holding nothing but blanks and a comment. */
  predicate TriviaLine(x: string) {
    LineLength(x) == |x| && (SkipBlank(x) == |x| || x[SkipBlank(x)] == '#')
  }

  predicate Scanned(st: Statement) {
    if st.isKey then
      st.raw != "" && !Blank(st.raw[0]) && HeadAt(st.raw).Some? && HeadAt(st.raw).value.key == st.key &&
      TriviaLine(st.raw[Span(st.raw, HeadAt(st.raw).value.separator)..])
    else
      var t := st.raw[SkipBlank(st.raw)..];
      st.raw != "" && (t == "" || (HeadAt(t).None? && LineLength(t) == |t|))
  }

  predicate ClosedStatement(st: Statement)
    requires Scanned(st)
  {
    st.isKey ==> Closed(st.raw, HeadAt(st.raw).value.separator)
  }

  /** Whatever comes next in the file is not part of this statement. */
  predicate Ended(st: Statement)
    requires Scanned(st)
  {
    if st.isKey then
      ClosedStatement(st) && (EndsLine(st.raw) || QuotedToTheEnd(st.raw, HeadAt(st.raw).value.separator))
    else SkipBlank(st.raw) == |st.raw| || EndsLine(st.raw)
  }

  predicate QuotedToTheEnd(t: string, separator: nat)
    requires separator < |t|
  {
    var w := FromValue(t, separator);
    w != "" && Quote(w[0]) && Span(t, separator) == |t|
  }

  function EntriesOf(st: Statement): seq<Entry>
    requires Scanned(st)
  {
    if st.isKey then [Entry(st.key, st.raw[..Span(st.raw, HeadAt(st.raw).value.separator)])] else []
  }

  // ---------- one statement in front of any text ----------

  lemma BlanksSayNothing(a: string, r: string)
    requires SkipBlank(a) == |a|
    ensures Meaning(a + r) == Meaning(r)
  {
    SkipBlankOver(a, r);
    assert (a + r)[SkipBlank(a + r)..] == r[SkipBlank(r)..];
  }

  lemma LineSaysNothing(a: string, r: string)
    requires a != "" && !Blank(a[0]) && HeadAt(a).None? && LineLength(a) == |a| && EndsLine(a)
    ensures Meaning(a + r) == Meaning(r)
  {
    LineOver(a, r);
    HeadOver(a, |a| - 1, r);
    assert (a + r)[|a|..] == r && (a + r)[0..] == a + r;
  }

  lemma NonKeySaysNothing(st: Statement, r: string)
    requires Scanned(st) && !st.isKey && Ended(st)
    ensures Meaning(st.raw + r) == Meaning(r)
  {
    var a := st.raw;
    var p := SkipBlank(a);
    if p == |a| {
      BlanksSayNothing(a, r);
    } else {
      BlankFront(a);
      LineSaysNothing(a[p..], r);
      BlanksSayNothing(a[..p], a[p..] + r);
      CutAt(a, p, r);
    }
  }

  lemma CutAt(a: string, p: nat, r: string)
    requires p <= |a|
    ensures a + r == a[..p] + (a[p..] + r)
  {
  }

  lemma {:induction false} BlankFront(a: string)
    ensures SkipBlank(a[..SkipBlank(a)]) == SkipBlank(a)
    ensures SkipBlank(a) < |a| ==> !Blank(a[SkipBlank(a)])
  {
    if a != "" && Blank(a[0]) {
      BlankFront(a[1..]);
      assert a[..SkipBlank(a)][1..] == a[1..][..SkipBlank(a[1..])];
    }
  }

  lemma TriviaSaysNothing(x: string, r: string)
    requires TriviaLine(x) && (x == "" || EndsLine(x))
    ensures Meaning(x + r) == Meaning(r)
  {
    LineSuffix(x, SkipBlank(x));
    if x == "" { assert x + r == r; } else { NonKeySaysNothing(Statement(x, false, ""), r); }
  }

  lemma {:induction false} LineSuffix(x: string, p: nat)
    requires p <= |x| && LineLength(x) == |x|
    ensures LineLength(x[p..]) == |x| - p
  {
    if p > 0 {
      assert x[p..] == x[1..][p - 1..];
      LineSuffix(x[1..], p - 1);
    }
  }

  /** A value that ends is followed by its own rest, whatever comes after. */
  lemma SpanOver(a: string, separator: nat, r: string)
    requires separator < |a| && Separator(a[separator]) && Closed(a, separator)
    requires EndsLine(a) || QuotedToTheEnd(a, separator)
    ensures Span(a + r, separator) == Span(a, separator)
  {
    var v := a[separator + 1..];
    assert (a + r)[separator + 1..] == v + r;
    SkipPadOver(v, r);
    var n := SkipPad(v);
    AllPad(v);
    var w := v[n..];
    assert (v + r)[n..] == w + r;
    if Quote(w[0]) {
      CloseOver(w, 1, r);
    } else {
      LineOver(w, r);
      EndsInLine(w);
    }
  }

  lemma {:induction false} AllPad(v: string)
    ensures SkipPad(v) == |v| && v != "" ==> Pad(v[|v| - 1])
    ensures SkipPad(v) < |v| ==> !Pad(v[SkipPad(v)])
  {
    if v != "" && Pad(v[0]) { AllPad(v[1..]); }
  }

  lemma {:induction false} EndsInLine(w: string)
    ensures EndsLine(w) ==> HasLine(w)
  {
    if w != "" && w[0] != '\n' { EndsInLine(w[1..]); }
  }

  lemma KeySaysItsEntry(st: Statement, r: string)
    requires Scanned(st) && st.isKey && Ended(st)
    ensures Meaning(st.raw + r) == EntriesOf(st) + Meaning(r)
  {
    var a := st.raw;
    var h := HeadAt(a).value;
    HeadOver(a, h.separator, r);
    SpanOver(a, h.separator, r);
    var n := Span(a, h.separator);
    assert a[n..] == "" || EndsLine(a[n..]);
    TriviaSaysNothing(a[n..], r);
    KeyText(a, h, n, r);
  }

  lemma KeyText(a: string, h: Head, n: nat, r: string)
    requires a != "" && !Blank(a[0]) && n <= |a|
    requires HeadAt(a + r) == Some(h) && n == Span(a + r, h.separator) && Meaning(a[n..] + r) == Meaning(r)
    ensures Meaning(a + r) == [Entry(h.key, a[..n])] + Meaning(r)
  {
    assert a + r == a[..n] + (a[n..] + r);
    MeaningOfKey(a + r, h, a[..n], a[n..] + r);
  }

  lemma MeaningOfKey(s: string, h: Head, front: string, rest: string)
    requires s != "" && !Blank(s[0]) && HeadAt(s) == Some(h) && s == front + rest && |front| == Span(s, h.separator)
    ensures Meaning(s) == [Entry(h.key, front)] + Meaning(rest)
  {
    assert s[0..] == s && s[..|front|] == front && s[|front|..] == rest;
  }

  lemma StatementSays(st: Statement, r: string)
    requires Scanned(st) && Ended(st)
    ensures Meaning(st.raw + r) == EntriesOf(st) + Meaning(r)
  {
    if st.isKey { KeySaysItsEntry(st, r); } else { NonKeySaysNothing(st, r); }
  }

  /** A newline completes whatever statement was cut off by the end of the file, unless a quote is still open. */
  lemma NewlineEnds(st: Statement)
    requires Scanned(st) && ClosedStatement(st) && st.raw != "" && !EndsLine(st.raw)
    ensures var longer := st.(raw := st.raw + "\n");
            Scanned(longer) && Ended(longer) && EntriesOf(longer) == EntriesOf(st)
  {
    if st.isKey { NewlineEndsKey(st); } else { NewlineEndsNonKey(st); }
  }

  lemma NewlineEndsKey(st: Statement)
    requires Scanned(st) && ClosedStatement(st) && st.isKey && !EndsLine(st.raw)
    ensures var longer := st.(raw := st.raw + "\n");
            Scanned(longer) && Ended(longer) && EntriesOf(longer) == EntriesOf(st)
  {
    var a := st.raw;
    var h := HeadAt(a).value;
    HeadOver(a, h.separator, "\n");
    NewlineKeepsSpan(a, h.separator);
    var n := Span(a, h.separator);
    NewlineKeepsTrivia(a[n..]);
    Slices(a, "\n", n);
  }

  lemma Slices(a: string, r: string, n: nat)
    requires n <= |a|
    ensures (a + r)[..n] == a[..n] && (a + r)[n..] == a[n..] + r
  {
  }

  lemma NewlineEndsNonKey(st: Statement)
    requires Scanned(st) && !st.isKey && st.raw != "" && !EndsLine(st.raw)
    ensures var longer := st.(raw := st.raw + "\n"); Scanned(longer) && Ended(longer)
  {
    var a := st.raw;
    var p := SkipBlank(a);
    SkipBlankOver(a, "\n");
    if p < |a| {
      assert (a + "\n")[p..] == a[p..] + "\n";
      NewlineKeepsLine(a[p..]);
      NoHeadBeforeNewline(a[p..]);
    }
  }

  lemma NewlineKeepsLine(x: string)
    requires LineLength(x) == |x| && !EndsLine(x)
    ensures LineLength(x + "\n") == |x| + 1
  {
    LineOver(x, "\n");
  }

  lemma NewlineKeepsTrivia(x: string)
    requires TriviaLine(x) && !EndsLine(x)
    ensures TriviaLine(x + "\n")
  {
    NewlineKeepsLine(x);
    SkipBlankOver(x, "\n");
  }

  lemma NewlineKeepsSpan(a: string, separator: nat)
    requires separator < |a| && Closed(a, separator)
    ensures Span(a + "\n", separator) == Span(a, separator) && Closed(a + "\n", separator)
  {
    var w := FromValue(a, separator);
    NewlineAfterValue(a, separator);
    if w != "" && Quote(w[0]) {
      CloseOver(w, 1, "\n");
    } else {
      LineOver(w, "\n");
      assert w == "" ==> w + "\n" == "\n";
    }
  }

  lemma NewlineAfterValue(a: string, separator: nat)
    requires separator < |a|
    ensures FromValue(a + "\n", separator) == FromValue(a, separator) + "\n"
  {
    var v := a[separator + 1..];
    assert (a + "\n")[separator + 1..] == v + "\n";
    SkipPadOver(v, "\n");
    assert !Pad("\n"[0]);
    assert (v + "\n")[SkipPad(v)..] == v[SkipPad(v)..] + "\n";
  }

  // ---------- what the scanner finds ----------

  lemma LineCut(w: string)
    ensures var c := w[..LineLength(w)];
            LineLength(c) == |c| && BodyLength(c) == BodyLength(w) && (|c| < |w| ==> EndsLine(c))
  {
    var n := LineLength(w);
    LineOver(w, "");
    LineCutLength(w);
    LineOver(w[..n], w[n..]);
    assert w == w[..n] + w[n..];
  }

  lemma {:induction false} LineCutLength(w: string)
    ensures LineLength(w[..LineLength(w)]) == LineLength(w)
    ensures LineLength(w) < |w| ==> w[LineLength(w) - 1] == '\n'
  {
    if w != "" && w[0] != '\n' {
      LineCutLength(w[1..]);
      assert w[..LineLength(w)][1..] == w[1..][..LineLength(w[1..])];
    }
  }

  lemma {:induction false} CloseCut(w: string, i: nat, m: nat)
    requires w != "" && 1 <= i && CloseFrom(w, i).Some? && CloseFrom(w, i).value < m <= |w|
    ensures CloseFrom(w[..m], i) == CloseFrom(w, i)
    decreases |w| - i
  {
    if CloseFrom(w, i).value > i { CloseCut(w, i + 1, m); }
  }

  lemma TriviaCut(rest: string)
    requires RestIsTrivia(rest)
    ensures TriviaLine(rest[..LineLength(rest)])
  {
    LineCut(rest);
  }

  /** The part of w that its statement takes up. */
  lemma ValueCut(w: string)
    ensures var c := w[..ValueLength(w)];
            && ValueSpan(c) == ValueSpan(w)
            && TriviaLine(c[ValueSpan(c)..])
            && (|c| < |w| ==> ValueEnds(c))
  {
    var m := ValueLength(w);
    if w != "" && Quote(w[0]) {
      if CloseFrom(w, 1).Some? {
        QuotedCut(w, CloseFrom(w, 1).value);
      } else {
        assert w[..m] == w;
      }
    } else {
      LineCut(w);
      LineOver(w[..m], "");
      assert HasLine(w[..m]) ==> w[..m][BodyLength(w)..] == "\n";
    }
  }

  predicate ValueEnds(c: string) {
    if c != "" && Quote(c[0]) then CloseFrom(c, 1).Some? && (EndsLine(c) || ValueSpan(c) == |c|) else EndsLine(c)
  }

  lemma QuotedCut(w: string, close: nat)
    requires w != "" && Quote(w[0]) && CloseFrom(w, 1) == Some(close)
    ensures var c := w[..ValueLength(w)];
            && CloseFrom(c, 1) == Some(close)
            && TriviaLine(c[close + 1..])
            && (|c| < |w| ==> EndsLine(c) || close + 1 == |c|)
  {
    var m := ValueLength(w);
    var rest := w[close + 1..];
    CloseCut(w, 1, m);
    if RestIsTrivia(rest) {
      TriviaCut(rest);
      LineCut(rest);
      SliceEnds(w, close + 1, m);
    }
  }

  lemma SliceEnds(w: string, i: nat, m: nat)
    requires i <= m <= |w|
    ensures w[..m][i..] == w[i..][..m - i] && (EndsLine(w[i..][..m - i]) ==> EndsLine(w[..m]))
  {
  }

  lemma ValueStartsInCut(t: string, separator: nat)
    requires separator < |t|
    ensures var w := FromValue(t, separator);
            FromValue(t[..KeyLength(t, separator)], separator) == w[..ValueLength(w)]
  {
    var n := KeyLength(t, separator);
    var v, w := t[separator + 1..], FromValue(t, separator);
    if n < |t| {
      var k := n - separator - 1;
      PadCut(v, k);
      assert t[..n][separator + 1..] == v[..k];
      assert v[..k][SkipPad(v)..] == v[SkipPad(v)..][..k - SkipPad(v)];
    } else {
      assert t[..n] == t && w[..ValueLength(w)] == w;
    }
  }

  lemma PadCut(v: string, k: nat)
    requires SkipPad(v) < k <= |v|
    ensures SkipPad(v[..k]) == SkipPad(v)
  {
    assert v == v[..k] + v[k..];
    SkipPadOver(v[..k], v[k..]);
  }

  lemma KeyScans(t: string, h: Head, n: nat, c: string)
    requires t != "" && !Blank(t[0]) && HeadAt(t) == Some(h) && n == KeyLength(t, h.separator) && c == t[..n]
    ensures var st := Statement(c, true, h.key); Scanned(st) && (n < |t| ==> Ended(st))
  {
    HeadCut(t, h.separator, n);
    KeyCut(t, h.separator, n, c);
    KeyStatement(c, h, c[..Span(c, h.separator)]);
  }

  lemma HeadCut(t: string, j: nat, n: nat)
    requires j < n <= |t| && Stop(t[j])
    ensures HeadAt(t[..n]) == HeadAt(t)
  {
    assert t == t[..n] + t[n..] && t[..n][j] == t[j];
    HeadOver(t[..n], j, t[n..]);
  }

  lemma KeyStatement(c: string, h: Head, text: string)
    requires c != "" && !Blank(c[0]) && HeadAt(c) == Some(h)
    requires text <= c && Span(c, h.separator) == |text| && TriviaLine(c[|text|..])
    ensures var st := Statement(c, true, h.key); Scanned(st) && EntriesOf(st) == [Entry(h.key, text)]
    ensures var st := Statement(c, true, h.key);
            Ended(st) <==> Closed(c, h.separator) && (EndsLine(c) || QuotedToTheEnd(c, h.separator))
  {
    assert c[..|text|] == text;
  }

  lemma KeyCut(t: string, separator: nat, n: nat, a: string)
    requires separator < |t| && n == KeyLength(t, separator) && a == t[..n]
    ensures Span(a, separator) == Span(t, separator) && TriviaLine(a[Span(a, separator)..])
    ensures n < |t| ==> Closed(a, separator) && (EndsLine(a) || QuotedToTheEnd(a, separator))
  {
    var w := FromValue(t, separator);
    ValueStartsInCut(t, separator);
    ValueCut(w);
    CutStatement(a, separator, w[..ValueLength(w)], ValueSpan(w));
  }

  lemma CutStatement(a: string, separator: nat, c: string, span: nat)
    requires separator < |a| && FromValue(a, separator) == c && ValueSpan(c) == span && TriviaLine(c[span..])
    ensures Span(a, separator) == |a| - |c| + span && TriviaLine(a[|a| - |c| + span..])
    ensures ValueEnds(c) ==> Closed(a, separator) && (EndsLine(a) || QuotedToTheEnd(a, separator))
  {
    SuffixFrom(a, c, span);
  }

  lemma SuffixFrom(a: string, c: string, i: nat)
    requires |c| <= |a| && a[|a| - |c|..] == c && i <= |c|
    ensures a[|a| - |c| + i..] == c[i..] && (EndsLine(c) ==> EndsLine(a))
  {
  }

  lemma NonKeyScans(s: string, p: nat, t: string, n: nat)
    requires p == SkipBlank(s) && t == s[p..] && HeadAt(t).None? && n == p + LineLength(t)
    requires s != ""
    ensures var st := Statement(s[..n], false, ""); Scanned(st) && (n < |s| ==> Ended(st))
  {
    LineWithoutHead(t);
    BlankCut(s, n);
    SliceEnds(s, p, n);
    NonKeyStatement(s[..n], p, t[..n - p]);
  }

  lemma BlankCut(s: string, n: nat)
    requires SkipBlank(s) <= n <= |s| && (n == SkipBlank(s) ==> n == |s|)
    ensures SkipBlank(s[..n]) == SkipBlank(s)
  {
    assert s == s[..n] + s[n..];
    SkipBlankOver(s[..n], s[n..]);
  }

  lemma LineWithoutHead(t: string)
    requires HeadAt(t).None?
    ensures var line := t[..LineLength(t)];
            HeadAt(line).None? && LineLength(line) == |line| && (|line| < |t| ==> EndsLine(line))
  {
    LineCut(t);
    var n := LineLength(t);
    if n < |t| {
      HeadCut(t, n - 1, n);
    } else {
      assert t[..n] == t;
    }
  }

  lemma NonKeyStatement(c: string, p: nat, line: string)
    requires c != "" && p == SkipBlank(c) && c[p..] == line && HeadAt(line).None? && LineLength(line) == |line|
    ensures var st := Statement(c, false, ""); Scanned(st) && (EndsLine(line) ==> Ended(st))
  {
  }

  /** Every statement but the last is over by the time the next one starts. */
  predicate WellSplit(stmts: seq<Statement>) {
    && (forall i :: 0 <= i < |stmts| ==> Scanned(stmts[i]))
    && (forall i :: 0 <= i < |stmts| - 1 ==> Ended(stmts[i]))
  }

  predicate WellCut(r: seq<Statement>, more: bool) {
    |r| > 0 && WellSplit(r) && (more ==> Ended(r[|r| - 1]))
  }

  lemma OneStatement(st: Statement, more: bool)
    requires Scanned(st) && (more ==> Ended(st))
    ensures WellCut([st], more)
  {
  }

  lemma TwoStatements(blank: Statement, st: Statement, more: bool)
    requires Scanned(blank) && Ended(blank) && Scanned(st) && (more ==> Ended(st))
    ensures WellCut([blank, st], more)
  {
  }

  lemma RoundScans(s: string)
    requires s != ""
    ensures WellCut(Round(s), RoundLength(s) < |s|)
  {
    var p := SkipBlank(s);
    var t := s[p..];
    BlankFront(s);
    if HeadAt(t).None? { NonKeyRoundScans(s, p, t); } else { KeyRoundScans(s, p, t, HeadAt(t).value); }
  }

  lemma NonKeyRoundScans(s: string, p: nat, t: string)
    requires s != "" && p == SkipBlank(s) && t == s[p..] && HeadAt(t).None?
    ensures WellCut(Round(s), RoundLength(s) < |s|)
  {
    var n := p + LineLength(t);
    RoundIs(s, p, t, n);
    NonKeyScans(s, p, t, n);
    OneStatement(Statement(s[..n], false, ""), n < |s|);
  }

  lemma KeyRoundScans(s: string, p: nat, t: string, h: Head)
    requires p == SkipBlank(s) < |s| && t == s[p..] && HeadAt(t) == Some(h)
    requires !Blank(t[0]) && SkipBlank(s[..p]) == p
    ensures WellCut(Round(s), RoundLength(s) < |s|)
  {
    var n := KeyLength(t, h.separator);
    RoundIs(s, p, t, p + n);
    KeyStatementsScan(s, p, t, h, n);
  }

  lemma KeyStatementsScan(s: string, p: nat, t: string, h: Head, n: nat)
    requires p < |s| && t == s[p..] && HeadAt(t) == Some(h) && n == KeyLength(t, h.separator)
    requires !Blank(t[0]) && SkipBlank(s[..p]) == p
    ensures WellCut(Statements(s, p, p + n, Some(h)), p + n < |s|)
  {
    SliceOfSuffix(s, p, n);
    KeyPiecesScan(s, p, t, h, n, t[..n]);
  }

  lemma KeyPiecesScan(s: string, p: nat, t: string, h: Head, n: nat, c: string)
    requires p < |s| && t == s[p..] && HeadAt(t) == Some(h) && n == KeyLength(t, h.separator)
    requires !Blank(t[0]) && SkipBlank(s[..p]) == p && c == s[p..p + n] == t[..n]
    ensures WellCut(Statements(s, p, p + n, Some(h)), p + n < |s|)
  {
    KeyScans(t, h, n, c);
    KeyPieces(s, p, p + n, h, Statement(c, true, h.key));
  }

  lemma SliceOfSuffix(s: string, p: nat, n: nat)
    requires p + n <= |s|
    ensures s[p..p + n] == s[p..][..n]
  {
  }

  lemma KeyPieces(s: string, p: nat, n: nat, h: Head, st: Statement)
    requires p <= n <= |s| && SkipBlank(s[..p]) == p
    requires st == Statement(s[p..n], true, h.key) && Scanned(st) && (n < |s| ==> Ended(st))
    ensures WellCut(Statements(s, p, n, Some(h)), n < |s|)
  {
    var blank := Statement(s[..p], false, "");
    if p > 0 { BlankIsStatement(s[..p]); TwoStatements(blank, st, n < |s|); } else { OneStatement(st, n < |s|); }
    assert Statements(s, p, n, Some(h)) == if p > 0 then [blank, st] else [st];
  }

  lemma BlankIsStatement(a: string)
    requires a != "" && SkipBlank(a) == |a|
    ensures Scanned(Statement(a, false, "")) && Ended(Statement(a, false, ""))
  {
  }

  lemma {:induction false} ParseScans(s: string)
    ensures WellSplit(Parse(s))
    decreases |s|
  {
    if s != "" {
      var n := RoundLength(s);
      RoundScans(s);
      ParseScans(s[n..]);
      ParseUnfolds(s, n, s[n..]);
      JoinSplits(Round(s), Parse(s[n..]), n < |s|);
    }
  }

  lemma JoinSplits(a: seq<Statement>, b: seq<Statement>, more: bool)
    requires WellCut(a, more) && WellSplit(b) && (b != [] ==> more)
    ensures WellSplit(a + b)
  {
    var c := a + b;
    forall i | 0 <= i < |c| ensures Scanned(c[i]) && (i < |c| - 1 ==> Ended(c[i])) {
      if i < |a| {
        assert c[i] == a[i];
      } else {
        assert c[i] == b[i - |a|];
      }
    }
  }

  // ---------- lists of statements ----------

  function Entries(stmts: seq<Statement>): seq<Entry>
    requires forall st <- stmts :: Scanned(st)
  {
    if stmts == [] then [] else EntriesOf(stmts[0]) + Entries(stmts[1..])
  }

  lemma LastSays(st: Statement)
    requires Scanned(st)
    ensures Meaning(st.raw) == EntriesOf(st)
  {
    var a := st.raw;
    if st.isKey {
      var h := HeadAt(a).value;
      var n := Span(a, h.separator);
      assert a == a[..n] + a[n..];
      MeaningOfKey(a, h, a[..n], a[n..]);
      LineSuffix(a[n..], SkipBlank(a[n..]));
      TextWithoutKey(a[n..]);
    } else {
      TextWithoutKey(a);
    }
  }

  lemma TextWithoutKey(x: string)
    requires var t := x[SkipBlank(x)..]; t == "" || (HeadAt(t).None? && LineLength(t) == |t|)
    ensures Meaning(x) == []
  {
  }

  lemma {:induction false} ListSays(stmts: seq<Statement>)
    requires WellSplit(stmts)
    ensures Meaning(Concat(stmts)) == Entries(stmts)
  {
    if stmts != [] {
      var st, rest := stmts[0], stmts[1..];
      TailSplit(stmts);
      ListSays(rest);
      HeadSays(st, rest);
    }
  }

  lemma TailSplit(stmts: seq<Statement>)
    requires WellSplit(stmts) && stmts != []
    ensures WellSplit(stmts[1..]) && (|stmts| > 1 ==> Ended(stmts[0]))
  {
    assert forall i :: 0 <= i < |stmts[1..]| ==> stmts[1..][i] == stmts[i + 1];
  }

  lemma HeadSays(st: Statement, rest: seq<Statement>)
    requires Scanned(st) && (rest != [] ==> Ended(st))
    ensures Meaning(st.raw + Concat(rest)) == EntriesOf(st) + Meaning(Concat(rest))
  {
    if rest == [] {
      LastSays(st);
      assert st.raw + Concat(rest) == st.raw && EntriesOf(st) + [] == EntriesOf(st);
    } else {
      StatementSays(st, Concat(rest));
    }
  }

  /** The statements the scanner finds say what the file says when it is read front to back. */
  lemma ParseMeans(s: string)
    ensures (forall st <- Parse(s) :: Scanned(st)) && Entries(Parse(s)) == Meaning(s)
  {
    ParseScans(s);
    ListSays(Parse(s));
    ParseIsLossless(s);
  }
}
