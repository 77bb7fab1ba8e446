/** Splitting a .env file into statements (internal/instanceconfig/envfile.go).  A Go string is a sequence of bytes, so
    each char here stands for one byte.  What follows a position never depends on what precedes it, so every function
    takes the rest of the file. */
module EnvScanner {
  import opened Text

  datatype Statement = Statement(raw: string, isKey: bool, key: string)

  predicate Pad(c: char) { c == ' ' || c == '\t' }

  predicate Blank(c: char) { c == ' ' || c == '\t' || c == '\r' || c == '\n' }

  /** unicode.IsLetter or unicode.IsNumber of the byte read as a code point, or '_' or '.'. */
  predicate KeyByte(c: char) {
    var n := c as int;
    c == '_' || c == '.' || 'a' <= c <= 'z' || 'A' <= c <= 'Z' || '0' <= c <= '9' ||
    n in {0xAA, 0xB2, 0xB3, 0xB5, 0xB9, 0xBA, 0xBC, 0xBD, 0xBE} || (0xC0 <= n <= 0xFF && n != 0xD7 && n != 0xF7)
  }

  predicate Separator(c: char) { c == '=' || c == ':' }

  // ---------- pieces of a statement ----------

  function SkipBlank(s: string): (n: nat)
    ensures n <= |s|
  {
    if s != "" && Blank(s[0]) then 1 + SkipBlank(s[1..]) else 0
  }

  function SkipPad(s: string): (n: nat)
    ensures n <= |s|
  {
    if s != "" && Pad(s[0]) then 1 + SkipPad(s[1..]) else 0
  }

  /** Length of the first line, with its newline if it has one. */
  function LineLength(s: string): (n: nat)
    ensures n <= |s| && (s != "" ==> n > 0)
  {
    if s == "" then 0 else if s[0] == '\n' then 1 else 1 + LineLength(s[1..])
  }

  /** Index of the separator, if only bytes of a key come before it. */
  function ScanSeparator(s: string): (r: Option<nat>)
    ensures r.Some? ==> r.value < |s| && Separator(s[r.value])
  {
    if s == "" then None
    else if Separator(s[0]) then Some(0)
    else if Pad(s[0]) || s[0] == '\r' || KeyByte(s[0]) then
      match ScanSeparator(s[1..]) { case Some(n) => Some(n + 1) case None => None }
    else None
  }

  /** Length of an `export` prefix with the blanks after it. */
  function ExportLength(s: string): (n: nat)
    ensures n <= |s|
  {
    if "export" <= s && |s| > 6 && Pad(s[6]) then 6 + SkipPad(s[6..]) else 0
  }

  function TrimKey(s: string): string
    decreases |s|
  {
    if s != "" && (Pad(s[0]) || s[0] == '\r') then TrimKey(s[1..])
    else if s != "" && (Pad(s[|s| - 1]) || s[|s| - 1] == '\r') then TrimKey(s[..|s| - 1])
    else s
  }

  datatype Head = Head(key: string, separator: nat)

  function KeyAndSeparator(s: string): (r: Option<Head>)
    ensures r.Some? ==> r.value.separator < |s| && Separator(s[r.value.separator])
  {
    var p := ExportLength(s);
    match ScanSeparator(s[p..])
    case None => None
    case Some(i) => var key := TrimKey(s[p..p + i]); if key == "" then None else Some(Head(key, p + i))
  }

  predicate Quote(c: char) { c == '"' || c == '\'' }

  /** Index, from i on, of the first closing quote: one that no backslash precedes. */
  function CloseFrom(w: string, i: nat): (r: Option<nat>)
    requires 1 <= i && w != ""
    ensures r.Some? ==> i <= r.value < |w|
    decreases |w| - i
  {
    if i >= |w| then None else if w[i] == w[0] && w[i - 1] != '\\' then Some(i) else CloseFrom(w, i + 1)
  }

  /** The rest of the file from the value of a statement that starts at s. */
  function FromValue(s: string, separator: nat): string
    requires separator < |s|
  {
    var v := s[separator + 1..];
    v[SkipPad(v)..]
  }

  /** Nothing but a comment is left on this line. */
  predicate RestIsTrivia(rest: string) {
    var line := rest[..LineLength(rest)];
    var n := SkipBlank(line);
    n == |line| || line[n] == '#'
  }

  /** What a statement takes up of the file from its value on. */
  function ValueLength(w: string): (n: nat)
    ensures n <= |w|
  {
    if w != "" && Quote(w[0]) then
      match CloseFrom(w, 1)
      case None => |w|
      case Some(c) => c + 1 + if RestIsTrivia(w[c + 1..]) then LineLength(w[c + 1..]) else 0
    else LineLength(w)
  }

  /** Length of the key statement that starts at s. */
  function KeyLength(s: string, separator: nat): (n: nat)
    requires separator < |s|
    ensures separator < n <= |s|
  {
    var w := FromValue(s, separator);
    |s| - |w| + ValueLength(w)
  }

  // ---------- the file ----------

  /** The key that starts a statement here, if one does. */
  function HeadAt(s: string): (r: Option<Head>)
    ensures r.Some? ==> r.value.separator < |s|
  {
    if s != "" && s[0] == '#' then None else KeyAndSeparator(s)
  }

  /** How far one round of the scanner gets. */
  function RoundLength(s: string): (n: nat)
    requires s != ""
    ensures 0 < n <= |s|
  {
    var p := SkipBlank(s);
    if p == |s| then |s|
    else
      match HeadAt(s[p..])
      case None => p + LineLength(s[p..])
      case Some(h) => p + KeyLength(s[p..], h.separator)
  }

  /** The statements of one round, given what SkipBlank, RoundLength and HeadAt found. */
  function Statements(s: string, p: nat, n: nat, head: Option<Head>): (r: seq<Statement>)
    requires p <= n <= |s|
  {
    match head
    case None => [Statement(s[..n], false, "")]
    case Some(h) =>
      (if p > 0 then [Statement(s[..p], false, "")] else []) + [Statement(s[p..n], true, h.key)]
  }

  function Round(s: string): (r: seq<Statement>)
    requires s != ""
  {
    var p := SkipBlank(s);
    assert p <= RoundLength(s);
    Statements(s, p, RoundLength(s), HeadAt(s[p..]))
  }

  function Parse(s: string): seq<Statement>
    decreases |s|
  {
    if s == "" then [] else Round(s) + Parse(s[RoundLength(s)..])
  }

  function Concat(stmts: seq<Statement>): string {
    if stmts == [] then "" else stmts[0].raw + Concat(stmts[1..])
  }

  lemma {:induction false} ConcatAppend(a: seq<Statement>, b: seq<Statement>)
    ensures Concat(a + b) == Concat(a) + Concat(b)
  {
    if a == [] {
      assert a + b == b;
    } else {
      assert (a + b)[1..] == a[1..] + b;
      ConcatAppend(a[1..], b);
    }
  }

  /** The scanner loses nothing: for every byte string, the statements' raw texts make up the file again. */
  lemma {:induction false} ParseIsLossless(s: string)
    ensures Concat(Parse(s)) == s
    decreases |s|
  {
    if s != "" {
      var n := RoundLength(s);
      ParseIsLossless(s[n..]);
      RoundCovers(s);
      ParseUnfolds(s, n, s[n..]);
      ConcatSplit(Round(s), Parse(s[n..]), s, n);
    }
  }

  lemma ConcatSplit(a: seq<Statement>, b: seq<Statement>, s: string, n: nat)
    requires n <= |s| && Concat(a) == s[..n] && Concat(b) == s[n..]
    ensures Concat(a + b) == s
  {
    ConcatAppend(a, b);
  }

  lemma RoundCovers(s: string)
    requires s != ""
    ensures Concat(Round(s)) == s[..RoundLength(s)]
  {
    StatementsCover(s, SkipBlank(s), RoundLength(s), HeadAt(s[SkipBlank(s)..]));
  }

  lemma StatementsCover(s: string, p: nat, n: nat, head: Option<Head>)
    requires p <= n <= |s|
    ensures Concat(Statements(s, p, n, head)) == s[..n]
  {
    var r := Statements(s, p, n, head);
    if |r| == 1 {
      assert r[1..] == [];
      assert Concat(r) == r[0].raw + Concat([]);
    } else {
      assert r[1..] == [r[1]] && r[1..][1..] == [];
      assert Concat(r[1..]) == r[1].raw + Concat([]);
      assert s[..p] + s[p..n] == s[..n];
    }
  }

  // ---------- the loops that compute this ----------

  method SkipBlanksAt(content: string, from: nat) returns (pos: nat)
    requires from <= |content|
    ensures pos == from + SkipBlank(content[from..])
  {
    pos := from;
    while pos < |content| && Blank(content[pos])
      invariant from <= pos <= |content|
      invariant from + SkipBlank(content[from..]) == pos + SkipBlank(content[pos..])
    {
      assert content[pos..][0] == content[pos] && content[pos..][1..] == content[pos + 1..];
      pos := pos + 1;
    }
  }

  method SkipPadAt(content: string, from: nat) returns (pos: nat)
    requires from <= |content|
    ensures pos == from + SkipPad(content[from..])
  {
    pos := from;
    while pos < |content| && Pad(content[pos])
      invariant from <= pos <= |content|
      invariant from + SkipPad(content[from..]) == pos + SkipPad(content[pos..])
    {
      assert content[pos..][0] == content[pos] && content[pos..][1..] == content[pos + 1..];
      pos := pos + 1;
    }
  }

  method LineEndAt(content: string, from: nat) returns (end: nat)
    requires from <= |content|
    ensures end == from + LineLength(content[from..])
  {
    end := from;
    while end < |content| && content[end] != '\n'
      invariant from <= end <= |content|
      invariant from + LineLength(content[from..]) == end + LineLength(content[end..])
    {
      assert content[end..][0] == content[end] && content[end..][1..] == content[end + 1..];
      end := end + 1;
    }
    if end < |content| { end := end + 1; }
  }

  /** The loop of parseKeyAndSep, past any `export`. */
  method FindSeparator(t: string) returns (r: Option<nat>)
    ensures r == ScanSeparator(t)
  {
    var i := 0;
    while i < |t|
      invariant 0 <= i <= |t|
      invariant match ScanSeparator(t[i..])
                case None => ScanSeparator(t) == None
                case Some(n) => ScanSeparator(t) == Some(i + n)
    {
      assert t[i..][0] == t[i] && t[i..][1..] == t[i + 1..];
      if Separator(t[i]) { return Some(i); }
      if !(Pad(t[i]) || t[i] == '\r' || KeyByte(t[i])) { return None; }
      i := i + 1;
    }
    return None;
  }

  method SkipExport(s: string) returns (p: nat)
    ensures p == ExportLength(s)
  {
    p := 0;
    if "export" <= s && |s| > 6 && Pad(s[6]) { p := SkipPadAt(s, 6); }
  }

  method ParseKeyAndSep(s: string) returns (r: Option<Head>)
    ensures r == KeyAndSeparator(s)
  {
    var p := SkipExport(s);
    var i := FindSeparator(s[p..]);
    if i.None? { return None; }
    var key := TrimKey(s[p..p + i.value]);
    return if key == "" then None else Some(Head(key, p + i.value));
  }

  method ClosingQuote(w: string) returns (r: Option<nat>)
    requires w != ""
    ensures r == CloseFrom(w, 1)
  {
    var p := 1;
    while p < |w|
      invariant 1 <= p && CloseFrom(w, 1) == CloseFrom(w, p)
    {
      if w[p] == w[0] && w[p - 1] != '\\' { return Some(p); }
      p := p + 1;
    }
    return None;
  }

  method IsTrivia(line: string) returns (b: bool)
    ensures b <==> SkipBlank(line) == |line| || line[SkipBlank(line)] == '#'
  {
    var n := SkipBlanksAt(line, 0);
    assert line[0..] == line;
    return n == |line| || line[n] == '#';
  }

  /** End of a statement whose quoted value starts at valueAt. */
  method QuotedEnd(content: string, valueAt: nat) returns (end: nat)
    requires valueAt < |content| && Quote(content[valueAt])
    ensures end == valueAt + ValueLength(content[valueAt..])
  {
    ghost var w := content[valueAt..];
    var close := ClosingQuote(content[valueAt..]);
    if close.None? { return |content|; }
    var valueEnd := valueAt + close.value + 1;
    ghost var rest := content[valueEnd..];
    assert w[close.value + 1..] == rest;
    var restEnd := LineEndAt(content, valueEnd);
    var trivia := IsTrivia(content[valueEnd..restEnd]);
    assert content[valueEnd..restEnd] == rest[..LineLength(rest)];
    return if trivia then restEnd else valueEnd;
  }

  /** End of the key statement that starts at pos. */
  method KeyEnd(content: string, pos: nat, separator: nat) returns (end: nat)
    requires pos <= |content| && separator < |content[pos..]|
    ensures end == pos + KeyLength(content[pos..], separator)
  {
    var valueAt := SkipPadAt(content, pos + separator + 1);
    SuffixOfSuffix(content, pos, separator + 1);
    SuffixOfSuffix(content, pos + separator + 1, valueAt - (pos + separator + 1));
    assert FromValue(content[pos..], separator) == content[valueAt..];
    if valueAt >= |content| {
      return |content|;
    }
    if Quote(content[valueAt]) {
      end := QuotedEnd(content, valueAt);
    } else {
      end := LineEndAt(content, valueAt);
    }
  }

  lemma SuffixOfSuffix(s: string, i: nat, j: nat)
    requires i + j <= |s|
    ensures s[i..][j..] == s[i + j..]
  {
  }

  method HeadOf(s: string) returns (r: Option<Head>)
    ensures r == HeadAt(s)
  {
    if s != "" && s[0] == '#' { return None; }
    r := ParseKeyAndSep(s);
  }

  /** Where the statement that starts at pos ends. */
  method EndAt(content: string, pos: nat, head: Option<Head>) returns (next: nat)
    requires pos <= |content| && head == HeadAt(content[pos..])
    ensures next == pos + if head.None? then LineLength(content[pos..])
            else KeyLength(content[pos..], head.value.separator)
  {
    if head.Some? {
      next := KeyEnd(content, pos, head.value.separator);
    } else {
      next := LineEndAt(content, pos);
    }
  }

  /** One round of the scanner: the statements at the front of s, and where the next one starts. */
  method NextRound(s: string) returns (found: seq<Statement>, next: nat)
    requires s != ""
    ensures found == Round(s) && next == RoundLength(s)
  {
    assert s[0..] == s;
    var pos := SkipBlanksAt(s, 0);
    var head := HeadOf(s[pos..]);
    next := EndAt(s, pos, head);
    RoundIs(s, pos, s[pos..], next);
    if head.None? { return [Statement(s[..next], false, "")], next; }
    found := [];
    if pos > 0 { found := [Statement(s[..pos], false, "")]; }
    found := found + [Statement(s[pos..next], true, head.value.key)];
  }

  lemma RoundIs(s: string, p: nat, t: string, n: nat)
    requires s != "" && p == SkipBlank(s) && t == s[p..]
    requires n == p + if HeadAt(t).None? then LineLength(t) else KeyLength(t, HeadAt(t).value.separator)
    ensures RoundLength(s) == n && p <= n && Round(s) == Statements(s, p, n, HeadAt(t))
  {
  }

  /** parseEnvStatements; rest is content[idx:]. */
  method ParseStatements(content: string) returns (stmts: seq<Statement>)
    ensures stmts == Parse(content)
    ensures Concat(stmts) == content
  {
    stmts := [];
    var rest := content;
    while rest != ""
      invariant Parse(content) == stmts + Parse(rest)
      decreases |rest|
    {
      var found, next := NextRound(rest);
      ParseUnfolds(rest, next, rest[next..]);
      Assoc(stmts, found, Parse(rest[next..]));
      stmts := stmts + found;
      rest := rest[next..];
    }
    ParseIsLossless(content);
  }

  lemma ParseUnfolds(s: string, n: nat, rest: string)
    requires s != "" && n == RoundLength(s) && rest == s[n..]
    ensures Parse(s) == Round(s) + Parse(rest)
  {
  }
}
