/** Writing one .env entry (FormatEnvEntry, internal/instanceconfig/envfile.go). */
module EnvFormat {
  import opened Text
  import opened EnvScanner
  import opened EnvMeaning

  predicate StartsWith(v: string, c: char) { v != "" && v[0] == c }

  predicate EndsWith(v: string, c: char) { v != "" && v[|v| - 1] == c }

  predicate StartsQuote(v: string) { StartsWith(v, '"') || StartsWith(v, '\'') }

  predicate HasInlineComment(v: string) { exists i :: 0 <= i < |v| - 1 && Pad(v[i]) && v[i + 1] == '#' }

  predicate CanBeUnquoted(v: string) {
    && v != "" && '\r' !in v && '\n' !in v && '$' !in v && !StartsQuote(v) && !HasInlineComment(v)
    && !Pad(v[0]) && !Pad(v[|v| - 1])
  }

  predicate CanBeSingleQuoted(v: string) {
    v != "" && '\r' !in v && '\n' !in v && '\'' !in v && !EndsWith(v, '\\')
  }

  function Escape(c: char): string {
    if c == '\\' then "\\\\"
    else if c == '\n' then "\\n"
    else if c == '\r' then "\\r"
    else if c == '"' then "\\\""
    else if c == '$' then "\\$"
    else [c]
  }

  function Escaped(v: string): string {
    if v == "" then "" else Escaped(v[..|v| - 1]) + Escape(v[|v| - 1])
  }

  predicate DoubleQuoted(v: string) { !CanBeUnquoted(v) && !(CanBeSingleQuoted(v) && StartsQuote(v)) }

  function Quoted(v: string): string {
    if CanBeUnquoted(v) then v
    else if CanBeSingleQuoted(v) && StartsQuote(v) then "'" + v + "'"
    else "\"" + Escaped(v) + "\""
  }

  /** A key that a scanner reading `key=` finds again. */
  predicate Writable(key: string) {
    && key != ""
    && (forall c <- key :: Pad(c) || c == '\r' || KeyByte(c))
    && KeyByte(key[0]) && KeyByte(key[|key| - 1])
    && !("export" <= key && |key| > 6 && Pad(key[6]))
  }

  function Formatted(key: string, v: string): string { key + "=" + Quoted(v) }

  /** The loop of FormatEnvEntry. */
  method EscapeAll(value: string) returns (b: string)
    ensures b == Escaped(value)
  {
    b := "";
    for i := 0 to |value|
      invariant b == Escaped(value[..i])
    {
      assert value[..i + 1][..i] == value[..i];
      b := b + Escape(value[i]);
    }
    assert value[..|value|] == value;
  }

  /** FormatEnvEntry; `accepted` is the verdict of decoding the line with godotenv. */
  method FormatEnvEntry(key: string, value: string, accepted: string -> bool) returns (r: Option<string>)
    ensures r == if '\0' in value || !accepted(Formatted(key, value)) then None else Some(Formatted(key, value))
  {
    if '\0' in value { return None; }
    var formatted;
    if CanBeUnquoted(value) {
      formatted := key + "=" + value;
    } else if CanBeSingleQuoted(value) && StartsQuote(value) {
      formatted := key + "=" + ("'" + value + "'");
    } else {
      var b := EscapeAll(value);
      formatted := key + "=" + ("\"" + b + "\"");
    }
    return if accepted(formatted) then Some(formatted) else None;
  }

  // ---------- what the scanner makes of it ----------

  lemma {:induction false} ScanKey(key: string, x: string)
    requires forall c <- key :: Pad(c) || c == '\r' || KeyByte(c)
    ensures ScanSeparator(key + "=" + x) == Some(|key|)
  {
    var s := key + "=" + x;
    if key != "" {
      assert s[1..] == key[1..] + "=" + x && s[0] == key[0] && key[0] in key;
      ScanKey(key[1..], x);
    }
  }

  lemma KeyIsFound(key: string, x: string)
    requires Writable(key)
    ensures HeadAt(key + "=" + x) == Some(Head(key, |key|))
  {
    var s := key + "=" + x;
    ScanKey(key, x);
    NoExport(key, x);
    assert s[0..] == s && s[0..|key|] == key;
  }

  lemma NoExport(key: string, x: string)
    requires Writable(key)
    ensures ExportLength(key + "=" + x) == 0
  {
    var s, e := key + "=" + x, "export";
    assert s[|key|] == '=' && (forall i :: 0 <= i < |key| ==> s[i] == key[i]) && forall i :: 0 <= i < 6 ==> e[i] != '=';
    assert "export" <= s ==> forall i :: 0 <= i < 6 ==> s[i] == e[i];
    assert |key| >= 6 && "export" <= s ==> key[..6] == e;
  }

  lemma {:induction false} CloseIs(w: string, i: nat, close: nat)
    requires 1 <= i <= close < |w| && w[close] == w[0] && w[close - 1] != '\\'
    requires forall p :: i <= p < close ==> w[p] != w[0] || w[p - 1] == '\\'
    ensures CloseFrom(w, i) == Some(close)
    decreases close - i
  {
    if i < close { CloseIs(w, i + 1, close); }
  }

  lemma {:induction false} CloseIsNone(w: string, i: nat)
    requires 1 <= i && w != ""
    requires forall p :: i <= p < |w| ==> w[p] != w[0] || w[p - 1] == '\\'
    ensures CloseFrom(w, i) == None
    decreases |w| - i
  {
    if i < |w| { CloseIsNone(w, i + 1); }
  }

  /** Every double quote has a backslash right before it. */
  predicate QuotesEscaped(e: string) { forall p :: 0 <= p < |e| && e[p] == '"' ==> p > 0 && e[p - 1] == '\\' }

  lemma {:induction false} EscapedShape(v: string)
    ensures QuotesEscaped(Escaped(v)) && (EndsWith(Escaped(v), '\\') <==> EndsWith(v, '\\'))
  {
    if v != "" {
      EscapedShape(v[..|v| - 1]);
      EscapeOne(Escaped(v[..|v| - 1]), v[|v| - 1]);
    }
  }

  lemma EscapeOne(e: string, c: char)
    requires QuotesEscaped(e)
    ensures QuotesEscaped(e + Escape(c)) && (EndsWith(e + Escape(c), '\\') <==> c == '\\')
  {
  }

  /** The closing quote of the written value comes out escaped. */
  predicate Swallows(v: string) { DoubleQuoted(v) && EndsWith(v, '\\') }

  lemma SingleQuotedSpan(v: string)
    requires v != "" && '\'' !in v && !EndsWith(v, '\\')
    ensures CloseFrom("'" + v + "'" + "\n", 1) == Some(|v| + 1)
  {
    var w := "'" + v + "'" + "\n";
    assert forall p :: 1 <= p <= |v| ==> w[p] == v[p - 1] && v[p - 1] in v;
    CloseIs(w, 1, |v| + 1);
  }

  lemma DoubleQuotedSpan(v: string)
    ensures var w := "\"" + Escaped(v) + "\"" + "\n";
            CloseFrom(w, 1) == if EndsWith(v, '\\') then None else Some(|Escaped(v)| + 1)
  {
    var e := Escaped(v);
    var w := "\"" + e + "\"" + "\n";
    EscapedShape(v);
    assert forall p :: 1 <= p <= |e| ==> w[p] == e[p - 1];
    if EndsWith(v, '\\') {
      assert w[|e|] == '\\';
      CloseIsNone(w, 1);
    } else {
      CloseIs(w, 1, |e| + 1);
    }
  }

  lemma QuotedSpan(v: string, w: string)
    requires w == Quoted(v) + "\n"
    ensures !Pad(w[0]) && (Swallows(v) ==> Quote(w[0]) && CloseFrom(w, 1).None?)
    ensures !Swallows(v) ==> ValueSpan(w) == |w| - 1 && (Quote(w[0]) ==> CloseFrom(w, 1).Some?)
  {
    if CanBeUnquoted(v) {
      BodyIsAll(v);
    } else if CanBeSingleQuoted(v) && StartsQuote(v) {
      SingleQuotedSpan(v);
    } else {
      DoubleQuotedSpan(v);
    }
  }

  lemma {:induction false} BodyIsAll(v: string)
    requires '\n' !in v
    ensures BodyLength(v + "\n") == |v|
  {
    if v != "" {
      assert (v + "\n")[1..] == v[1..] + "\n";
      BodyIsAll(v[1..]);
    }
  }

  /** The statement that mutateEnvStatements writes. */
  function NewStatement(key: string, v: string): Statement { Statement(Formatted(key, v) + "\n", true, key) }

  /** A written entry is one statement for that key with exactly that text, unless its closing quote comes out
      escaped. */
  lemma FormattedIsOneEntry(key: string, v: string)
    requires Writable(key)
    ensures !Swallows(v) ==>
              && Scanned(NewStatement(key, v)) && Ended(NewStatement(key, v))
              && EntriesOf(NewStatement(key, v)) == [Entry(key, Formatted(key, v))]
    ensures Swallows(v) ==> !Closed(NewStatement(key, v).raw, |key|)
  {
    var w := Quoted(v) + "\n";
    assert NewStatement(key, v).raw == key + "=" + w;
    QuotedSpan(v, w);
    KeyIsFound(key, w);
    WrittenValue(key, w);
    if !Swallows(v) { WrittenStatement(key, Formatted(key, v), w); }
  }

  lemma WrittenValue(key: string, w: string)
    requires w != "" && !Pad(w[0])
    ensures FromValue(key + "=" + w, |key|) == w
  {
    assert (key + "=" + w)[|key| + 1..] == w && w[0..] == w;
  }

  lemma WrittenStatement(key: string, f: string, w: string)
    requires Writable(key) && w != "" && !Pad(w[0]) && f + "\n" == key + "=" + w
    requires HeadAt(f + "\n") == Some(Head(key, |key|))
    requires ValueSpan(w) == |w| - 1 && (Quote(w[0]) ==> CloseFrom(w, 1).Some?)
    ensures var st := Statement(f + "\n", true, key);
            Scanned(st) && Ended(st) && EntriesOf(st) == [Entry(key, f)]
  {
    var raw := f + "\n";
    WrittenSpan(key, raw, w);
    LastLine(f);
    assert raw[0] == key[0];
    NewlineIsTrivia();
    KeyStatement(raw, Head(key, |key|), f);
  }

  lemma WrittenSpan(key: string, raw: string, w: string)
    requires w != "" && !Pad(w[0]) && raw == key + "=" + w
    requires ValueSpan(w) == |w| - 1 && (Quote(w[0]) ==> CloseFrom(w, 1).Some?)
    ensures Span(raw, |key|) == |raw| - 1 && Closed(raw, |key|)
  {
    WrittenValue(key, w);
  }

  lemma LastLine(f: string)
    ensures (f + "\n")[|f|..] == "\n" && f <= f + "\n" && EndsLine(f + "\n")
  {
  }

  lemma NewlineIsTrivia()
    ensures TriviaLine("\n")
  {
    assert "\n"[1..] == "";
  }
}
