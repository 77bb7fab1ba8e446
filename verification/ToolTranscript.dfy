/** Keeping transcripts well formed: every batch of tool calls is directly followed by an answer to each call
    (completeInterruptedTranscript in internal/llm/inflight.go; the message steps of runLoopWithResult and
    trimMessagesForSession in internal/llm/agent.go). */
module ToolTranscript {
  import opened Text
  import opened Messages

  predicate IsBatch(m: Message) { m.role.Assistant? && m.calls != [] }

  // ---------- well-formed transcripts ----------

  /** All messages from i to j are tool messages. */
  predicate Tools(ms: seq<Message>, i: nat, j: nat)
    requires j <= |ms|
  {
    forall k :: i <= k < j ==> ms[k].role.Tool?
  }

  predicate Answered(ms: seq<Message>, i: nat, c: string) {
    exists j :: i < j < |ms| && ms[j].callId == c && Tools(ms, i + 1, j + 1)
  }

  predicate HasBatch(ms: seq<Message>, j: nat)
    requires j < |ms|
  {
    exists i :: 0 <= i < j && IsBatch(ms[i]) && ms[j].callId in ms[i].calls && Tools(ms, i + 1, j + 1)
  }

  /** Each call has its answer among the tool messages right after its batch, and no tool message is without a call. */
  predicate WellFormed(ms: seq<Message>) { CallsAnswered(ms, None) && ToolsCalled(ms) }

  predicate BatchAnswered(ms: seq<Message>, i: nat)
    requires i < |ms|
  {
    forall c <- ms[i].calls :: Answered(ms, i, c)
  }

  predicate CallsAnswered(ms: seq<Message>, but: Option<nat>) {
    forall i :: 0 <= i < |ms| && IsBatch(ms[i]) && but != Some(i) ==> BatchAnswered(ms, i)
  }

  predicate ToolsCalled(ms: seq<Message>) { forall j :: 0 <= j < |ms| && ms[j].role.Tool? ==> HasBatch(ms, j) }

  // ---------- the same, read front to back ----------

  datatype State = Outside | Inside(calls: seq<string>, answered: set<string>) | Bad

  predicate AllAnswered(st: State) { st.Outside? || (st.Inside? && forall c <- st.calls :: c in st.answered) }

  function Next(st: State, m: Message): State {
    if m.role.Tool? then
      if st.Inside? && m.callId in st.calls then st.(answered := st.answered + {m.callId}) else Bad
    else if !AllAnswered(st) then Bad
    else if IsBatch(m) then Inside(m.calls, {})
    else Outside
  }

  function Fold(st: State, ms: seq<Message>): State
    decreases |ms|
  {
    if ms == [] then st else Fold(Next(st, ms[0]), ms[1..])
  }

  predicate Closed(ms: seq<Message>) { AllAnswered(Fold(Outside, ms)) }

  /** Closed up to a last batch, which may have only some of its answers. */
  predicate OpenAtMost(ms: seq<Message>) { !Fold(Outside, ms).Bad? }

  lemma {:induction false} FoldAppend(st: State, a: seq<Message>, b: seq<Message>)
    ensures Fold(st, a + b) == Fold(Fold(st, a), b)
    decreases |a|
  {
    if a == [] {
      assert a + b == b;
    } else {
      assert (a + b)[1..] == a[1..] + b;
      FoldAppend(Next(st, a[0]), a[1..], b);
    }
  }

  lemma FoldSnoc(st: State, a: seq<Message>, m: Message)
    ensures Fold(st, a + [m]) == Next(Fold(st, a), m)
  {
    FoldAppend(st, a, [m]);
    assert [m][1..] == [];
  }

  lemma {:induction false} BadStaysBad(ms: seq<Message>)
    ensures Fold(Bad, ms).Bad?
  {
    if ms != [] { BadStaysBad(ms[1..]); }
  }

  /** What precedes a message that is not a tool's does not matter, once it is closed. */
  lemma FoldRestarts(st: State, ms: seq<Message>)
    requires AllAnswered(st) && ms != [] && !ms[0].role.Tool?
    ensures Fold(st, ms) == Fold(Outside, ms)
  {
  }

  lemma StartsOutside(ms: seq<Message>)
    requires OpenAtMost(ms) && ms != []
    ensures !ms[0].role.Tool?
  {
    if ms[0].role.Tool? { BadStaysBad(ms[1..]); }
  }

  lemma ClosedAppend(a: seq<Message>, b: seq<Message>)
    requires Closed(a) && Closed(b)
    ensures Closed(a + b)
  {
    FoldAppend(Outside, a, b);
    if b != [] {
      StartsOutside(b);
      FoldRestarts(Fold(Outside, a), b);
    }
  }

  /** A closed transcript may be cut in front of any message that is not a tool's. */
  lemma ClosedCut(ms: seq<Message>, i: nat)
    requires Closed(ms) && i < |ms| && !ms[i].role.Tool?
    ensures Closed(ms[..i]) && Closed(ms[i..])
  {
    assert ms == ms[..i] + ms[i..];
    FoldAppend(Outside, ms[..i], ms[i..]);
    var st := Fold(Outside, ms[..i]);
    assert ms[i..][0] == ms[i];
    if !AllAnswered(st) { BadStaysBad(ms[i..][1..]); }
    FoldRestarts(st, ms[i..]);
  }

  lemma OneIsClosed(m: Message)
    requires !m.role.Tool? && !IsBatch(m)
    ensures Closed([m])
  {
    assert [m][1..] == [];
  }

  // ---------- system messages come and go ----------

  /** A system message may stand anywhere but in front of a tool message. */
  lemma InsertedClosed(ms: seq<Message>, at: nat, m: Message)
    requires Closed(ms) && at <= |ms| && m.role.System? && (at < |ms| ==> !ms[at].role.Tool?)
    ensures Closed(InsertAt(ms, at, m))
  {
    OneIsClosed(m);
    if at < |ms| {
      ClosedCut(ms, at);
    } else {
      assert ms[..at] == ms && ms[at..] == [];
    }
    ClosedAppend(ms[..at], [m]);
    ClosedAppend(ms[..at] + [m], ms[at..]);
  }

  lemma RemovedClosed(a: seq<Message>, m: Message, b: seq<Message>)
    requires m.role.System? && Closed(a + [m] + b)
    ensures Closed(a + b)
  {
    FoldAppend(Outside, a + [m], b);
    FoldSnoc(Outside, a, m);
    FoldAppend(Outside, a, b);
    if !AllAnswered(Fold(Outside, a)) { BadStaysBad(b); }
    if b != [] {
      StartsOutside(b);
      FoldRestarts(Fold(Outside, a), b);
    }
  }

  /** skillMessages takes out its earlier message, known by its text, and puts the new one after a leading system
      message. */
  function WithoutStale(ms: seq<Message>, stale: set<string>): seq<Message> {
    if ms == [] then []
    else if ms[0].role.System? && ms[0].text in stale then WithoutStale(ms[1..], stale)
    else [ms[0]] + WithoutStale(ms[1..], stale)
  }

  function Refreshed(ms: seq<Message>, stale: set<string>, text: string): seq<Message> {
    var rest := WithoutStale(ms, stale);
    InsertAt(rest, if rest != [] && rest[0].role.System? then 1 else 0, Plain(System, text))
  }

  lemma {:induction false} WithoutStaleClosed(a: seq<Message>, b: seq<Message>, stale: set<string>)
    requires Closed(a + b)
    ensures Closed(a + WithoutStale(b, stale)) && NonSystem(WithoutStale(b, stale)) == NonSystem(b)
    decreases |b|
  {
    if b != [] {
      assert a + b == a + [b[0]] + b[1..];
      if b[0].role.System? && b[0].text in stale {
        RemovedClosed(a, b[0], b[1..]);
        WithoutStaleClosed(a, b[1..], stale);
      } else {
        WithoutStaleClosed(a + [b[0]], b[1..], stale);
        Assoc(a, [b[0]], WithoutStale(b[1..], stale));
        assert ([b[0]] + WithoutStale(b[1..], stale))[1..] == WithoutStale(b[1..], stale);
      }
    }
  }

  lemma RefreshedClosed(ms: seq<Message>, stale: set<string>, text: string)
    requires Closed(ms)
    ensures Closed(Refreshed(ms, stale, text)) && NonSystem(Refreshed(ms, stale, text)) == NonSystem(ms)
  {
    assert [] + ms == ms && [] + WithoutStale(ms, stale) == WithoutStale(ms, stale);
    WithoutStaleClosed([], ms, stale);
    var rest := WithoutStale(ms, stale);
    if rest != [] { StartsOutside(rest); }
    if |rest| > 1 && rest[0].role.System? {
      assert Fold(Outside, rest) == Fold(Outside, rest[1..]);
      StartsOutside(rest[1..]);
    }
    var at := if rest != [] && rest[0].role.System? then 1 else 0;
    InsertedClosed(rest, at, Plain(System, text));
    NonSystemInsert(rest, at, Plain(System, text));
  }

  // ---------- the batch at the end ----------

  /** The batch that the tool messages at the end belong to, found from the end. */
  function LastBatch(ms: seq<Message>): (r: Option<nat>)
    ensures r.Some? ==> r.value < |ms| && IsBatch(ms[r.value])
  {
    if ms == [] then None
    else if IsBatch(ms[|ms| - 1]) then Some(|ms| - 1)
    else if ms[|ms| - 1].role.Tool? then LastBatch(ms[..|ms| - 1])
    else None
  }

  function IdsIn(ms: seq<Message>): set<string> { set m <- ms :: m.callId }

  lemma LastBatchSnoc(ms: seq<Message>, m: Message)
    ensures LastBatch(ms + [m]) == if IsBatch(m) then Some(|ms|) else if m.role.Tool? then LastBatch(ms) else None
  {
    assert (ms + [m])[..|ms|] == ms;
  }

  /** The last batch is the one after which there are only tool messages. */
  lemma {:induction false} LastBatchIs(ms: seq<Message>, i: nat)
    requires i < |ms| && IsBatch(ms[i])
    ensures LastBatch(ms) == Some(i) <==> Tools(ms, i + 1, |ms|)
    decreases |ms|
  {
    var n := |ms| - 1;
    if i < n {
      LastBatchIs(ms[..n], i);
      assert Tools(ms, i + 1, |ms|) <==> ms[n].role.Tool? && Tools(ms[..n], i + 1, n);
    }
  }

  /** Well formed, apart from the answers to the last batch. */
  predicate Partly(ms: seq<Message>) { CallsAnswered(ms, LastBatch(ms)) && ToolsCalled(ms) }

  function StateOf(ms: seq<Message>): State {
    match LastBatch(ms)
    case None => Outside
    case Some(i) => Inside(ms[i].calls, IdsIn(ms[i + 1..]))
  }

  lemma ToolsSnoc(ms: seq<Message>, m: Message, i: nat, j: nat)
    requires j <= |ms|
    ensures Tools(ms + [m], i, j) <==> Tools(ms, i, j)
  {
    assert forall k :: 0 <= k < |ms| ==> (ms + [m])[k] == ms[k];
  }

  lemma AnsweredSnoc(ms: seq<Message>, m: Message, i: nat, c: string)
    requires i < |ms| && IsBatch(ms[i])
    ensures Answered(ms + [m], i, c) <==>
            Answered(ms, i, c) || (LastBatch(ms) == Some(i) && m.role.Tool? && m.callId == c)
  {
    if Answered(ms + [m], i, c) { AnsweredBefore(ms, m, i, c); }
    if Answered(ms, i, c) { StillAnswered(ms, m, i, c); }
    if LastBatch(ms) == Some(i) && m.role.Tool? && m.callId == c { AnsweredNow(ms, m, i); }
  }

  lemma StillAnswered(ms: seq<Message>, m: Message, i: nat, c: string)
    requires Answered(ms, i, c)
    ensures Answered(ms + [m], i, c)
  {
    var j :| i < j < |ms| && ms[j].callId == c && Tools(ms, i + 1, j + 1);
    ToolsSnoc(ms, m, i + 1, j + 1);
    assert (ms + [m])[j] == ms[j];
  }

  lemma AnsweredNow(ms: seq<Message>, m: Message, i: nat)
    requires LastBatch(ms) == Some(i) && m.role.Tool?
    ensures Answered(ms + [m], i, m.callId)
  {
    var t := ms + [m];
    LastBatchIs(ms, i);
    ToolsSnoc(ms, m, i + 1, |ms|);
    assert t[|ms|] == m && Tools(t, i + 1, |ms| + 1);
  }

  lemma AnsweredBefore(ms: seq<Message>, m: Message, i: nat, c: string)
    requires i < |ms| && IsBatch(ms[i]) && Answered(ms + [m], i, c)
    ensures Answered(ms, i, c) || (LastBatch(ms) == Some(i) && m.role.Tool? && m.callId == c)
  {
    var t := ms + [m];
    var j :| i < j < |t| && t[j].callId == c && Tools(t, i + 1, j + 1);
    if j < |ms| {
      ToolsSnoc(ms, m, i + 1, j + 1);
      assert t[j] == ms[j];
    } else {
      assert t[j] == m && Tools(t, i + 1, |ms|);
      ToolsSnoc(ms, m, i + 1, |ms|);
      LastBatchIs(ms, i);
    }
  }

  lemma HasBatchSnoc(ms: seq<Message>, m: Message, j: nat)
    requires j < |ms|
    ensures HasBatch(ms + [m], j) <==> HasBatch(ms, j)
  {
    var t := ms + [m];
    if HasBatch(ms, j) {
      var i :| 0 <= i < j && IsBatch(ms[i]) && ms[j].callId in ms[i].calls && Tools(ms, i + 1, j + 1);
      ToolsSnoc(ms, m, i + 1, j + 1);
      assert t[i] == ms[i] && t[j] == ms[j];
    }
    if HasBatch(t, j) {
      var i :| 0 <= i < j && IsBatch(t[i]) && t[j].callId in t[i].calls && Tools(t, i + 1, j + 1);
      ToolsSnoc(ms, m, i + 1, j + 1);
      assert t[i] == ms[i] && t[j] == ms[j];
    }
  }

  /** A tool message at the end needs the last batch to have made its call. */
  lemma HasBatchLast(ms: seq<Message>, m: Message)
    requires m.role.Tool?
    ensures HasBatch(ms + [m], |ms|) <==> LastBatch(ms).Some? && m.callId in ms[LastBatch(ms).value].calls
  {
    var t := ms + [m];
    if HasBatch(t, |ms|) {
      var i :| 0 <= i < |ms| && IsBatch(t[i]) && t[|ms|].callId in t[i].calls && Tools(t, i + 1, |ms| + 1);
      assert Tools(ms, i + 1, |ms|) by { assert forall k :: i + 1 <= k < |ms| ==> t[k] == ms[k]; }
      LastBatchIs(ms, i);
    }
    if LastBatch(ms).Some? && m.callId in ms[LastBatch(ms).value].calls {
      var i := LastBatch(ms).value;
      LastBatchIs(ms, i);
      assert Tools(t, i + 1, |ms| + 1) by { assert forall k :: i + 1 <= k < |ms| ==> t[k] == ms[k]; }
      assert IsBatch(t[i]) && t[|ms|].callId in t[i].calls;
    }
  }

  lemma LastAnswered(ms: seq<Message>, i: nat)
    requires LastBatch(ms) == Some(i)
    ensures forall c :: Answered(ms, i, c) <==> c in IdsIn(ms[i + 1..])
  {
    LastBatchIs(ms, i);
    forall c ensures Answered(ms, i, c) <==> c in IdsIn(ms[i + 1..]) {
      if Answered(ms, i, c) {
        var j :| i < j < |ms| && ms[j].callId == c && Tools(ms, i + 1, j + 1);
        assert ms[i + 1..][j - i - 1] == ms[j];
      }
      if c in IdsIn(ms[i + 1..]) {
        var k :| 0 <= k < |ms[i + 1..]| && ms[i + 1..][k].callId == c;
        assert ms[i + 1 + k].callId == c && Tools(ms, i + 1, i + 1 + k + 1);
      }
    }
  }

  lemma ToolsCalledSnoc(ms: seq<Message>, m: Message)
    ensures ToolsCalled(ms + [m]) <==> ToolsCalled(ms) && (m.role.Tool? ==> HasBatch(ms + [m], |ms|))
  {
    var t := ms + [m];
    forall j | 0 <= j < |ms| ensures t[j] == ms[j] && (HasBatch(t, j) <==> HasBatch(ms, j)) { HasBatchSnoc(ms, m, j); }
    assert t[|ms|] == m;
  }

  lemma BatchAnsweredSnoc(ms: seq<Message>, m: Message, i: nat)
    requires i < |ms| && IsBatch(ms[i]) && (m.role.Tool? ==> LastBatch(ms) != Some(i))
    ensures BatchAnswered(ms + [m], i) <==> BatchAnswered(ms, i)
  {
    assert (ms + [m])[i] == ms[i];
    forall c ensures Answered(ms + [m], i, c) <==> Answered(ms, i, c) { AnsweredSnoc(ms, m, i, c); }
  }

  /** A further message answers no call of an earlier batch, except a tool message after the last one. */
  lemma CallsAnsweredSnoc(ms: seq<Message>, m: Message, but: Option<nat>)
    requires !IsBatch(m) && (m.role.Tool? ==> but == LastBatch(ms)) && (but.Some? ==> but.value < |ms|)
    ensures CallsAnswered(ms + [m], but) <==> CallsAnswered(ms, but)
  {
    forall i | 0 <= i < |ms| && IsBatch(ms[i]) && but != Some(i)
      ensures BatchAnswered(ms + [m], i) <==> BatchAnswered(ms, i)
    {
      BatchAnsweredSnoc(ms, m, i);
    }
    assert forall i :: 0 <= i <= |ms| ==> (ms + [m])[i] == if i < |ms| then ms[i] else m;
  }

  lemma CallsAnsweredBatch(ms: seq<Message>, m: Message)
    requires IsBatch(m)
    ensures CallsAnswered(ms + [m], Some(|ms|)) <==> CallsAnswered(ms, None)
  {
    forall i | 0 <= i < |ms| && IsBatch(ms[i]) ensures BatchAnswered(ms + [m], i) <==> BatchAnswered(ms, i) {
      BatchAnsweredSnoc(ms, m, i);
    }
    assert forall i :: 0 <= i < |ms| ==> (ms + [m])[i] == ms[i];
  }

  lemma PartlyTool(ms: seq<Message>, m: Message)
    requires m.role.Tool?
    ensures Partly(ms + [m]) <==> Partly(ms) && LastBatch(ms).Some? && m.callId in ms[LastBatch(ms).value].calls
  {
    LastBatchSnoc(ms, m);
    HasBatchLast(ms, m);
    ToolsCalledSnoc(ms, m);
    CallsAnsweredSnoc(ms, m, LastBatch(ms));
  }

  lemma PartlyOther(ms: seq<Message>, m: Message)
    requires !m.role.Tool?
    ensures Partly(ms + [m]) <==> WellFormed(ms)
  {
    LastBatchSnoc(ms, m);
    ToolsCalledSnoc(ms, m);
    if IsBatch(m) { CallsAnsweredBatch(ms, m); } else { CallsAnsweredSnoc(ms, m, None); }
  }

  lemma WellFormedIs(ms: seq<Message>)
    ensures WellFormed(ms) <==> Partly(ms) && AllAnswered(StateOf(ms))
  {
    if LastBatch(ms).Some? { LastAnswered(ms, LastBatch(ms).value); }
  }

  lemma StateSnoc(ms: seq<Message>, m: Message)
    requires m.role.Tool? && LastBatch(ms).Some? && m.callId in ms[LastBatch(ms).value].calls
    ensures StateOf(ms + [m]) == Next(StateOf(ms), m)
  {
    var i := LastBatch(ms).value;
    LastBatchSnoc(ms, m);
    assert (ms + [m])[i + 1..] == ms[i + 1..] + [m];
    IdsSnoc(ms[i + 1..], m);
  }

  lemma IdsSnoc(ms: seq<Message>, m: Message)
    ensures IdsIn(ms + [m]) == IdsIn(ms) + {m.callId}
  {
    assert m in ms + [m];
    assert forall x :: x in ms + [m] <==> x in ms || x == m;
  }

  lemma StateOther(ms: seq<Message>, m: Message)
    requires !m.role.Tool? && AllAnswered(StateOf(ms))
    ensures StateOf(ms + [m]) == Next(StateOf(ms), m)
  {
    LastBatchSnoc(ms, m);
    assert (ms + [m])[|ms| + 1..] == [];
  }

  /** Reading front to back finds exactly the transcripts that are well formed but for their last batch. */
  lemma {:induction false} FoldIsPartly(ms: seq<Message>)
    ensures OpenAtMost(ms) <==> Partly(ms)
    ensures OpenAtMost(ms) ==> Fold(Outside, ms) == StateOf(ms)
    decreases |ms|
  {
    if ms != [] {
      var n := |ms| - 1;
      var a, m := ms[..n], ms[n];
      assert ms == a + [m];
      FoldIsPartly(a);
      FoldSnoc(Outside, a, m);
      WellFormedIs(a);
      if m.role.Tool? {
        PartlyTool(a, m);
        if Partly(ms) { StateSnoc(a, m); }
      } else {
        PartlyOther(a, m);
        if Partly(ms) { StateOther(a, m); }
      }
    }
  }

  lemma ClosedIsWellFormed(ms: seq<Message>)
    ensures Closed(ms) <==> WellFormed(ms)
  {
    FoldIsPartly(ms);
    WellFormedIs(ms);
  }

  // ---------- completing an interrupted transcript ----------

  /** The two texts, shortened. */
  const NotStarted := "not started"
  const OutcomeUnknown := "outcome unknown"

  function Filler(id: string, started: set<string>): Message {
    Message(Tool, if id in started then OutcomeUnknown else NotStarted, [], id, 0)
  }

  /** An answer for each call that has none yet. */
  function Fillers(calls: seq<string>, answered: set<string>, started: set<string>): seq<Message> {
    if calls == [] then []
    else if calls[0] in answered then Fillers(calls[1..], answered, started)
    else [Filler(calls[0], started)] + Fillers(calls[1..], answered, started)
  }

  function Completed(ms: seq<Message>, started: set<string>): seq<Message> {
    match LastBatch(ms)
    case None => ms
    case Some(i) => ms + Fillers(ms[i].calls, IdsIn(ms[i + 1..]), started)
  }

  lemma {:induction false} FillersShape(calls: seq<string>, answered: set<string>, started: set<string>)
    ensures forall m <- Fillers(calls, answered, started) ::
              m.role.Tool? && m.callId in calls && m.callId !in answered && m == Filler(m.callId, started)
    ensures forall c <- calls :: c in answered || c in IdsIn(Fillers(calls, answered, started))
  {
    if calls != [] { FillersShape(calls[1..], answered, started); }
  }

  lemma {:induction false} NoFillers(calls: seq<string>, answered: set<string>, started: set<string>)
    requires forall c <- calls :: c in answered
    ensures Fillers(calls, answered, started) == []
  {
    if calls != [] { NoFillers(calls[1..], answered, started); }
  }

  lemma {:induction false} FoldTools(st: State, tools: seq<Message>)
    requires st.Inside? && forall m <- tools :: m.role.Tool? && m.callId in st.calls
    ensures Fold(st, tools) == st.(answered := st.answered + IdsIn(tools))
    decreases |tools|
  {
    if tools != [] {
      FoldTools(Next(st, tools[0]), tools[1..]);
      assert tools == [tools[0]] + tools[1..];
      assert IdsIn(tools) == {tools[0].callId} + IdsIn(tools[1..]);
    }
  }

  /** Completing only appends, and the result is closed. */
  lemma CompletedIsClosed(ms: seq<Message>, started: set<string>)
    requires OpenAtMost(ms)
    ensures Closed(Completed(ms, started)) && ms <= Completed(ms, started)
  {
    FoldIsPartly(ms);
    if LastBatch(ms).Some? {
      var i := LastBatch(ms).value;
      var st := StateOf(ms);
      var fill := Fillers(st.calls, st.answered, started);
      FillersShape(st.calls, st.answered, started);
      FoldTools(st, fill);
      FoldAppend(Outside, ms, fill);
    }
  }

  /** Completing a second time adds nothing, whatever is then said to have started. */
  lemma CompletedTwice(ms: seq<Message>, started: set<string>, again: set<string>)
    requires OpenAtMost(ms)
    ensures Completed(Completed(ms, started), again) == Completed(ms, started)
  {
    var out := Completed(ms, started);
    CompletedIsClosed(ms, started);
    FoldIsPartly(out);
    if LastBatch(out).Some? {
      var i := LastBatch(out).value;
      NoFillers(out[i].calls, IdsIn(out[i + 1..]), again);
      assert out + [] == out;
    }
  }

  /** Every added answer goes to a call of the last batch that had none, and says whether that call had started. */
  lemma CompletedLabels(ms: seq<Message>, started: set<string>, k: nat)
    requires |ms| <= k < |Completed(ms, started)|
    ensures LastBatch(ms).Some?
    ensures var m := Completed(ms, started)[k];
            && m.callId in ms[LastBatch(ms).value].calls && m.callId !in IdsIn(ms[LastBatch(ms).value + 1..])
            && m.role.Tool? && m.text == if m.callId in started then OutcomeUnknown else NotStarted
  {
    var i := LastBatch(ms).value;
    LabelsOf(ms, ms[i].calls, IdsIn(ms[i + 1..]), started, k);
  }

  lemma LabelsOf(ms: seq<Message>, calls: seq<string>, answered: set<string>, started: set<string>, k: nat)
    requires |ms| <= k < |ms + Fillers(calls, answered, started)|
    ensures var m := (ms + Fillers(calls, answered, started))[k];
            m.callId in calls && m.callId !in answered && m == Filler(m.callId, started)
  {
    var fill := Fillers(calls, answered, started);
    FillersShape(calls, answered, started);
    assert (ms + fill)[k] == fill[k - |ms|] && fill[k - |ms|] in fill;
  }

  // ---------- the agent loop ----------

  /** The loop's messages, the calls that have started, and those of the present batch still to be answered. */
  datatype Loop = Loop(messages: seq<Message>, started: set<string>, pending: seq<string>)

  datatype Event =
    | Reply(text: string, calls: seq<string>)
    | Rewrite(text: string)
    | DropReply
    | Forgive(id: string, text: string)
    | Prompt(text: string)
    | Refresh(stale: set<string>, text: string)
    | Start(ids: set<string>)
    | Answer(texts: seq<string>)

  /** The last message is a reply without calls. */
  predicate EndsInReply(ms: seq<Message>) {
    ms != [] && ms[|ms| - 1].role.Assistant? && ms[|ms| - 1].calls == []
  }

  predicate Enabled(l: Loop, e: Event) {
    match e
    case Reply(_, _) => l.pending == []
    case Rewrite(_) => l.pending == [] && EndsInReply(l.messages)
    case DropReply => l.pending == [] && EndsInReply(l.messages)
    case Forgive(_, _) => l.pending == []
    case Prompt(_) => l.pending == []
    case Refresh(_, _) => l.pending == []
    case Start(_) => l.pending != []
    case Answer(texts) => 0 < |texts| <= |l.pending|
  }

  function AnswersTo(calls: seq<string>, texts: seq<string>): (r: seq<Message>)
    requires |texts| <= |calls|
    ensures |r| == |texts| && forall i :: 0 <= i < |r| ==> r[i] == Message(Tool, texts[i], [], calls[i], 0)
  {
    seq(|texts|, i requires 0 <= i < |texts| => Message(Tool, texts[i], [], calls[i], 0))
  }

  /** Answer covers a single call, the pair of a text and its sticker, and a conflict told to the whole batch. */
  function Step(l: Loop, e: Event): Loop
    requires Enabled(l, e)
  {
    var ms := l.messages;
    match e
    case Reply(text, calls) => Loop(ms + [Message(Assistant, text, calls, "", 0)], {}, calls)
    case Rewrite(text) => l.(messages := ms[..|ms| - 1] + [ms[|ms| - 1].(text := text)])
    case DropReply => l.(messages := ms[..|ms| - 1])
    case Forgive(id, text) => l.(messages := ms + [Message(Assistant, "", [id], "", 0)] +
                                 [Message(Tool, text, [], id, 0)])
    case Prompt(text) => l.(messages := ms + [Plain(User, text)])
    case Refresh(stale, text) => l.(messages := Refreshed(ms, stale, text))
    case Start(ids) => l.(started := l.started + ids)
    case Answer(texts) => l.(messages := ms + AnswersTo(l.pending, texts), pending := l.pending[|texts|..])
  }

  predicate Inv(l: Loop) {
    var st := Fold(Outside, l.messages);
    if l.pending == [] then AllAnswered(st)
    else
      && st.Inside?
      && (forall c <- st.calls :: c in st.answered || c in l.pending)
      && (forall c <- l.pending :: c in st.calls)
  }

  lemma ReplyDropped(ms: seq<Message>)
    requires Closed(ms) && EndsInReply(ms)
    ensures Closed(ms[..|ms| - 1])
  {
    ClosedCut(ms, |ms| - 1);
  }

  lemma AnswerKeeps(l: Loop, texts: seq<string>)
    requires Inv(l) && Enabled(l, Answer(texts))
    ensures Inv(Step(l, Answer(texts)))
  {
    var st := Fold(Outside, l.messages);
    var tools := AnswersTo(l.pending, texts);
    forall m <- tools ensures m.role.Tool? && m.callId in st.calls {
      var i :| 0 <= i < |tools| && tools[i] == m;
      assert l.pending[i] in l.pending;
    }
    FoldTools(st, tools);
    FoldAppend(Outside, l.messages, tools);
    forall c <- l.pending ensures c in IdsIn(tools) || c in l.pending[|texts|..] {
      var i :| 0 <= i < |l.pending| && l.pending[i] == c;
      if i < |texts| { assert tools[i] in tools; } else { assert l.pending[|texts|..][i - |texts|] == c; }
    }
  }

  lemma StepKeeps(l: Loop, e: Event)
    requires Inv(l) && Enabled(l, e)
    ensures Inv(Step(l, e))
  {
    var ms := l.messages;
    match e
    case Reply(text, calls) => FoldSnoc(Outside, ms, Message(Assistant, text, calls, "", 0));
    case Rewrite(text) =>
      ReplyDropped(ms);
      FoldSnoc(Outside, ms[..|ms| - 1], ms[|ms| - 1].(text := text));
    case DropReply => ReplyDropped(ms);
    case Forgive(id, text) =>
      FoldSnoc(Outside, ms, Message(Assistant, "", [id], "", 0));
      FoldSnoc(Outside, ms + [Message(Assistant, "", [id], "", 0)], Message(Tool, text, [], id, 0));
    case Prompt(text) => FoldSnoc(Outside, ms, Plain(User, text));
    case Refresh(stale, text) => RefreshedClosed(ms, stale, text);
    case Start(_) =>
    case Answer(texts) => AnswerKeeps(l, texts);
  }

  predicate Possible(l: Loop, run: seq<Event>)
    decreases |run|
  {
    run == [] || (Enabled(l, run[0]) && Possible(Step(l, run[0]), run[1..]))
  }

  function Run(l: Loop, run: seq<Event>): Loop
    requires Possible(l, run)
    decreases |run|
  {
    if run == [] then l else Run(Step(l, run[0]), run[1..])
  }

  /** Wherever the loop is left, also in the middle of a batch, the transcript it saves is closed. */
  lemma {:induction false} SavedTranscriptIsClosed(l: Loop, run: seq<Event>)
    requires Inv(l) && Possible(l, run)
    ensures var t := Run(l, run);
            Inv(t) && WellFormed(Completed(t.messages, t.started)) && t.messages <= Completed(t.messages, t.started)
    decreases |run|
  {
    if run == [] {
      CompletedIsClosed(l.messages, l.started);
      ClosedIsWellFormed(Completed(l.messages, l.started));
    } else {
      StepKeeps(l, run[0]);
      SavedTranscriptIsClosed(Step(l, run[0]), run[1..]);
    }
  }

  // ---------- leaving out system messages, and trimming ----------

  /** Taking out system messages, as saveTranscript does, keeps a transcript closed. */
  lemma {:induction false} NonSystemClosed(st: State, ms: seq<Message>)
    requires AllAnswered(Fold(st, ms))
    ensures AllAnswered(Fold(st, NonSystem(ms)))
    ensures AllAnswered(st) ==> AllAnswered(Fold(Outside, NonSystem(ms))) || (ms != [] && ms[0].role.Tool?)
    decreases |ms|
  {
    if ms != [] {
      if Next(st, ms[0]).Bad? { BadStaysBad(ms[1..]); }
      NonSystemClosed(Next(st, ms[0]), ms[1..]);
      if ms[0].role.System? {
        if ms[1..] != [] && ms[1..][0].role.Tool? { BadStaysBad(ms[1..][1..]); }
        assert AllAnswered(Fold(Outside, NonSystem(ms[1..])));
        AnyClosedStart(st, NonSystem(ms));
      } else {
        assert ([ms[0]] + NonSystem(ms[1..]))[1..] == NonSystem(ms[1..]);
      }
    }
  }

  lemma AnyClosedStart(st: State, ms: seq<Message>)
    requires AllAnswered(st) && Closed(ms)
    ensures AllAnswered(Fold(st, ms))
  {
    if ms != [] {
      StartsOutside(ms);
      FoldRestarts(st, ms);
    }
  }

  /** Where trimming starts: in front of the batch that the first kept tool message belongs to. */
  function TrimStart(ms: seq<Message>, i: nat): (r: nat)
    requires i < |ms|
    ensures r <= i && (i >= 1 ==> r >= 1) && (r > 1 ==> !ms[r].role.Tool?)
  {
    if i > 1 && ms[i].role.Tool? then TrimStart(ms, i - 1) else i
  }

  /** The result of trimMessagesForSession; max is the configured number of messages. */
  function Trimmed(ms: seq<Message>, max: nat): seq<Message>
    requires max > 0
  {
    if |ms| <= max + 1 then ms else [ms[0]] + ms[TrimStart(ms, |ms| - max)..]
  }

  /** Trimming keeps the first message and at least the latest max, without a gap among them. */
  lemma TrimmedKeepsLatest(ms: seq<Message>, max: nat)
    requires max > 0 && ms != []
    ensures Trimmed(ms, max) == ms ||
            exists r :: 1 <= r <= |ms| - max && Trimmed(ms, max) == [ms[0]] + ms[r..]
  {
  }

  /** A transcript that starts with something other than a batch stays closed. */
  lemma TrimmedIsClosed(ms: seq<Message>, max: nat)
    requires max > 0 && Closed(ms) && (ms != [] ==> !IsBatch(ms[0]))
    ensures Closed(Trimmed(ms, max))
  {
    if |ms| > max + 1 {
      var r := TrimStart(ms, |ms| - max);
      if r == 1 {
        assert ms == [ms[0]] + ms[1..];
      } else {
        StartsOutside(ms);
        OneIsClosed(ms[0]);
        ClosedCut(ms, r);
        ClosedAppend([ms[0]], ms[r..]);
      }
    }
  }

  // ---------- the loops that do this ----------

  method IdsOf(tools: seq<Message>) returns (completed: set<string>)
    ensures completed == IdsIn(tools)
  {
    completed := {};
    for i := 0 to |tools|
      invariant completed == IdsIn(tools[..i])
    {
      assert tools[..i + 1] == tools[..i] + [tools[i]];
      IdsSnoc(tools[..i], tools[i]);
      completed := completed + {tools[i].callId};
    }
    assert tools[..|tools|] == tools;
  }

  method FillIn(calls: seq<string>, completed: set<string>, started: set<string>) returns (fill: seq<Message>)
    ensures fill == Fillers(calls, completed, started)
  {
    fill := [];
    for i := 0 to |calls|
      invariant fill + Fillers(calls[i..], completed, started) == Fillers(calls, completed, started)
    {
      assert calls[i..][0] == calls[i] && calls[i..][1..] == calls[i + 1..];
      if calls[i] !in completed {
        Assoc(fill, [Filler(calls[i], started)], Fillers(calls[i + 1..], completed, started));
        fill := fill + [Filler(calls[i], started)];
      }
    }
  }

  /** completeInterruptedTranscript. */
  method CompleteInterruptedTranscript(messages: seq<Message>, started: set<string>) returns (result: seq<Message>)
    ensures result == Completed(messages, started)
  {
    var last := FindLastBatch(messages);
    if last.None? { return messages; }
    var completed := IdsOf(messages[last.value + 1..]);
    var fill := FillIn(messages[last.value].calls, completed, started);
    return messages + fill;
  }

  method FindLastBatch(messages: seq<Message>) returns (last: Option<nat>)
    ensures last == LastBatch(messages)
  {
    var i: nat := |messages|;
    assert messages[..i] == messages;
    while i > 0
      invariant i <= |messages| && LastBatch(messages) == LastBatch(messages[..i])
    {
      i := i - 1;
      assert messages[..i + 1][..i] == messages[..i];
      if IsBatch(messages[i]) { return Some(i); }
      if !messages[i].role.Tool? { return None; }
    }
    return None;
  }

  /** trimMessagesForSession. */
  method TrimMessages(messages: seq<Message>, max: nat) returns (trimmed: seq<Message>)
    requires max > 0
    ensures trimmed == Trimmed(messages, max)
  {
    if |messages| <= max + 1 { return messages; }
    var start := |messages| - max;
    while start > 1 && messages[start].role.Tool?
      invariant 1 <= start < |messages| && TrimStart(messages, start) == TrimStart(messages, |messages| - max)
    {
      start := start - 1;
    }
    return [messages[0]] + messages[start..];
  }
}
