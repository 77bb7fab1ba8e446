/** Attempts of one lane from preparing their messages to saving their transcript: PrepareTurnMessages and
    saveTranscript of internal/llm/sequence.go around the agent loop of internal/llm/agent.go.  What one attempt saves
    is what the next one starts from. */
module LaneAttempts {
  import opened Text
  import opened Messages
  import Turns = TurnTranscript
  import Tools = ToolTranscript

  datatype Insertion = Insertion(at: nat, text: string)

  /** A running attempt: its turn, what it was prepared with (apart from system messages), and its loop. */
  datatype Attempt = Attempt(
    turn: Turns.Turn, visible: seq<Message>, inherited: seq<Message>, input: Message, loop: Tools.Loop)

  datatype State = State(lane: Turns.Lane, attempt: Option<Attempt>)

  datatype Event =
    | Prepare(session: Turns.Session, durable: string, prompt: string, systems: seq<Insertion>)
    | Loop(e: Tools.Event)
    | Save
    | Leave
    | Clear

  function VisibleTo(s: Turns.Session, l: Turns.Lane): seq<Message> {
    var n := Turns.Numbered(s);
    Turns.Visible(n.history, n.ids, l.messageIDs)
  }

  /** The agent puts its system messages in, none of them in front of a tool message. */
  predicate Insertable(ms: seq<Message>, ins: seq<Insertion>)
    decreases |ins|
  {
    ins == [] ||
    (ins[0].at <= |ms| && (ins[0].at < |ms| ==> !ms[ins[0].at].role.Tool?) &&
     Insertable(InsertAt(ms, ins[0].at, Plain(System, ins[0].text)), ins[1..]))
  }

  function Inserted(ms: seq<Message>, ins: seq<Insertion>): seq<Message>
    requires Insertable(ms, ins)
    decreases |ins|
  {
    if ins == [] then ms else Inserted(InsertAt(ms, ins[0].at, Plain(System, ins[0].text)), ins[1..])
  }

  predicate Enabled(y: State, e: Event) {
    match e
    case Prepare(s, _, prompt, systems) =>
      y.attempt.None? && Tools.Closed(VisibleTo(s, y.lane)) && Insertable(Turns.Request(s, y.lane, prompt), systems)
    case Loop(e) => y.attempt.Some? && Tools.Enabled(y.attempt.value.loop, e)
    case Save => y.attempt.Some?
    case Leave => true
    case Clear => true
  }

  function Prepared(y: State, s: Turns.Session, durable: string, prompt: string, systems: seq<Insertion>): State
    requires Insertable(Turns.Request(s, y.lane, prompt), systems)
  {
    var (_, lane, turn) := Turns.Prepared(s, y.lane, durable);
    State(lane, Some(Attempt(turn, NonSystem(VisibleTo(s, y.lane)), Turns.Inherited(y.lane), Input(prompt, turn.id),
                             Tools.Loop(Inserted(Turns.Request(s, y.lane, prompt), systems), {}, []))))
  }

  /** The transcript that the deferred call of runLoopWithResult saves. */
  function Final(a: Attempt): seq<Message> { Tools.Completed(a.loop.messages, a.loop.started) }

  function Step(y: State, e: Event): State
    requires Enabled(y, e)
  {
    match e
    case Prepare(s, durable, prompt, systems) => Prepared(y, s, durable, prompt, systems)
    case Loop(e) => y.(attempt := Some(y.attempt.value.(loop := Tools.Step(y.attempt.value.loop, e))))
    case Save => y.(lane := Turns.Saved(y.lane, y.attempt.value.turn, Final(y.attempt.value)))
    case Leave => y.(attempt := None)
    case Clear => State(Turns.Lane([], {}, y.lane.proactive), None)
  }

  // ---------- what an attempt keeps ----------

  function Base(a: Attempt): seq<Message> { a.visible + a.inherited + [a.input] }

  predicate AttemptOk(a: Attempt) {
    && a.turn.start == |a.visible| && a.turn.inputIndex == |a.visible| + |a.inherited|
    && a.input == Input(a.input.text, a.turn.id)
    && Tools.Closed(a.inherited)
    && Tools.Inv(a.loop) && Base(a) <= NonSystem(a.loop.messages)
  }

  predicate Inv(y: State) {
    && Tools.Closed(y.lane.transcript) && Turns.LaneOk(y.lane)
    && (y.attempt.Some? ==> AttemptOk(y.attempt.value))
  }

  lemma {:induction false} InsertedKeeps(ms: seq<Message>, ins: seq<Insertion>)
    requires Tools.Closed(ms) && Insertable(ms, ins)
    ensures Tools.Closed(Inserted(ms, ins)) && NonSystem(Inserted(ms, ins)) == NonSystem(ms)
    decreases |ins|
  {
    if ins != [] {
      var m := Plain(System, ins[0].text);
      Tools.InsertedClosed(ms, ins[0].at, m);
      NonSystemInsert(ms, ins[0].at, m);
      InsertedKeeps(InsertAt(ms, ins[0].at, m), ins[1..]);
    }
  }

  lemma RequestClosed(visible: seq<Message>, inherited: seq<Message>, input: Message)
    requires Tools.Closed(visible) && Tools.Closed(inherited) && NonSystem(inherited) == inherited
    requires input.role.User?
    ensures Tools.Closed(visible + inherited + [input])
    ensures NonSystem(visible + inherited + [input]) == NonSystem(visible) + inherited + [input]
  {
    Tools.ClosedAppend(visible, inherited);
    Tools.OneIsClosed(input);
    Tools.ClosedAppend(visible + inherited, [input]);
    NonSystemAppend(visible + inherited, [input]);
    NonSystemAppend(visible, inherited);
    NonSystemOne(input);
  }

  lemma InheritedOk(l: Turns.Lane)
    requires Tools.Closed(l.transcript) && Turns.LaneOk(l)
    ensures Tools.Closed(Turns.Inherited(l)) && NonSystem(Turns.Inherited(l)) == Turns.Inherited(l)
  {
    assert NonSystem([]) == [];
  }

  lemma PrepareKeeps(y: State, s: Turns.Session, durable: string, prompt: string, systems: seq<Insertion>)
    requires Inv(y) && Enabled(y, Prepare(s, durable, prompt, systems))
    ensures Inv(Prepared(y, s, durable, prompt, systems))
  {
    var id := Turns.Numbered(s).next + 1;
    var visible, inherited := VisibleTo(s, y.lane), Turns.Inherited(y.lane);
    InheritedOk(y.lane);
    RequestClosed(visible, inherited, Input(prompt, id));
    InsertedKeeps(Turns.Request(s, y.lane, prompt), systems);
    RequestClosed([], inherited, Input(durable, id));
    assert [] + inherited == inherited && NonSystem([]) == [];
  }

  // ---------- the loop only adds to what it was given ----------

  lemma AddsTo(base: seq<Message>, ms: seq<Message>, more: seq<Message>)
    requires base <= NonSystem(ms)
    ensures base <= NonSystem(ms + more)
  {
    NonSystemAppend(ms, more);
  }

  lemma LoopKeepsBase(l: Tools.Loop, e: Tools.Event, base: seq<Message>)
    requires Tools.Inv(l) && Tools.Enabled(l, e) && base <= NonSystem(l.messages)
    requires base != [] && base[|base| - 1].role.User?
    ensures base <= NonSystem(Tools.Step(l, e).messages)
  {
    var ms := l.messages;
    match e
    case Reply(text, calls) => AddsTo(base, ms, [Message(Assistant, text, calls, "", 0)]);
    case Rewrite(text) =>
      WithoutReply(ms, base);
      AddsTo(base, ms[..|ms| - 1], [ms[|ms| - 1].(text := text)]);
    case DropReply => WithoutReply(ms, base);
    case Forgive(id, text) =>
      AddsTo(base, ms, [Message(Assistant, "", [id], "", 0)]);
      AddsTo(base, ms + [Message(Assistant, "", [id], "", 0)], [Message(Tool, text, [], id, 0)]);
    case Prompt(text) => AddsTo(base, ms, [Plain(User, text)]);
    case Refresh(stale, text) => Tools.RefreshedClosed(ms, stale, text);
    case Start(_) =>
    case Answer(texts) => AddsTo(base, ms, Tools.AnswersTo(l.pending, texts));
  }

  /** A reply at the end is not part of what the loop was given, which ends in the input. */
  lemma WithoutReply(ms: seq<Message>, base: seq<Message>)
    requires Tools.EndsInReply(ms) && base <= NonSystem(ms) && base != [] && base[|base| - 1].role.User?
    ensures base <= NonSystem(ms[..|ms| - 1])
  {
    var n := |ms| - 1;
    assert ms == ms[..n] + [ms[n]];
    NonSystemAppend(ms[..n], [ms[n]]);
    NonSystemOne(ms[n]);
    assert NonSystem(ms) == NonSystem(ms[..n]) + [ms[n]];
    assert |base| <= |NonSystem(ms[..n])|;
  }

  lemma LoopKeeps(y: State, e: Tools.Event)
    requires Inv(y) && Enabled(y, Loop(e))
    ensures Inv(Step(y, Loop(e)))
  {
    var a := y.attempt.value;
    Tools.StepKeeps(a.loop, e);
    LoopKeepsBase(a.loop, e, Base(a));
  }

  // ---------- what is saved ----------

  /** Only roles and calls matter for being closed. */
  lemma TextDoesNotMatter(m: Message, text: string, rest: seq<Message>)
    requires Tools.Closed([m] + rest)
    ensures Tools.Closed([m.(text := text)] + rest)
  {
    assert ([m] + rest)[1..] == rest && ([m.(text := text)] + rest)[1..] == rest;
    assert Tools.Next(Tools.Outside, m.(text := text)) == Tools.Next(Tools.Outside, m);
  }

  lemma SavedIsClosed(visible: seq<Message>, inherited: seq<Message>, input: Message, added: seq<Message>, text: string)
    requires Tools.Closed(visible + inherited + [input] + added) && Tools.Closed(inherited) && input.role.User?
    ensures Tools.Closed(inherited + [input.(text := text)] + added)
  {
    var ms := visible + inherited + [input] + added;
    var i := |visible| + |inherited|;
    Tools.ClosedCut(ms, i);
    assert ms[i..] == [input] + added;
    TextDoesNotMatter(input, text, added);
    Tools.ClosedAppend(inherited, [input.(text := text)] + added);
    Assoc(inherited, [input.(text := text)], added);
  }

  lemma SaveKeeps(y: State)
    requires Inv(y) && y.attempt.Some?
    ensures Inv(Step(y, Save))
    ensures var a := y.attempt.value;
            Base(a) <= NonSystem(Final(a)) &&
            Step(y, Save).lane.transcript ==
              a.inherited + [Input(a.turn.durable, a.turn.id)] + NonSystem(Final(a))[|Base(a)|..]
  {
    var a := y.attempt.value;
    var final := Final(a);
    Tools.CompletedIsClosed(a.loop.messages, a.loop.started);
    AddsTo(Base(a), a.loop.messages, final[|a.loop.messages|..]);
    assert final == a.loop.messages + final[|a.loop.messages|..];
    Tools.NonSystemClosed(Tools.Outside, final);
    var added := NonSystem(final)[|Base(a)|..];
    assert NonSystem(final) == a.visible + a.inherited + [a.input] + added;
    Turns.SavedIs(a.visible, a.inherited, a.input, added, a.turn);
    SavedIsClosed(a.visible, a.inherited, a.input, added, a.turn.durable);
    SavedHasNoSystem(y, a, final, added);
  }

  lemma SavedHasNoSystem(y: State, a: Attempt, final: seq<Message>, added: seq<Message>)
    requires NonSystem(final) == a.visible + a.inherited + [a.input] + added && a.input.role.User?
    ensures var t := a.inherited + [a.input.(text := a.turn.durable)] + added; NonSystem(t) == t
  {
    NoSystemIn(final);
    var t := a.inherited + [a.input.(text := a.turn.durable)] + added;
    forall m <- t ensures !m.role.System? {
      assert m in NonSystem(final) || m == a.input.(text := a.turn.durable);
    }
    AllNonSystem(t);
  }

  lemma {:induction false} NoSystemIn(ms: seq<Message>)
    ensures forall m <- NonSystem(ms) :: !m.role.System?
  {
    if ms != [] { NoSystemIn(ms[1..]); }
  }

  lemma {:induction false} AllNonSystem(ms: seq<Message>)
    requires forall m <- ms :: !m.role.System?
    ensures NonSystem(ms) == ms
  {
    if ms != [] { AllNonSystem(ms[1..]); }
  }

  lemma StepKeeps(y: State, e: Event)
    requires Inv(y) && Enabled(y, e)
    ensures Inv(Step(y, e))
  {
    match e
    case Prepare(s, durable, prompt, systems) => PrepareKeeps(y, s, durable, prompt, systems);
    case Loop(e) => LoopKeeps(y, e);
    case Save => SaveKeeps(y);
    case Leave =>
    case Clear =>
  }

  predicate Possible(y: State, run: seq<Event>)
    decreases |run|
  {
    run == [] || (Enabled(y, run[0]) && Possible(Step(y, run[0]), run[1..]))
  }

  function Run(y: State, run: seq<Event>): State
    requires Possible(y, run)
    decreases |run|
  {
    if run == [] then y else Run(Step(y, run[0]), run[1..])
  }

  lemma {:induction false} RunKeeps(y: State, run: seq<Event>)
    requires Inv(y) && Possible(y, run)
    ensures Inv(Run(y, run))
    decreases |run|
  {
    if run != [] {
      StepKeeps(y, run[0]);
      RunKeeps(Step(y, run[0]), run[1..]);
    }
  }

  /** However many attempts a lane goes through, wherever each of them is left and however often it saves: as long as
      the history it is shown is closed, the lane's transcript is well formed after every step, ready for a
      successor. */
  lemma LaneTranscriptStaysClosed(proactive: bool, run: seq<Event>)
    requires Possible(State(Turns.Lane([], {}, proactive), None), run)
    ensures Tools.WellFormed(Run(State(Turns.Lane([], {}, proactive), None), run).lane.transcript)
  {
    var y := State(Turns.Lane([], {}, proactive), None);
    RunKeeps(y, run);
    Tools.ClosedIsWellFormed(Run(y, run).lane.transcript);
  }
}
