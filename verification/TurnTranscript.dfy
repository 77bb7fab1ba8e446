/** What an attempt at a turn is given and what it leaves to its successor: PrepareTurnMessages and saveTranscript of
    internal/llm/sequence.go, for one lane of a session. */
module TurnTranscript {
  import opened Text
  import opened Messages

  /** ids is historySeq. */
  datatype Session = Session(history: seq<Message>, ids: seq<nat>, next: nat)

  datatype Lane = Lane(transcript: seq<Message>, messageIDs: set<nat>, proactive: bool)

  /** The fields of a turn that PrepareTurnMessages sets. */
  datatype Turn = Turn(start: nat, inputIndex: nat, durable: string, id: nat)

  // ---------- preparing ----------

  function Numbers(from: nat, n: nat): (r: seq<nat>)
    ensures |r| == n && forall i :: 0 <= i < n ==> r[i] == from + 1 + i
  {
    seq(n, i => from + 1 + i)
  }

  /** History that was written without numbers is numbered afresh. */
  function Numbered(s: Session): (r: Session)
    ensures |r.ids| == |r.history|
  {
    if |s.ids| == |s.history| then s
    else Session(s.history, Numbers(s.next, |s.history|), s.next + |s.history|)
  }

  /** The history without the inputs that the lane keeps in its own transcript. */
  function Visible(history: seq<Message>, ids: seq<nat>, own: set<nat>): seq<Message>
    requires |ids| == |history|
  {
    if history == [] then []
    else (if ids[0] in own then [] else [history[0]]) + Visible(history[1..], ids[1..], own)
  }

  function Appended(s: Session, m: Message): Session {
    var n := Numbered(s);
    Session(n.history + [m.(input := n.next + 1)], n.ids + [n.next + 1], n.next + 1)
  }

  function Inherited(l: Lane): seq<Message> { if l.proactive then [] else l.transcript }

  function Prepared(s: Session, l: Lane, durable: string): (r: (Session, Lane, Turn))
  {
    var n := Numbered(s);
    var id := n.next + 1;
    var visible := Visible(n.history, n.ids, l.messageIDs);
    var start := |NonSystem(visible)|;
    (Appended(s, Input(durable, 0)),
     Lane(Inherited(l) + [Input(durable, id)], l.messageIDs + {id}, l.proactive),
     Turn(start, start + |Inherited(l)|, durable, id))
  }

  /** The messages that the attempt starts from. */
  function Request(s: Session, l: Lane, prompt: string): seq<Message> {
    var n := Numbered(s);
    Visible(n.history, n.ids, l.messageIDs) + Inherited(l) + [Input(prompt, n.next + 1)]
  }

  // ---------- saving ----------

  function Durable(ms: seq<Message>, t: Turn): (r: seq<Message>)
    ensures |r| == |ms|
  {
    if t.inputIndex < |ms| then ms[t.inputIndex := ms[t.inputIndex].(text := t.durable)] else ms
  }

  function Saved(l: Lane, t: Turn, messages: seq<Message>): Lane {
    var ms := Durable(NonSystem(messages), t);
    if t.start > |ms| then l else l.(transcript := ms[t.start..])
  }

  // ---------- what an attempt may do to its messages ----------

  datatype Edit =
    | InsertSystem(at: nat, text: string)
    | RewriteInput(text: string)
    | Append(message: Message)

  /** An attempt's messages: those before the input, the input, and those after it. */
  datatype Draft = Draft(front: seq<Message>, input: Message, back: seq<Message>)

  function Flat(d: Draft): seq<Message> { d.front + [d.input] + d.back }

  predicate Fits(d: Draft, e: Edit) {
    match e
    case InsertSystem(at, _) => at <= |Flat(d)|
    case RewriteInput(_) => true
    case Append(m) => m.input == 0
  }

  function Applied(d: Draft, e: Edit): Draft
    requires Fits(d, e)
  {
    match e
    case InsertSystem(at, text) =>
      var m := Plain(Role.System, text);
      if at <= |d.front| then d.(front := InsertAt(d.front, at, m))
      else d.(back := InsertAt(d.back, at - |d.front| - 1, m))
    case RewriteInput(text) => d.(input := d.input.(text := text))
    case Append(m) => d.(back := d.back + [m])
  }

  /** In the list as a whole, each edit does what it says. */
  lemma AppliedFlat(d: Draft, e: Edit)
    requires Fits(d, e)
    ensures Flat(Applied(d, e)) == match e
                                   case InsertSystem(at, text) => InsertAt(Flat(d), at, Plain(Role.System, text))
                                   case RewriteInput(text) => Flat(d)[|d.front| := d.input.(text := text)]
                                   case Append(m) => Flat(d) + [m]
  {
  }

  predicate AllFit(d: Draft, es: seq<Edit>)
    decreases |es|
  {
    es == [] || (Fits(d, es[0]) && AllFit(Applied(d, es[0]), es[1..]))
  }

  function Edited(d: Draft, es: seq<Edit>): Draft
    requires AllFit(d, es)
    decreases |es|
  {
    if es == [] then d else Edited(Applied(d, es[0]), es[1..])
  }

  /** The messages appended by an attempt, without system messages. */
  function Produced(es: seq<Edit>): seq<Message> {
    if es == [] then []
    else (if es[0].Append? && !es[0].message.role.System? then [es[0].message] else []) + Produced(es[1..])
  }

  lemma ProducedOne(e: Edit)
    ensures Produced([e]) == if e.Append? && !e.message.role.System? then [e.message] else []
  {
    assert [e][1..] == [] && Produced([e][1..]) == [];
  }

  lemma AppliedParts(d: Draft, e: Edit)
    requires Fits(d, e)
    ensures var t := Applied(d, e);
            && NonSystem(t.front) == NonSystem(d.front) && t.input.(text := "") == d.input.(text := "")
            && NonSystem(t.back) == NonSystem(d.back) + Produced([e])
  {
    ProducedOne(e);
    match e
    case InsertSystem(at, text) =>
      var m := Plain(Role.System, text);
      if at <= |d.front| {
        NonSystemInsert(d.front, at, m);
      } else {
        NonSystemInsert(d.back, at - |d.front| - 1, m);
      }
    case RewriteInput(_) =>
    case Append(m) =>
      NonSystemAppend(d.back, [m]);
      NonSystemOne(m);
  }

  lemma {:induction false} EditedParts(d: Draft, es: seq<Edit>)
    requires AllFit(d, es)
    ensures var t := Edited(d, es);
            && NonSystem(t.front) == NonSystem(d.front) && t.input.(text := "") == d.input.(text := "")
            && NonSystem(t.back) == NonSystem(d.back) + Produced(es)
    decreases |es|
  {
    if es != [] {
      AppliedParts(d, es[0]);
      EditedParts(Applied(d, es[0]), es[1..]);
      ProducedOne(es[0]);
      Assoc(NonSystem(d.back), Produced([es[0]]), Produced(es[1..]));
    }
  }

  /** A lane's transcript never holds a system message. */
  predicate LaneOk(l: Lane) { NonSystem(l.transcript) == l.transcript }

  function Started(s: Session, l: Lane, prompt: string): Draft {
    var n := Numbered(s);
    Draft(Visible(n.history, n.ids, l.messageIDs) + Inherited(l), Input(prompt, n.next + 1), [])
  }

  /** Preparing a turn and saving what it became undo each other: whatever system messages the attempt inserts, however
      it rewrites the input and whatever it appends, the lane is left with the transcript it had, the durable input, and
      the appended messages.  `now` is the lane when the attempt saves. */
  lemma SaveUndoesPrepare(s: Session, l: Lane, durable: string, prompt: string, es: seq<Edit>, now: Lane)
    requires LaneOk(l) && AllFit(Started(s, l, prompt), es)
    ensures Flat(Started(s, l, prompt)) == Request(s, l, prompt)
    ensures var t := Prepared(s, l, durable).2;
            Saved(now, t, Flat(Edited(Started(s, l, prompt), es))) ==
              now.(transcript := Inherited(l) + [Input(durable, t.id)] + Produced(es))
  {
    var n := Numbered(s);
    var visible := Visible(n.history, n.ids, l.messageIDs);
    var d0 := Started(s, l, prompt);
    AttemptNonSystem(d0, es, visible, Inherited(l));
    SavedIs(NonSystem(visible), Inherited(l), Edited(d0, es).input, Produced(es), Prepared(s, l, durable).2);
  }

  lemma AttemptNonSystem(d0: Draft, es: seq<Edit>, visible: seq<Message>, inherited: seq<Message>)
    requires AllFit(d0, es) && d0.front == visible + inherited && d0.back == [] && d0.input.role.User?
    requires NonSystem(inherited) == inherited
    ensures var d := Edited(d0, es);
            && NonSystem(Flat(d)) == NonSystem(visible) + inherited + [d.input] + Produced(es)
            && d.input.(text := "") == d0.input.(text := "")
  {
    EditedParts(d0, es);
    NonSystemAppend(visible, inherited);
    FlatNonSystem(Edited(d0, es));
    assert NonSystem([]) + Produced(es) == Produced(es);
  }

  lemma FlatNonSystem(d: Draft)
    requires d.input.role.User?
    ensures NonSystem(Flat(d)) == NonSystem(d.front) + [d.input] + NonSystem(d.back)
  {
    NonSystemAppend(d.front + [d.input], d.back);
    NonSystemAppend(d.front, [d.input]);
    NonSystemOne(d.input);
  }

  lemma SavedIs(visible: seq<Message>, inherited: seq<Message>, input: Message, produced: seq<Message>, t: Turn)
    requires t.start == |visible| && t.inputIndex == |visible| + |inherited|
    ensures var ms := Durable(visible + inherited + [input] + produced, t);
            t.start <= |ms| && ms[t.start..] == inherited + [input.(text := t.durable)] + produced
  {
  }

  lemma {:induction false} ProducedOk(es: seq<Edit>)
    ensures NonSystem(Produced(es)) == Produced(es)
  {
    if es != [] {
      ProducedOk(es[1..]);
      var one := if es[0].Append? && !es[0].message.role.System? then [es[0].message] else [];
      if one != [] { NonSystemOne(one[0]); }
      NonSystemAppend(one, Produced(es[1..]));
    }
  }

  // ---------- attempts that follow each other ----------

  /** An input of the lane's present task and what its attempt has saved after it. */
  datatype Block = Block(id: nat, durable: string, produced: seq<Message>)

  function Flatten(bs: seq<Block>): seq<Message> {
    if bs == [] then [] else [Input(bs[0].durable, bs[0].id)] + bs[0].produced + Flatten(bs[1..])
  }

  /** The running attempt: the lane and session it was prepared from. */
  datatype Attempt = Attempt(session: Session, lane: Lane, durable: string, prompt: string)

  datatype World = World(session: Session, lane: Lane, blocks: seq<Block>, attempt: Option<Attempt>)

  datatype Event =
    | Prepare(durable: string, prompt: string)
    | Save(edits: seq<Edit>)
    | HandOver
    | Clear
    | Append(message: Message)
    | Remove(i: nat)

  predicate Enabled(y: World, e: Event) {
    match e
    case Prepare(_, _) => y.attempt.None?
    case Save(es) =>
      y.attempt.Some? && y.blocks != [] && var a := y.attempt.value; AllFit(Started(a.session, a.lane, a.prompt), es)
    case HandOver => true
    case Clear => true
    case Append(_) => true
    case Remove(i) => i < |y.session.history| && i < |y.session.ids|
  }

  function Step(y: World, e: Event): World
    requires Enabled(y, e)
  {
    match e
    case Prepare(durable, prompt) =>
      var (s, l, t) := Prepared(y.session, y.lane, durable);
      World(s, l, y.blocks + [Block(t.id, durable, [])], Some(Attempt(y.session, y.lane, durable, prompt)))
    case Save(es) =>
      var a := y.attempt.value;
      var messages := Flat(Edited(Started(a.session, a.lane, a.prompt), es));
      var n := |y.blocks| - 1;
      y.(lane := Saved(y.lane, Prepared(a.session, a.lane, a.durable).2, messages),
         blocks := y.blocks[n := y.blocks[n].(produced := Produced(es))])
    case HandOver => y.(attempt := None)
    case Clear => y.(lane := Lane([], {}, y.lane.proactive), blocks := [], attempt := None)
    case Append(m) => y.(session := Appended(y.session, m))
    case Remove(i) =>
      var s := y.session;
      y.(session := Session(s.history[..i] + s.history[i + 1..], s.ids[..i] + s.ids[i + 1..], s.next))
  }

  predicate SessionOk(s: Session) {
    && |s.ids| == |s.history|
    && (forall i :: 0 <= i < |s.ids| ==> s.history[i].input == s.ids[i] && 0 < s.ids[i] <= s.next)
    && (forall i, j :: 0 <= i < j < |s.ids| ==> s.ids[i] < s.ids[j])
  }

  function IdsOf(bs: seq<Block>): set<nat> { set b <- bs :: b.id }

  predicate BlocksOk(bs: seq<Block>, next: nat) {
    && (forall b <- bs :: 0 < b.id <= next && NonSystem(b.produced) == b.produced)
    && (forall b <- bs :: forall m <- b.produced :: m.input == 0)
    && (forall i, j :: 0 <= i < j < |bs| ==> bs[i].id < bs[j].id)
  }

  /** A proactive lane keeps no more than the latest attempt. */
  function Kept(bs: seq<Block>, proactive: bool): seq<Block> {
    if proactive && bs != [] then [bs[|bs| - 1]] else bs
  }

  predicate Inv(y: World) {
    && SessionOk(y.session) && BlocksOk(y.blocks, y.session.next)
    && y.lane.messageIDs == IdsOf(y.blocks)
    && y.lane.transcript == Flatten(Kept(y.blocks, y.lane.proactive))
    && (y.attempt.Some? ==>
          var a := y.attempt.value;
          var n := |y.blocks| - 1;
          && n >= 0 && a.lane.proactive == y.lane.proactive
          && a.lane.transcript == Flatten(Kept(y.blocks[..n], a.lane.proactive))
          && |a.session.ids| == |a.session.history|
          && y.blocks[n].durable == a.durable && y.blocks[n].id == a.session.next + 1)
  }

  lemma {:induction false} FlattenAppend(a: seq<Block>, b: seq<Block>)
    ensures Flatten(a + b) == Flatten(a) + Flatten(b)
  {
    if a == [] {
      assert a + b == b;
    } else {
      FlattenAppend(a[1..], b);
      assert (a + b)[1..] == a[1..] + b;
      Assoc([Input(a[0].durable, a[0].id)] + a[0].produced, Flatten(a[1..]), Flatten(b));
    }
  }

  lemma FlattenOne(b: Block)
    ensures Flatten([b]) == [Input(b.durable, b.id)] + b.produced
  {
    assert [b][1..] == [] && Flatten([b][1..]) == [];
  }

  lemma {:induction false} FlattenOk(bs: seq<Block>)
    requires forall b <- bs :: NonSystem(b.produced) == b.produced
    ensures NonSystem(Flatten(bs)) == Flatten(bs)
  {
    if bs != [] {
      FlattenOk(bs[1..]);
      var m := Input(bs[0].durable, bs[0].id);
      NonSystemOne(m);
      NonSystemAppend([m], bs[0].produced);
      NonSystemAppend([m] + bs[0].produced, Flatten(bs[1..]));
    }
  }

  lemma AppendedOk(s: Session, m: Message)
    requires SessionOk(s)
    ensures SessionOk(Appended(s, m)) && Appended(s, m).next == s.next + 1
  {
  }

  lemma BlocksSnoc(bs: seq<Block>, b: Block, next: nat)
    requires BlocksOk(bs, next) && (forall x <- bs :: x.id < b.id) && 0 < b.id <= next + 1
    requires (forall m <- b.produced :: m.input == 0) && NonSystem(b.produced) == b.produced
    ensures BlocksOk(bs + [b], next + 1) && IdsOf(bs + [b]) == IdsOf(bs) + {b.id}
  {
    assert forall i :: 0 <= i < |bs| ==> bs[i] in bs;
    assert forall x <- bs + [b] :: x in bs || x == b;
    assert b in bs + [b] && forall x <- bs :: x in bs + [b];
  }

  lemma KeptSnoc(bs: seq<Block>, b: Block, proactive: bool)
    ensures Flatten(Kept(bs + [b], proactive)) ==
            (if proactive then [] else Flatten(bs)) + [Input(b.durable, b.id)] + b.produced
  {
    FlattenAppend(bs, [b]);
    FlattenOne(b);
    Assoc(Flatten(bs), [Input(b.durable, b.id)], b.produced);
    assert [] + [Input(b.durable, b.id)] + b.produced == [Input(b.durable, b.id)] + b.produced;
  }

  lemma InheritedIs(l: Lane, bs: seq<Block>)
    requires l.transcript == Flatten(Kept(bs, l.proactive))
    ensures Inherited(l) == if l.proactive then [] else Flatten(bs)
  {
  }

  /** The parts of the world that Prepare changes. */
  lemma PreparedWorld(y: World, durable: string, prompt: string)
    requires |y.session.ids| == |y.session.history| && y.attempt.None?
    ensures var id := y.session.next + 1;
            Step(y, Prepare(durable, prompt)) ==
              World(Appended(y.session, Input(durable, 0)),
                    Lane(Inherited(y.lane) + [Input(durable, id)] + [], y.lane.messageIDs + {id}, y.lane.proactive),
                    y.blocks + [Block(id, durable, [])],
                    Some(Attempt(y.session, y.lane, durable, prompt)))
  {
    var m := Input(durable, y.session.next + 1);
    assert Inherited(y.lane) + [m] + [] == Inherited(y.lane) + [m];
  }

  lemma PrepareKeeps(y: World, durable: string, prompt: string)
    requires Inv(y) && y.attempt.None?
    ensures Inv(Step(y, Prepare(durable, prompt)))
  {
    PreparedWorld(y, durable, prompt);
    PreparedKeeps(y, durable, prompt, Block(y.session.next + 1, durable, []), Step(y, Prepare(durable, prompt)));
  }

  lemma PreparedKeeps(y: World, durable: string, prompt: string, b: Block, z: World)
    requires Inv(y) && b == Block(y.session.next + 1, durable, [])
    requires z.session == Appended(y.session, Input(durable, 0))
    requires z.lane == Lane(Inherited(y.lane) + [Input(durable, b.id)] + [], y.lane.messageIDs + {b.id},
                            y.lane.proactive)
    requires z.blocks == y.blocks + [b] && z.attempt == Some(Attempt(y.session, y.lane, durable, prompt))
    ensures Inv(z)
  {
    AppendedOk(y.session, Input(durable, 0));
    PreparedBlocks(y.blocks, b, y.session.next);
    NextTranscript(y.lane, y.blocks, b);
    Front(y.blocks, b);
  }

  lemma PreparedBlocks(bs: seq<Block>, b: Block, next: nat)
    requires BlocksOk(bs, next) && b.id == next + 1 && b.produced == []
    ensures BlocksOk(bs + [b], next + 1) && IdsOf(bs + [b]) == IdsOf(bs) + {b.id}
  {
    assert forall x <- bs :: x.id <= next;
    BlocksSnoc(bs, b, next);
  }

  lemma NextTranscript(l: Lane, bs: seq<Block>, b: Block)
    requires l.transcript == Flatten(Kept(bs, l.proactive))
    ensures Inherited(l) + [Input(b.durable, b.id)] + b.produced == Flatten(Kept(bs + [b], l.proactive))
  {
    KeptSnoc(bs, b, l.proactive);
    InheritedIs(l, bs);
  }

  lemma Front(bs: seq<Block>, b: Block)
    ensures (bs + [b])[..|bs|] == bs && (bs + [b])[|bs|] == b && |bs + [b]| == |bs| + 1
  {
  }

  lemma SaveKeeps(y: World, es: seq<Edit>)
    requires Inv(y) && Enabled(y, Save(es))
    ensures Inv(Step(y, Save(es)))
  {
    var n := |y.blocks| - 1;
    SavedLane(y, es);
    SavedKeeps(y, es, y.blocks[..n], y.blocks[n].(produced := Produced(es)), Step(y, Save(es)));
  }

  lemma SavedKeeps(y: World, es: seq<Edit>, front: seq<Block>, b: Block, z: World)
    requires Inv(y) && Enabled(y, Save(es))
    requires front == y.blocks[..|y.blocks| - 1] && b == y.blocks[|y.blocks| - 1].(produced := Produced(es))
    requires z.session == y.session && z.attempt == y.attempt && z.blocks == y.blocks[|y.blocks| - 1 := b]
    requires z.lane == y.lane.(transcript := (if y.lane.proactive then [] else Flatten(front)) +
                                             [Input(b.durable, b.id)] + b.produced)
    ensures Inv(z)
  {
    var a := y.attempt.value;
    SavedBlocks(y.blocks, es, Started(a.session, a.lane, a.prompt), y.session.next);
    LastReplaced(y.blocks, b);
    KeptSnoc(front, b, y.lane.proactive);
    Front(front, b);
  }

  lemma SavedLane(y: World, es: seq<Edit>)
    requires Inv(y) && Enabled(y, Save(es))
    ensures var front, last := y.blocks[..|y.blocks| - 1], y.blocks[|y.blocks| - 1];
            Step(y, Save(es)).lane ==
              y.lane.(transcript := (if y.lane.proactive then [] else Flatten(front)) +
                                    [Input(last.durable, last.id)] + Produced(es))
  {
    var a := y.attempt.value;
    var front, last := y.blocks[..|y.blocks| - 1], y.blocks[|y.blocks| - 1];
    AttemptLaneOk(a.lane, front, y.blocks, y.session.next);
    AttemptSaves(a, es, front, y.lane);
    assert Input(last.durable, last.id) == Input(a.durable, a.session.next + 1);
    StepSaves(y, es, a);
  }

  lemma StepSaves(y: World, es: seq<Edit>, a: Attempt)
    requires Enabled(y, Save(es)) && y.attempt == Some(a)
    ensures Step(y, Save(es)).lane ==
            Saved(y.lane, Prepared(a.session, a.lane, a.durable).2,
                  Flat(Edited(Started(a.session, a.lane, a.prompt), es)))
  {
  }

  lemma LastReplaced(bs: seq<Block>, b: Block)
    requires bs != []
    ensures bs[|bs| - 1 := b] == bs[..|bs| - 1] + [b]
  {
  }

  lemma AttemptSaves(a: Attempt, es: seq<Edit>, front: seq<Block>, now: Lane)
    requires LaneOk(a.lane) && AllFit(Started(a.session, a.lane, a.prompt), es)
    requires a.lane.transcript == Flatten(Kept(front, a.lane.proactive)) && |a.session.ids| == |a.session.history|
    ensures Saved(now, Prepared(a.session, a.lane, a.durable).2,
                  Flat(Edited(Started(a.session, a.lane, a.prompt), es))) ==
            now.(transcript := (if a.lane.proactive then [] else Flatten(front)) +
                               [Input(a.durable, a.session.next + 1)] + Produced(es))
  {
    InheritedIs(a.lane, front);
    SaveUndoesPrepare(a.session, a.lane, a.durable, a.prompt, es, now);
  }

  lemma AttemptLaneOk(l: Lane, front: seq<Block>, bs: seq<Block>, next: nat)
    requires BlocksOk(bs, next) && bs != [] && front == bs[..|bs| - 1] &&
             l.transcript == Flatten(Kept(front, l.proactive))
    ensures LaneOk(l)
  {
    assert forall x <- front :: x in bs;
    assert forall x <- Kept(front, l.proactive) :: x in front;
    FlattenOk(Kept(front, l.proactive));
  }

  lemma SavedBlocks(bs: seq<Block>, es: seq<Edit>, d: Draft, next: nat)
    requires BlocksOk(bs, next) && bs != [] && AllFit(d, es)
    ensures var n := |bs| - 1;
            var cs := bs[n := bs[n].(produced := Produced(es))];
            BlocksOk(cs, next) && IdsOf(cs) == IdsOf(bs)
  {
    var n := |bs| - 1;
    ProducedOk(es);
    ProducedMarks(d, es);
    ReplacedBlocksOk(bs, bs[n].(produced := Produced(es)), next);
    SameIds(bs, bs[n := bs[n].(produced := Produced(es))]);
  }

  lemma ReplacedBlocksOk(bs: seq<Block>, b: Block, next: nat)
    requires BlocksOk(bs, next) && bs != [] && b.id == bs[|bs| - 1].id
    requires (forall m <- b.produced :: m.input == 0) && NonSystem(b.produced) == b.produced
    ensures BlocksOk(bs[|bs| - 1 := b], next)
  {
    var cs := bs[|bs| - 1 := b];
    assert bs[|bs| - 1] in bs;
    assert forall x <- cs :: x in bs || x == b;
    assert forall i :: 0 <= i < |bs| ==> cs[i].id == bs[i].id;
  }

  lemma SameIds(bs: seq<Block>, cs: seq<Block>)
    requires |cs| == |bs| && forall i :: 0 <= i < |bs| ==> cs[i].id == bs[i].id
    ensures IdsOf(cs) == IdsOf(bs)
  {
    forall b <- bs ensures b.id in IdsOf(cs) {
      var i :| 0 <= i < |bs| && bs[i] == b;
      assert cs[i] in cs;
    }
    forall c <- cs ensures c.id in IdsOf(bs) {
      var i :| 0 <= i < |cs| && cs[i] == c;
      assert bs[i] in bs;
    }
  }

  lemma {:induction false} ProducedMarks(d: Draft, es: seq<Edit>)
    requires AllFit(d, es)
    ensures forall m <- Produced(es) :: m.input == 0
    decreases |es|
  {
    if es != [] { ProducedMarks(Applied(d, es[0]), es[1..]); }
  }

  lemma RemovedOk(s: Session, i: nat)
    requires SessionOk(s) && i < |s.history|
    ensures SessionOk(Session(s.history[..i] + s.history[i + 1..], s.ids[..i] + s.ids[i + 1..], s.next))
  {
  }

  lemma BlocksLater(bs: seq<Block>, from: nat, to: nat)
    requires BlocksOk(bs, from) && from <= to
    ensures BlocksOk(bs, to)
  {
  }

  /** Other senders and deletions change the history under the lane. */
  lemma OtherSession(y: World, s: Session)
    requires Inv(y) && SessionOk(s) && y.session.next <= s.next
    ensures Inv(y.(session := s))
  {
    BlocksLater(y.blocks, y.session.next, s.next);
  }

  lemma ClearKeeps(y: World)
    requires Inv(y)
    ensures Inv(Step(y, Clear))
  {
  }

  lemma StepKeeps(y: World, e: Event)
    requires Inv(y) && Enabled(y, e)
    ensures Inv(Step(y, e))
  {
    match e
    case Prepare(durable, prompt) => PrepareKeeps(y, durable, prompt);
    case Save(es) => SaveKeeps(y, es);
    case HandOver =>
    case Clear => ClearKeeps(y);
    case Append(m) => AppendKeeps(y, m);
    case Remove(i) => RemoveKeeps(y, i);
  }

  lemma AppendKeeps(y: World, m: Message)
    requires Inv(y)
    ensures Inv(Step(y, Event.Append(m)))
  {
    AppendedOk(y.session, m);
    OtherSession(y, Appended(y.session, m));
  }

  lemma RemoveKeeps(y: World, i: nat)
    requires Inv(y) && i < |y.session.history|
    ensures Inv(Step(y, Remove(i)))
  {
    RemovedOk(y.session, i);
    OtherSession(y, Step(y, Remove(i)).session);
  }

  predicate Possible(y: World, run: seq<Event>)
    decreases |run|
  {
    run == [] || (Enabled(y, run[0]) && Possible(Step(y, run[0]), run[1..]))
  }

  function Run(y: World, run: seq<Event>): World
    requires Possible(y, run)
    decreases |run|
  {
    if run == [] then y else Run(Step(y, run[0]), run[1..])
  }

  lemma {:induction false} RunKeeps(y: World, run: seq<Event>)
    requires Inv(y) && Possible(y, run)
    ensures Inv(Run(y, run)) && Run(y, run).lane.proactive == y.lane.proactive
    decreases |run|
  {
    if run != [] {
      StepKeeps(y, run[0]);
      RunKeeps(Step(y, run[0]), run[1..]);
    }
  }

  // ---------- what the successor is given ----------

  /** How many of the messages carry this input. */
  function Count(ms: seq<Message>, id: nat): nat {
    if ms == [] then 0 else (if ms[0].input == id then 1 else 0) + Count(ms[1..], id)
  }

  lemma {:induction false} CountAppend(a: seq<Message>, b: seq<Message>, id: nat)
    ensures Count(a + b, id) == Count(a, id) + Count(b, id)
  {
    if a == [] {
      assert a + b == b;
    } else {
      assert (a + b)[1..] == a[1..] + b;
      CountAppend(a[1..], b, id);
    }
  }

  lemma {:induction false} CountNone(ms: seq<Message>, id: nat)
    requires forall m <- ms :: m.input != id
    ensures Count(ms, id) == 0
  {
    if ms != [] { CountNone(ms[1..], id); }
  }

  lemma {:induction false} VisibleHidesOwn(history: seq<Message>, ids: seq<nat>, own: set<nat>, id: nat)
    requires |ids| == |history| && id in own && forall i :: 0 <= i < |ids| ==> history[i].input == ids[i]
    ensures Count(Visible(history, ids, own), id) == 0
  {
    if history != [] {
      VisibleHidesOwn(history[1..], ids[1..], own, id);
      var one := if ids[0] in own then [] else [history[0]];
      CountNone(one, id);
      CountAppend(one, Visible(history[1..], ids[1..], own), id);
    }
  }

  lemma {:induction false} BlockOnce(bs: seq<Block>, k: nat, next: nat)
    requires BlocksOk(bs, next) && k < |bs|
    ensures Count(Flatten(bs), bs[k].id) == 1
  {
    var id, b, rest := bs[k].id, bs[0], bs[1..];
    assert b in bs && bs[k] in bs && forall x <- rest :: x in bs;
    OneBlock(b, rest, id);
    if k == 0 {
      NoneLater(rest, id);
    } else {
      assert rest[k - 1] == bs[k];
      BlockOnce(rest, k - 1, next);
    }
  }

  lemma OneBlock(b: Block, rest: seq<Block>, id: nat)
    requires id > 0 && forall m <- b.produced :: m.input == 0
    ensures Count([Input(b.durable, b.id)] + b.produced + Flatten(rest), id) ==
            (if b.id == id then 1 else 0) + Count(Flatten(rest), id)
  {
    var m := Input(b.durable, b.id);
    CountNone(b.produced, id);
    CountAppend([m], b.produced, id);
    CountAppend([m] + b.produced, Flatten(rest), id);
    assert [m][1..] == [] && Count([m][1..], id) == 0;
  }

  lemma {:induction false} NoneLater(bs: seq<Block>, id: nat)
    requires id > 0 && forall b <- bs :: b.id != id && forall m <- b.produced :: m.input == 0
    ensures Count(Flatten(bs), id) == 0
  {
    if bs != [] {
      var m := Input(bs[0].durable, bs[0].id);
      assert bs[0] in bs;
      CountNone([m] + bs[0].produced, id);
      CountAppend([m] + bs[0].produced, Flatten(bs[1..]), id);
      NoneLater(bs[1..], id);
    }
  }

  /** How often an earlier input of the lane's task stands in what the next attempt is given. */
  lemma EarlierInputCount(y: World, prompt: string, k: nat)
    requires Inv(y) && k < |y.blocks|
    ensures Count(Request(y.session, y.lane, prompt), y.blocks[k].id) == if y.lane.proactive then 0 else 1
  {
    var id := y.blocks[k].id;
    assert y.blocks[k] in y.blocks;
    assert id in IdsOf(y.blocks);
    OwnInputCount(y.session, y.lane, prompt, id);
    InheritedIs(y.lane, y.blocks);
    BlockOnce(y.blocks, k, y.session.next);
  }

  lemma OwnInputCount(s: Session, l: Lane, prompt: string, id: nat)
    requires SessionOk(s) && id in l.messageIDs && id <= s.next
    ensures Count(Request(s, l, prompt), id) == Count(Inherited(l), id)
  {
    VisibleHidesOwn(s.history, s.ids, l.messageIDs, id);
    ThreeParts(Visible(s.history, s.ids, l.messageIDs), Inherited(l), Input(prompt, s.next + 1), id);
  }

  lemma ThreeParts(a: seq<Message>, b: seq<Message>, last: Message, id: nat)
    requires last.input != id
    ensures Count(a + b + [last], id) == Count(a, id) + Count(b, id)
  {
    CountAppend(a + b, [last], id);
    CountAppend(a, b, id);
    CountNone([last], id);
  }

  /** After any run of attempts, hand-overs and history changes that number each new message, the next attempt sees
      every earlier input of its task exactly once, if and only if the lane is not proactive: a proactive lane hides
      those inputs from the history and passes no transcript on, so that the successor does not see them at all. */
  lemma SuccessorSeesEachInputOnce(y: World, run: seq<Event>, prompt: string)
    requires Inv(y) && Possible(y, run) && Run(y, run).blocks != []
    ensures var z := Run(y, run);
            (forall b <- z.blocks :: Count(Request(z.session, z.lane, prompt), b.id) == 1) <==> !z.lane.proactive
  {
    RunKeeps(y, run);
    var z := Run(y, run);
    forall k | 0 <= k < |z.blocks|
      ensures Count(Request(z.session, z.lane, prompt), z.blocks[k].id) == if z.lane.proactive then 0 else 1
    {
      EarlierInputCount(z, prompt, k);
    }
    assert z.blocks[0] in z.blocks;
  }

  lemma {:induction false} VisibleAll(history: seq<Message>, ids: seq<nat>, own: set<nat>)
    requires |ids| == |history| && forall id <- ids :: id !in own
    ensures Visible(history, ids, own) == history
  {
    if history != [] { VisibleAll(history[1..], ids[1..], own); }
  }

  /** A history that was changed without numbers is numbered afresh, which no longer matches the lane's own inputs: the
      successor then sees an earlier input as often as the history holds it, and once more. */
  lemma RenumberingRepeats(y: World, s: Session, prompt: string, k: nat)
    requires Inv(y) && k < |y.blocks| && !y.lane.proactive && |s.ids| != |s.history| && y.session.next <= s.next
    ensures Count(Request(s, y.lane, prompt), y.blocks[k].id) == Count(s.history, y.blocks[k].id) + 1
  {
    var l, id := y.lane, y.blocks[k].id;
    var n := Numbered(s);
    var last := Input(prompt, n.next + 1);
    assert y.blocks[k] in y.blocks;
    assert forall x <- l.messageIDs :: x <= s.next;
    VisibleAll(n.history, n.ids, l.messageIDs);
    ThreeParts(n.history, Inherited(l), last, id);
    BlockOnce(y.blocks, k, y.session.next);
  }

  // ---------- the methods ----------

  class Conversation {
    var history: seq<Message>
    var historySeq: seq<nat>
    var nextMsgSeq: nat
    /** The lane, and its active turn. */
    var lane: Lane
    var turn: Turn

    constructor (proactive: bool)
      ensures SessionView() == Session([], [], 0) && lane == Lane([], {}, proactive)
    {
      history, historySeq, nextMsgSeq := [], [], 0;
      lane := Lane([], {}, proactive);
      turn := Turn(0, 0, "", 0);
    }

    ghost function SessionView(): Session
      reads this
    {
      Session(history, historySeq, nextMsgSeq)
    }

    method RenumberHistory()
      modifies this`historySeq, this`nextMsgSeq
      ensures SessionView() == Numbered(old(SessionView()))
    {
      if |historySeq| != |history| {
        var from := nextMsgSeq;
        historySeq := [];
        for i := 0 to |history|
          invariant nextMsgSeq == from + i && historySeq == Numbers(from, i)
        {
          nextMsgSeq := nextMsgSeq + 1;
          historySeq := historySeq + [nextMsgSeq];
        }
      }
    }

    method VisibleHistory() returns (r: seq<Message>)
      requires |historySeq| == |history|
      ensures r == Visible(history, historySeq, lane.messageIDs)
    {
      r := [];
      for i := 0 to |history|
        invariant Visible(history, historySeq, lane.messageIDs) ==
                  r + Visible(history[i..], historySeq[i..], lane.messageIDs)
      {
        var own := historySeq[i] in lane.messageIDs;
        var one := if own then [] else [history[i]];
        assert history[i..][0] == history[i] && history[i..][1..] == history[i + 1..];
        assert historySeq[i..][0] == historySeq[i] && historySeq[i..][1..] == historySeq[i + 1..];
        Assoc(r, one, Visible(history[i + 1..], historySeq[i + 1..], lane.messageIDs));
        r := r + one;
      }
    }

    /** PrepareTurnMessages, for a turn of the present epoch; the result is the request's messages. */
    method PrepareTurnMessages(durable: string, prompt: string) returns (messages: seq<Message>)
      modifies this
      ensures (SessionView(), lane, turn) == Prepared(old(SessionView()), old(lane), durable)
      ensures messages == Request(old(SessionView()), old(lane), prompt)
    {
      RenumberHistory();
      messages := VisibleHistory();
      var inherited := if lane.proactive then [] else lane.transcript;
      nextMsgSeq := nextMsgSeq + 1;
      var id := nextMsgSeq;
      history := history + [Input(durable, id)];
      historySeq := historySeq + [id];
      var start := NonSystemCount(messages);
      turn := Turn(start, start + |inherited|, durable, id);
      messages := messages + inherited + [Input(durable, id)];
      assert messages[|messages| - |inherited| - 1..] == inherited + [Input(durable, id)];
      lane := Lane(messages[|messages| - |inherited| - 1..], lane.messageIDs + {id}, lane.proactive);
      messages := messages[|messages| - 1 := Input(prompt, id)];
      assert SessionView() == Appended(old(SessionView()), Input(durable, 0));
    }

    /** saveTranscript. */
    method SaveTranscript(messages: seq<Message>)
      modifies this`lane
      ensures lane == Saved(old(lane), turn, messages)
    {
      var transcript := WithoutSystem(messages);
      if turn.inputIndex < |transcript| {
        transcript := transcript[turn.inputIndex := transcript[turn.inputIndex].(text := turn.durable)];
      }
      if turn.start > |transcript| { return; }
      lane := lane.(transcript := transcript[turn.start..]);
    }
  }

  method WithoutSystem(messages: seq<Message>) returns (r: seq<Message>)
    ensures r == NonSystem(messages)
  {
    r := [];
    for i := 0 to |messages|
      invariant NonSystem(messages) == r + NonSystem(messages[i..])
    {
      assert messages[i..][0] == messages[i] && messages[i..][1..] == messages[i + 1..];
      if !messages[i].role.System? { r := r + [messages[i]]; }
    }
  }

  method NonSystemCount(messages: seq<Message>) returns (n: nat)
    ensures n == |NonSystem(messages)|
  {
    n := 0;
    for i := 0 to |messages|
      invariant n + |NonSystem(messages[i..])| == |NonSystem(messages)|
    {
      assert messages[i..][0] == messages[i] && messages[i..][1..] == messages[i + 1..];
      if !messages[i].role.System? { n := n + 1; }
    }
  }
}
