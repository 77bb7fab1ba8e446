/** Messages of a conversation, as the lanes and the agent loop pass them around. */
module Messages {
  datatype Role = System | User | Assistant | Tool

  /** calls: the IDs of the tool calls an assistant message makes; callId: the call a tool message answers; input: the
      history number of the input that the message carries, or 0.  The source keeps no such mark; here it says which
      input a message is, whatever its text. */
  datatype Message = Message(role: Role, text: string, calls: seq<string>, callId: string, input: nat)

  function Plain(role: Role, text: string): Message { Message(role, text, [], "", 0) }

  function Input(text: string, id: nat): Message { Message(User, text, [], "", id) }

  function NonSystem(ms: seq<Message>): seq<Message> {
    if ms == [] then [] else if ms[0].role.System? then NonSystem(ms[1..]) else [ms[0]] + NonSystem(ms[1..])
  }

  function InsertAt(ms: seq<Message>, at: nat, m: Message): seq<Message>
    requires at <= |ms|
  {
    ms[..at] + [m] + ms[at..]
  }

  lemma {:induction false} NonSystemAppend(a: seq<Message>, b: seq<Message>)
    ensures NonSystem(a + b) == NonSystem(a) + NonSystem(b)
  {
    if a == [] {
      assert a + b == b;
    } else {
      assert (a + b)[1..] == a[1..] + b;
      NonSystemAppend(a[1..], b);
    }
  }

  lemma NonSystemOne(m: Message)
    ensures NonSystem([m]) == if m.role.System? then [] else [m]
  {
    assert [m][1..] == [] && NonSystem([m][1..]) == [];
  }

  lemma NonSystemInsert(ms: seq<Message>, at: nat, m: Message)
    requires at <= |ms| && m.role.System?
    ensures NonSystem(InsertAt(ms, at, m)) == NonSystem(ms)
  {
    SystemBetween(ms[..at], m, ms[at..]);
    assert ms == ms[..at] + ms[at..];
  }

  lemma SystemBetween(a: seq<Message>, m: Message, b: seq<Message>)
    requires m.role.System?
    ensures NonSystem(a + [m] + b) == NonSystem(a + b)
  {
    NonSystemOne(m);
    NonSystemAppend(a + [m], b);
    NonSystemAppend(a, [m]);
    NonSystemAppend(a, b);
  }
}
