/** Billing of model calls (internal/llm/inflight.go, internal/billing/pricing.go): each reservation is settled by the
    worker that owns it, whether or not the attempt waits for the answer, and a receipt waits for all workers. */
module Billing {
  import opened Text

  // ---------- prices ----------

  const Max64: int := 0x7fff_ffff_ffff_ffff
  const Two64: int := 0x1_0000_0000_0000_0000

  /** An int64 holds this value after any arithmetic. */
  function Wrap(x: int): (r: int)
    ensures -Max64 - 1 <= r <= Max64
  {
    var m := x % Two64;
    if m <= Max64 then m else m - Two64
  }

  /** Go's division truncates towards zero. */
  function Quotient(a: int, b: int): int
    requires b > 0
  {
    if a >= 0 then a / b else -(-a / b)
  }

  datatype Price = Price(prompt: int, completion: int)

  function AtLeastZero(n: int): nat { if n < 0 then 0 else n }

  function CalculateMinorUnits(prompt: int, completion: int, price: Price): int {
    var p, c := AtLeastZero(prompt), AtLeastZero(completion);
    if p == 0 && c == 0 then 0
    else
      var numerator := Wrap(Wrap(p * price.prompt) + Wrap(c * price.completion));
      if numerator <= 0 then 0 else Quotient(Wrap(numerator + 999_999), 1_000_000)
  }

  /** The price in millionths of a minor unit. */
  function Exact(prompt: int, completion: int, price: Price): int {
    AtLeastZero(prompt) * price.prompt + AtLeastZero(completion) * price.completion
  }

  lemma WrapIs(x: int, k: int)
    requires -Max64 - 1 <= x - k * Two64 <= Max64
    ensures Wrap(x) == x - k * Two64
  {
    var r := x - k * Two64;
    if r >= 0 {
      RemainderIs(x, Two64, k, r);
    } else {
      RemainderIs(x, Two64, k - 1, r + Two64);
    }
  }

  lemma RemainderIs(x: int, n: int, q: int, r: int)
    requires n > 0 && 0 <= r < n && x == q * n + r
    ensures x % n == r
  {
    var d := x / n - q;
    assert x == (x / n) * n + x % n;
    assert d * n == r - x % n;
    assert (d > 0 ==> d * n >= n) && (d < 0 ==> d * n <= -n);
  }

  lemma WrapShift(x: int) returns (k: int)
    ensures Wrap(x) == x - k * Two64
  {
    k := x / Two64;
    if x % Two64 > Max64 { k := k + 1; }
  }

  lemma WrapSum(x: int, y: int)
    ensures Wrap(Wrap(x) + Wrap(y)) == Wrap(x + y)
    ensures Wrap(Wrap(x) + y) == Wrap(x + y)
  {
    var i := WrapShift(x);
    var j := WrapShift(y);
    var k := WrapShift(x + y);
    WrapIs(Wrap(x) + Wrap(y), k - i - j);
    WrapIs(Wrap(x) + y, k - i);
  }

  /** A charge covers the exact price and exceeds it by less than one minor unit, if and only if the rounded-up
      numerator fits in an int64; beyond that the charge is too low, or even negative. */
  lemma ChargeIsCeiling(prompt: int, completion: int, price: Price)
    requires Exact(prompt, completion, price) >= 0
    ensures var n, r := Exact(prompt, completion, price), CalculateMinorUnits(prompt, completion, price);
            n <= 1_000_000 * r < n + 1_000_000 <==> n + 999_999 <= Max64
  {
    var p, c := AtLeastZero(prompt), AtLeastZero(completion);
    var n := Exact(prompt, completion, price);
    WrapSum(p * price.prompt, c * price.completion);
    if p == 0 && c == 0 {
      assert n == 0;
    } else {
      ChargeOf(n, CalculateMinorUnits(prompt, completion, price));
    }
  }

  lemma ChargeOf(n: int, r: int)
    requires n >= 0 && r == if Wrap(n) <= 0 then 0 else Quotient(Wrap(Wrap(n) + 999_999), 1_000_000)
    ensures n <= 1_000_000 * r < n + 1_000_000 <==> n + 999_999 <= Max64
  {
    WrapSum(n, 999_999);
    if n <= Max64 {
      WrapIs(n, 0);
      if n + 999_999 <= Max64 {
        WrapIs(n + 999_999, 0);
      } else {
        WrapIs(n + 999_999, 1);
      }
    } else {
      var k := WrapShift(n);
      assert k >= 1;
    }
  }

  // ---------- calls ----------

  datatype Answer = Failed | Reply(prompt: int, completion: int)

  datatype Phase = Begun | Answered(answer: Answer) | Settled | Ended

  /** The tokens that a successful commit was for. */
  datatype Usage = Usage(prompt: int, completion: int, price: Price)

  /** One chatAndSettle; settlements counts the commits and releases sent. */
  datatype Call = Call(reserved: bool, price: Price, phase: Phase, abandoned: bool, settlements: nat,
                       committed: Option<Usage>)

  function ChargeFor(c: Call): int {
    match c.committed
    case None => 0
    case Some(u) => CalculateMinorUnits(u.prompt, u.completion, u.price)
  }

  function ExactFor(c: Call): int {
    match c.committed
    case None => 0
    case Some(u) => Exact(u.prompt, u.completion, u.price)
  }

  /** A goroutine in Wait: the idle channel it watches, and how many calls had begun. */
  datatype Waiter = Waiter(channel: nat, before: nat)

  /** BillingRunState: idle is the number of the current channel, and closed holds those that have been closed. */
  datatype State = State(
    calls: seq<Call>,
    pending: nat, idle: nat, closed: set<nat>,
    total: int, billed: nat,
    waiters: seq<Waiter>)

  datatype Event =
    | Begin(reserved: bool, price: Price)
    | Abandon(i: nat)
    | Receive(i: nat, answer: Answer)
    | Settle(i: nat, ok: bool)
    | End(i: nat)
    | StartWait

  predicate Enabled(s: State, e: Event) {
    match e
    case Begin(_, _) => true
    case Abandon(i) => i < |s.calls|
    case Receive(i, _) => i < |s.calls| && s.calls[i].phase.Begun?
    case Settle(i, _) => i < |s.calls| && s.calls[i].phase.Answered?
    case End(i) => i < |s.calls| && s.calls[i].phase.Settled? && s.pending > 0
    case StartWait => true
  }

  /** What the worker does with its reservation; ok says whether the billing service acknowledges. */
  function SettledCall(c: Call, ok: bool): Call
    requires c.phase.Answered?
  {
    if !c.reserved then c.(phase := Settled)
    else
      match c.phase.answer
      case Failed => c.(phase := Settled, settlements := c.settlements + 1)
      case Reply(prompt, completion) =>
        c.(phase := Settled, settlements := c.settlements + 1,
           committed := if ok then Some(Usage(prompt, completion, c.price)) else None)
  }

  predicate Charges(c: Call, ok: bool)
    requires c.phase.Answered?
  {
    ok && c.reserved && c.phase.answer.Reply?
  }

  function Step(s: State, e: Event): State
    requires Enabled(s, e)
  {
    match e
    case Begin(reserved, price) =>
      s.(calls := s.calls + [Call(reserved, price, Begun, false, 0, None)],
         idle := if s.pending == 0 then s.idle + 1 else s.idle, pending := s.pending + 1)
    case Abandon(i) => s.(calls := s.calls[i := s.calls[i].(abandoned := true)])
    case Receive(i, answer) => s.(calls := s.calls[i := s.calls[i].(phase := Answered(answer))])
    case Settle(i, ok) =>
      var c := SettledCall(s.calls[i], ok);
      var charges := Charges(s.calls[i], ok);
      s.(calls := s.calls[i := c], total := if charges then Wrap(s.total + ChargeFor(c)) else s.total,
         billed := if charges then s.billed + 1 else s.billed)
    case End(i) =>
      s.(calls := s.calls[i := s.calls[i].(phase := Ended)], pending := s.pending - 1,
         closed := if s.pending == 1 then s.closed + {s.idle} else s.closed)
    case StartWait => s.(waiters := s.waiters + [Waiter(if s.pending == 0 then 0 else s.idle, |s.calls|)])
  }

  /** Wait returns true (with a live context): nothing was pending, or the channel it watches has been closed. */
  predicate MayReturn(s: State, w: Waiter) { w.channel == 0 || w.channel in s.closed }

  // ---------- invariant ----------

  function Unended(cs: seq<Call>): nat {
    if cs == [] then 0 else Unended(cs[..|cs| - 1]) + if cs[|cs| - 1].phase.Ended? then 0 else 1
  }

  function SumCharged(cs: seq<Call>): int {
    if cs == [] then 0 else SumCharged(cs[..|cs| - 1]) + ChargeFor(cs[|cs| - 1])
  }

  function SumExact(cs: seq<Call>): int {
    if cs == [] then 0 else SumExact(cs[..|cs| - 1]) + ExactFor(cs[|cs| - 1])
  }

  function Commits(cs: seq<Call>): nat {
    if cs == [] then 0 else Commits(cs[..|cs| - 1]) + if cs[|cs| - 1].committed.Some? then 1 else 0
  }

  predicate CallOk(c: Call) {
    && c.settlements == (if c.reserved && (c.phase.Settled? || c.phase.Ended?) then 1 else 0)
    && (c.committed.Some? ==> c.settlements == 1)
  }

  predicate AllEnded(cs: seq<Call>, n: nat) { n <= |cs| && forall i :: 0 <= i < n ==> cs[i].phase.Ended? }

  predicate Inv(s: State) {
    && (forall c <- s.calls :: CallOk(c))
    && s.pending == Unended(s.calls)
    && s.total == Wrap(SumCharged(s.calls)) && s.billed == Commits(s.calls)
    && (s.idle == 0 ==> s.pending == 0)
    && (forall ch <- s.closed :: 0 < ch <= s.idle)
    && (s.pending > 0 ==> s.idle !in s.closed)
    && (forall w <- s.waiters :: w.channel <= s.idle && (MayReturn(s, w) ==> AllEnded(s.calls, w.before)))
    && (forall w <- s.waiters :: w.before <= |s.calls|)
  }

  lemma {:induction false} SumsUpdate(cs: seq<Call>, i: nat, c: Call)
    requires i < |cs|
    ensures Unended(cs[i := c]) == Unended(cs) - (if cs[i].phase.Ended? then 0 else 1) +
            (if c.phase.Ended? then 0 else 1)
    ensures SumCharged(cs[i := c]) == SumCharged(cs) - ChargeFor(cs[i]) + ChargeFor(c)
    ensures Commits(cs[i := c]) ==
            Commits(cs) - (if cs[i].committed.Some? then 1 else 0) + (if c.committed.Some? then 1 else 0)
    decreases |cs|
  {
    var n := |cs| - 1;
    if i == n {
      assert cs[i := c][..n] == cs[..n];
    } else {
      assert cs[i := c][..n] == cs[..n][i := c];
      SumsUpdate(cs[..n], i, c);
    }
  }

  lemma {:induction false} NoneUnended(cs: seq<Call>)
    requires Unended(cs) == 0
    ensures AllEnded(cs, |cs|)
    decreases |cs|
  {
    if cs != [] { NoneUnended(cs[..|cs| - 1]); }
  }

  lemma BeginKeeps(s: State, reserved: bool, price: Price)
    requires Inv(s)
    ensures Inv(Step(s, Begin(reserved, price)))
  {
    var t := Step(s, Begin(reserved, price));
    assert t.calls[..|s.calls|] == s.calls;
  }

  /** One call changes in a way that neither ends it nor charges for it. */
  lemma CallKeeps(s: State, i: nat, c: Call)
    requires Inv(s) && i < |s.calls| && CallOk(c) && c.committed == s.calls[i].committed
    requires c.phase.Ended? == s.calls[i].phase.Ended?
    ensures Inv(s.(calls := s.calls[i := c]))
  {
    SumsUpdate(s.calls, i, c);
  }

  lemma SettleKeeps(s: State, i: nat, ok: bool)
    requires Inv(s) && Enabled(s, Settle(i, ok))
    ensures Inv(Step(s, Settle(i, ok)))
  {
    var c := SettledCall(s.calls[i], ok);
    assert CallOk(s.calls[i]);
    SumsUpdate(s.calls, i, c);
    WrapSum(SumCharged(s.calls), ChargeFor(c));
  }

  lemma EndKeeps(s: State, i: nat)
    requires Inv(s) && Enabled(s, End(i))
    ensures Inv(Step(s, End(i)))
  {
    var c := s.calls[i].(phase := Ended);
    var t := Step(s, End(i));
    assert CallOk(s.calls[i]);
    SumsUpdate(s.calls, i, c);
    if s.pending == 1 { NoneUnended(t.calls); }
  }

  lemma StartWaitKeeps(s: State)
    requires Inv(s)
    ensures Inv(Step(s, StartWait))
  {
    if s.pending == 0 { NoneUnended(s.calls); }
  }

  lemma StepKeeps(s: State, e: Event)
    requires Inv(s) && Enabled(s, e)
    ensures Inv(Step(s, e))
  {
    match e
    case Begin(reserved, price) => BeginKeeps(s, reserved, price);
    case Abandon(i) =>
      assert CallOk(s.calls[i]);
      CallKeeps(s, i, s.calls[i].(abandoned := true));
    case Receive(i, answer) =>
      assert CallOk(s.calls[i]);
      CallKeeps(s, i, s.calls[i].(phase := Answered(answer)));
    case Settle(i, ok) => SettleKeeps(s, i, ok);
    case End(i) => EndKeeps(s, i);
    case StartWait => StartWaitKeeps(s);
  }

  // ---------- whole runs ----------

  predicate Possible(s: State, run: seq<Event>)
    decreases |run|
  {
    run == [] || (Enabled(s, run[0]) && Possible(Step(s, run[0]), run[1..]))
  }

  function Run(s: State, run: seq<Event>): State
    requires Possible(s, run)
    decreases |run|
  {
    if run == [] then s else Run(Step(s, run[0]), run[1..])
  }

  const Initial := State([], 0, 0, {}, 0, 0, [])

  lemma {:induction false} RunKeeps(s: State, run: seq<Event>)
    requires Inv(s) && Possible(s, run)
    ensures Inv(Run(s, run))
    decreases |run|
  {
    if run != [] {
      StepKeeps(s, run[0]);
      RunKeeps(Step(s, run[0]), run[1..]);
    }
  }

  /** Every reservation is settled once when its worker is done and never twice, whether or not the attempt was
      abandoned; the billed total is the sum of the successful commits; and a Wait that returns true saw every call
      that had begun before it end, and so settle. */
  lemma EveryRunSettles(run: seq<Event>)
    requires Possible(Initial, run)
    ensures var s := Run(Initial, run);
            && (forall c <- s.calls :: c.settlements <= 1)
            && (forall c <- s.calls :: c.phase.Ended? && c.reserved ==> c.settlements == 1)
            && s.total == Wrap(SumCharged(s.calls)) && s.billed == Commits(s.calls)
            && (forall w <- s.waiters :: MayReturn(s, w) ==> AllEnded(s.calls, w.before))
  {
    assert SumCharged([]) == 0 && Wrap(0) == 0;
    RunKeeps(Initial, run);
    var s := Run(Initial, run);
    forall c <- s.calls ensures c.settlements <= 1 && (c.phase.Ended? && c.reserved ==> c.settlements == 1) {
      assert CallOk(c);
    }
  }

  // ---------- workers left to themselves ----------

  /** Steps that the workers have left. */
  function Left(c: Call): nat {
    match c.phase { case Begun => 3 case Answered(_) => 2 case Settled => 1 case Ended => 0 }
  }

  function Work(cs: seq<Call>): nat { if cs == [] then 0 else Work(cs[..|cs| - 1]) + Left(cs[|cs| - 1]) }

  lemma {:induction false} WorkUpdate(cs: seq<Call>, i: nat, c: Call)
    requires i < |cs|
    ensures Work(cs[i := c]) == Work(cs) - Left(cs[i]) + Left(c)
    decreases |cs|
  {
    var n := |cs| - 1;
    if i == n {
      assert cs[i := c][..n] == cs[..n];
    } else {
      assert cs[i := c][..n] == cs[..n][i := c];
      WorkUpdate(cs[..n], i, c);
    }
  }

  lemma {:induction false} SomeWork(cs: seq<Call>) returns (i: nat)
    requires Unended(cs) > 0
    ensures i < |cs| && !cs[i].phase.Ended?
    decreases |cs|
  {
    var n := |cs| - 1;
    if cs[n].phase.Ended? { i := SomeWork(cs[..n]); } else { i := n; }
  }

  predicate WorkersOnly(run: seq<Event>) { forall e <- run :: e.Receive? || e.Settle? || e.End? }

  /** The next step of a worker that has not ended, whether or not its attempt still waits for it. */
  function NextStep(s: State, i: nat): (e: Event)
    requires i < |s.calls| && !s.calls[i].phase.Ended? && s.pending > 0
    ensures Enabled(s, e) && (e.Receive? || e.Settle? || e.End?)
  {
    match s.calls[i].phase
    case Begun => Receive(i, Failed)
    case Answered(_) => Settle(i, true)
    case Settled => End(i)
  }

  lemma NextStepWorks(s: State, i: nat)
    requires i < |s.calls| && !s.calls[i].phase.Ended? && s.pending > 0
    ensures Work(Step(s, NextStep(s, i)).calls) == Work(s.calls) - 1
  {
    var t := Step(s, NextStep(s, i));
    assert t.calls == s.calls[i := t.calls[i]];
    WorkUpdate(s.calls, i, t.calls[i]);
  }

  /** From every state of every run the workers alone, abandoned or not, can bring every call to its end; then every
      reservation is settled, nothing is pending, and every Wait may return. */
  lemma {:induction false} AllCanSettle(s: State) returns (run: seq<Event>)
    requires Inv(s)
    ensures WorkersOnly(run) && Possible(s, run)
    ensures var t := Run(s, run);
            && Inv(t) && t.pending == 0 && AllEnded(t.calls, |t.calls|) && t.waiters == s.waiters
            && (forall c <- t.calls :: c.reserved ==> c.settlements == 1)
    decreases Work(s.calls)
  {
    if s.pending == 0 {
      run := [];
      NoneUnended(s.calls);
      forall c <- s.calls ensures c.reserved ==> c.settlements == 1 { assert CallOk(c); }
    } else {
      var i := SomeWork(s.calls);
      var e := NextStep(s, i);
      StepKeeps(s, e);
      NextStepWorks(s, i);
      run := AllCanSettle(Step(s, e));
      assert ([e] + run)[1..] == run;
      run := [e] + run;
    }
  }

  // ---------- what a run of commits costs ----------

  /** The rounded-up numerator of every successful commit fits in an int64. */
  predicate AllFit(cs: seq<Call>) { forall c <- cs :: 0 <= ExactFor(c) <= Max64 - 999_999 }

  lemma {:induction false} SumsAreFair(cs: seq<Call>)
    requires AllFit(cs)
    ensures SumExact(cs) <= 1_000_000 * SumCharged(cs) <= SumExact(cs) + 999_999 * Commits(cs)
    decreases |cs|
  {
    if cs != [] {
      var c := cs[|cs| - 1];
      SumsAreFair(cs[..|cs| - 1]);
      assert c in cs;
      if c.committed.Some? {
        ChargeIsCeiling(c.committed.value.prompt, c.committed.value.completion, c.committed.value.price);
      }
    }
  }

  /** After any run, n billed iterations have charged at least the exact price and less than n minor units more. */
  lemma RunsChargeFairly(run: seq<Event>)
    requires Possible(Initial, run) && AllFit(Run(Initial, run).calls) && SumCharged(Run(Initial, run).calls) <= Max64
    ensures var s := Run(Initial, run);
            && SumExact(s.calls) <= 1_000_000 * s.total <= SumExact(s.calls) + 999_999 * s.billed
  {
    EveryRunSettles(run);
    var s := Run(Initial, run);
    SumsAreFair(s.calls);
    ExactIsNotNegative(s.calls);
    WrapIs(SumCharged(s.calls), 0);
  }

  lemma {:induction false} ExactIsNotNegative(cs: seq<Call>)
    requires AllFit(cs)
    ensures SumExact(cs) >= 0
    decreases |cs|
  {
    if cs != [] {
      ExactIsNotNegative(cs[..|cs| - 1]);
      assert cs[|cs| - 1] in cs;
    }
  }

  // ---------- the counters ----------

  class BillingRunState {
    var pending: nat
    var idle: nat
    var closed: set<nat>

    constructor ()
      ensures pending == 0 && idle == 0 && closed == {}
    {
      pending, idle, closed := 0, 0, {};
    }

    ghost predicate Matches(s: State)
      reads this
    {
      pending == s.pending && idle == s.idle && closed == s.closed
    }

    method BeginCall(ghost s: State, ghost reserved: bool, ghost price: Price)
      requires Matches(s)
      modifies this
      ensures Matches(Step(s, Begin(reserved, price)))
    {
      if pending == 0 { idle := idle + 1; }
      pending := pending + 1;
    }

    method EndCall(ghost s: State, ghost i: nat)
      requires Matches(s) && Inv(s) && Enabled(s, End(i))
      modifies this
      ensures Matches(Step(s, End(i)))
    {
      pending := pending - 1;
      if pending == 0 { closed := closed + {idle}; }
    }

    /** The locked part of Wait: what to wait for. */
    method Watch(ghost s: State) returns (w: Waiter)
      requires Matches(s)
      ensures Waiter(w.channel, |s.calls|) == Step(s, StartWait).waiters[|s.waiters|]
    {
      w := Waiter(if pending == 0 then 0 else idle, 0);
    }
  }
}
