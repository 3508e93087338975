/** The runtime budget: two usage counters packed into one atomic word, replaced by a
    compare-and-swap loop that any number of clients run at once. */
module Budget {
  import opened Events

  const FIELD: nat := 0x1_0000_0000
  const WORD: nat := 0x1_0000_0000_0000_0000
  const RUNTIME_MAX_EVENTS: nat := 16_384
  const RUNTIME_MAX_ENCODED_BYTES: nat := 64 * 1024 * 1024

  /** Both counters are 64-bit machine integers. */
  datatype Usage = Usage(events: nat, bytes: nat)

  const ZERO := Usage(0, 0)

  datatype BudgetError =
    | LimitExceeded(current: Usage, attempted: Usage)
    | ReleaseExceedsUsage(held: Usage, released: Usage)
    | ArithmeticOverflow
    | Unrepresentable(usage: Usage)

  datatype Outcome = Granted(usage: Usage) | Denied(error: BudgetError)

  predicate Within(u: Usage, v: Usage) {
    u.events <= v.events && u.bytes <= v.bytes
  }

  function CheckedAdd(u: Usage, v: Usage): Option<Usage> {
    if u.events + v.events >= WORD || u.bytes + v.bytes >= WORD then None
    else Some(Usage(u.events + v.events, u.bytes + v.bytes))
  }

  function CheckedSub(u: Usage, v: Usage): Option<Usage> {
    if u.events < v.events || u.bytes < v.bytes then None
    else Some(Usage(u.events - v.events, u.bytes - v.bytes))
  }

  /** The events in the upper half of the word, the bytes in the lower half. */
  function Pack(u: Usage): Option<nat> {
    if u.events >= FIELD || u.bytes >= FIELD then None else Some(u.events * FIELD + u.bytes)
  }

  function Unpack(word: nat): Usage {
    Usage(word / FIELD, word % FIELD)
  }

  /** On the machine word, shift-and-or is the sum above and shift, mask undo it. */
  lemma PackBits(events: bv64, bytes: bv64)
    requires events <= 0xFFFF_FFFF && bytes <= 0xFFFF_FFFF
    ensures (events << 32) | bytes == events * 0x1_0000_0000 + bytes
    ensures ((events << 32) | bytes) >> 32 == events
    ensures ((events << 32) | bytes) & 0xFFFF_FFFF == bytes
  {
  }

  lemma UnpackPack(u: Usage)
    requires Pack(u).Some?
    ensures Pack(u).value < WORD && Unpack(Pack(u).value) == u
  {
    var word := Pack(u).value;
    assert word / FIELD == u.events by { DivMod(u.events, u.bytes); }
    DivMod(u.events, u.bytes);
  }

  lemma DivMod(q: nat, r: nat)
    requires r < FIELD
    ensures (q * FIELD + r) / FIELD == q && (q * FIELD + r) % FIELD == r
  {
  }

  lemma PackUnpack(word: nat)
    requires word < WORD
    ensures Pack(Unpack(word)) == Some(word)
  {
  }

  /** What a client decides on the word it has observed. */
  function Decide(limits: Usage, observed: nat, released: Usage, admitted: Usage): Outcome {
    var current := Unpack(observed);
    var rest := CheckedSub(current, released);
    if rest.None? then Denied(ReleaseExceedsUsage(current, released)) else
    var attempted := CheckedAdd(rest.value, admitted);
    if attempted.None? then Denied(ArithmeticOverflow)
    else if !Within(attempted.value, limits) then Denied(LimitExceeded(current, attempted.value))
    else if Pack(attempted.value).None? then Denied(Unrepresentable(attempted.value))
    else Granted(attempted.value)
  }

  // ----- Any number of clients, one load or compare-and-swap at a time -----

  /** What a client asked for last, and what it was told. */
  datatype Report = Report(released: Usage, admitted: Usage, outcome: Outcome)

  datatype Client =
    | Idle(held: Usage, last: Option<Report>)
    | Trying(held: Usage, released: Usage, admitted: Usage, observed: nat)

  datatype World = World(limits: Usage, word: nat, clients: seq<Client>)

  datatype Op =
    | Begin(client: nat, released: Usage, admitted: Usage)
    | Exchange(client: nat, spurious: bool)

  function Total(clients: seq<Client>): Usage {
    if clients == [] then ZERO
    else
      var rest := Total(clients[..|clients| - 1]);
      var held := clients[|clients| - 1].held;
      Usage(rest.events + held.events, rest.bytes + held.bytes)
  }

  function BeginStep(w: World, c: nat, released: Usage, admitted: Usage): World
    requires c < |w.clients|
  {
    var held := w.clients[c].held;
    if Pack(released).None? || Pack(admitted).None? then
      var fault := Unrepresentable(if Pack(released).None? then released else admitted);
      w.(clients := w.clients[c := Idle(held, Some(Report(released, admitted, Denied(fault))))])
    else w.(clients := w.clients[c := Trying(held, released, admitted, w.word)])
  }

  /** One turn of the loop: give up on an error, swap the word if it is still the observed one,
      and otherwise observe it again. A weak exchange may fail without cause. */
  function ExchangeStep(w: World, c: nat, spurious: bool): World
    requires c < |w.clients| && w.clients[c].Trying?
  {
    var t := w.clients[c];
    var decision := Decide(w.limits, t.observed, t.released, t.admitted);
    var report := Some(Report(t.released, t.admitted, decision));
    if decision.Denied? then w.(clients := w.clients[c := Idle(t.held, report)])
    else if w.word == t.observed && !spurious then
      World(w.limits, Pack(decision.usage).value,
            w.clients[c := Idle(AfterReplace(t.held, t.released, t.admitted), report)])
    else w.(clients := w.clients[c := t.(observed := w.word)])
  }

  /** What a client holds after a granted replacement. */
  function AfterReplace(held: Usage, released: Usage, admitted: Usage): Usage {
    if Within(released, held)
    then Usage(held.events - released.events + admitted.events, held.bytes - released.bytes + admitted.bytes)
    else ZERO
  }

  function Step(w: World, op: Op): World {
    match op
    case Begin(c, released, admitted) =>
      if c < |w.clients| && w.clients[c].Idle? then BeginStep(w, c, released, admitted) else w
    case Exchange(c, spurious) =>
      if c < |w.clients| && w.clients[c].Trying? then ExchangeStep(w, c, spurious) else w
  }

  /** A client releases only what it holds. */
  predicate OpOk(w: World, op: Op) {
    op.Begin? && op.client < |w.clients| ==> Within(op.released, w.clients[op.client].held)
  }

  /** A client in its loop has observed at least what it holds itself. */
  predicate ClientOk(w: World, c: Client) {
    match c
    case Idle(_, last) => last.Some? ==> Possible(w, last.value)
    case Trying(held, released, admitted, observed) =>
      && Within(released, held) && Within(held, Unpack(observed)) && Within(Unpack(observed), w.limits)
      && Pack(admitted).Some?
  }

  /** What a run can tell a client: a grant within the limits; that what it wants admitted is not
      representable at all; or that the limits do not allow it. An overflow, a release beyond usage
      and an unrepresentable attempt are never reported, and a pure release is always granted. */
  predicate Possible(w: World, r: Report) {
    && (r.admitted == ZERO ==> r.outcome.Granted?)
    && match r.outcome
       case Granted(usage) => Within(r.admitted, usage) && Within(usage, w.limits)
       case Denied(Unrepresentable(usage)) => usage == r.admitted && Pack(r.admitted).None?
       case Denied(LimitExceeded(current, attempted)) =>
         && Within(r.released, current) && Within(current, w.limits) && !Within(attempted, w.limits)
         && attempted == AfterReplace(current, r.released, r.admitted)
       case Denied(_) => false
  }

  ghost predicate Inv(w: World) {
    && Pack(w.limits).Some?
    && w.word < WORD && Unpack(w.word) == Total(w.clients)
    && Within(Total(w.clients), w.limits)
    && forall i :: 0 <= i < |w.clients| ==> ClientOk(w, w.clients[i])
  }

  lemma {:induction false} TotalUpdate(clients: seq<Client>, i: nat, c: Client)
    requires i < |clients|
    ensures var t, t' := Total(clients), Total(clients[i := c]);
            && t.events + c.held.events == t'.events + clients[i].held.events
            && t.bytes + c.held.bytes == t'.bytes + clients[i].held.bytes
    ensures Within(clients[i].held, Total(clients))
    decreases |clients|
  {
    var n := |clients| - 1;
    var init := clients[..n];
    if i == n {
      assert clients[i := c][..n] == init;
    } else {
      assert clients[i := c][..n] == init[i := c];
      TotalUpdate(init, i, c);
    }
  }

  /** A client that releases what it holds can only be turned away by the limits. */
  lemma DecideOk(w: World, held: Usage, released: Usage, admitted: Usage, observed: nat)
    requires Pack(w.limits).Some? && Within(released, held) && Within(held, Unpack(observed))
    requires Within(Unpack(observed), w.limits) && Pack(admitted).Some?
    ensures var d := Decide(w.limits, observed, released, admitted);
            Possible(w, Report(released, admitted, d)) && (d.Denied? ==> d.error.LimitExceeded?)
  {
  }

  lemma ExchangeKept(w: World, c: nat, spurious: bool)
    requires Inv(w) && c < |w.clients| && w.clients[c].Trying?
    ensures Inv(ExchangeStep(w, c, spurious))
  {
    var t := w.clients[c];
    assert ClientOk(w, t);
    DecideOk(w, t.held, t.released, t.admitted, t.observed);
    var w' := ExchangeStep(w, c, spurious);
    TotalUpdate(w.clients, c, w'.clients[c]);
    var d := Decide(w.limits, t.observed, t.released, t.admitted);
    if d.Granted? { UnpackPack(d.usage); }
    hide Pack, Unpack;
  }

  /** A request that can be represented starts with the current word, any other is refused at once. */
  lemma BeginIff(w: World, c: nat, released: Usage, admitted: Usage)
    requires Inv(w) && c < |w.clients| && w.clients[c].Idle? && Within(released, w.clients[c].held)
    ensures var w', held := Step(w, Begin(c, released, admitted)), w.clients[c].held;
            w' == w.(clients := w.clients[c := if admitted.events < FIELD && admitted.bytes < FIELD
                                               then Trying(held, released, admitted, w.word)
                                               else Idle(held, Some(Report(released, admitted, Denied(Unrepresentable(admitted)))))])
  {
    HeldFits(w, c);
  }

  /** An exchange takes effect exactly if the limits allow it on the word the client observed, that word
      is still the current one and the exchange does not fail without cause; the holdings and the
      word then change together. Otherwise the limits answer, or the client observes again. */
  lemma ExchangeIff(w: World, c: nat, spurious: bool)
    requires Inv(w) && c < |w.clients| && w.clients[c].Trying?
    ensures var w', t := Step(w, Exchange(c, spurious)), w.clients[c];
            var current := Unpack(t.observed);
            var wanted := AfterReplace(current, t.released, t.admitted);
            if !Within(wanted, w.limits) then
              w' == w.(clients := w.clients[c := Idle(t.held, Some(Report(t.released, t.admitted, Denied(LimitExceeded(current, wanted)))))])
            else if w.word == t.observed && !spurious then
              && Unpack(w'.word) == wanted && w'.limits == w.limits
              && w'.clients == w.clients[c := Idle(AfterReplace(t.held, t.released, t.admitted),
                                                   Some(Report(t.released, t.admitted, Granted(wanted))))]
            else w' == w.(clients := w.clients[c := t.(observed := w.word)])
  {
    var t := w.clients[c];
    assert ClientOk(w, t);
    DecideOk(w, t.held, t.released, t.admitted, t.observed);
    var d := Decide(w.limits, t.observed, t.released, t.admitted);
    if d.Granted? { UnpackPack(d.usage); }
  }

  /** What a client holds is representable, and so is what it may release. */
  lemma HeldFits(w: World, c: nat)
    requires Inv(w) && c < |w.clients|
    ensures forall u :: Within(u, w.clients[c].held) ==> Pack(u).Some?
  {
    TotalUpdate(w.clients, c, w.clients[c]);
  }

  lemma StepKept(w: World, op: Op)
    requires Inv(w) && OpOk(w, op)
    ensures Inv(Step(w, op))
  {
    match op
    case Begin(c, released, admitted) =>
      if c < |w.clients| && w.clients[c].Idle? {
        HeldFits(w, c);
        TotalUpdate(w.clients, c, BeginStep(w, c, released, admitted).clients[c]);
      }
    case Exchange(c, spurious) =>
      if c < |w.clients| && w.clients[c].Trying? { ExchangeKept(w, c, spurious); }
  }

  function Run(w: World, ops: seq<Op>): World
    decreases |ops|
  {
    if ops == [] then w else Run(Step(w, ops[0]), ops[1..])
  }

  ghost predicate RunOk(w: World, ops: seq<Op>)
    decreases |ops|
  {
    ops == [] || (OpOk(w, ops[0]) && RunOk(Step(w, ops[0]), ops[1..]))
  }

  /** Over every interleaving of loads and exchanges the word decodes to the sum of what the
      clients hold, within both limits, and no client is ever told of an overflow, of a release
      beyond usage or of an unrepresentable attempt. */
  lemma {:induction false} BudgetConserved(w: World, ops: seq<Op>)
    requires Inv(w) && RunOk(w, ops)
    ensures var w' := Run(w, ops);
            && Inv(w') && |w'.clients| == |w.clients|
            && forall c :: 0 <= c < |w'.clients| && w'.clients[c].Idle? && w'.clients[c].last.Some? ==>
                             Possible(w', w'.clients[c].last.value)
    decreases |ops|
  {
    if ops == [] {
      assert forall c :: 0 <= c < |w.clients| ==> ClientOk(w, w.clients[c]);
    } else {
      StepKept(w, ops[0]);
      BudgetConserved(Step(w, ops[0]), ops[1..]);
    }
  }

  /** A pure release never fails: whatever the others do and however often its exchange fails
      without cause, the only answer it can get is a grant. */
  lemma ReleaseNeverDenied(w: World, ops: seq<Op>, c: nat)
    requires Inv(w) && RunOk(w, ops) && c < |w.clients|
    ensures var r := Run(w, ops).clients;
            && c < |r|
            && (r[c].Idle? && r[c].last.Some? && r[c].last.value.admitted == ZERO ==> r[c].last.value.outcome.Granted?)
  {
    BudgetConserved(w, ops);
    hide Run, Inv;
  }

  const RUNTIME_LIMITS := Usage(RUNTIME_MAX_EVENTS, RUNTIME_MAX_ENCODED_BYTES)

  /** The budget of a runtime before anybody has asked for anything. */
  function NewBudget(clients: nat): World {
    World(RUNTIME_LIMITS, 0, seq(clients, _ => Idle(ZERO, None)))
  }

  lemma {:induction false} NewTotal(clients: nat)
    ensures Total(NewBudget(clients).clients) == ZERO
  {
    if clients > 0 {
      NewTotal(clients - 1);
      assert NewBudget(clients).clients[..clients - 1] == NewBudget(clients - 1).clients;
    }
  }

  /** Over every run of any number of clients on a fresh budget with the limits of the runtime: the
      word decodes to the sum of what they hold, which stays within the limits. */
  lemma RuntimeConserved(clients: nat, ops: seq<Op>)
    requires RunOk(NewBudget(clients), ops)
    ensures var w := Run(NewBudget(clients), ops);
            && Unpack(w.word) == Total(w.clients)
            && Total(w.clients).events <= RUNTIME_MAX_EVENTS && Total(w.clients).bytes <= RUNTIME_MAX_ENCODED_BYTES
  {
    NewTotal(clients);
    LimitsStay(NewBudget(clients), ops);
    hide Run, RunOk, Total;
    BudgetConserved(NewBudget(clients), ops);
  }

  lemma {:induction false} LimitsStay(w: World, ops: seq<Op>)
    ensures Run(w, ops).limits == w.limits
    decreases |ops|
  {
    if ops != [] { LimitsStay(Step(w, ops[0]), ops[1..]); }
  }

  // ----- The loop of one client -----

  /** The word before the k-th write of the other clients. */
  function Seen(first: nat, others: seq<nat>, k: nat): nat
    requires k <= |others|
  {
    if k == 0 then first else others[k - 1]
  }

  class RuntimeBudget {
    const limits: Usage
    var word: nat

    ghost predicate Valid()
      reads this
    {
      Pack(limits).Some? && word < WORD
    }

    constructor (limits: Usage)
      requires Pack(limits).Some?
      ensures this.limits == limits && Valid() && Unpack(word) == ZERO
    {
      this.limits, word := limits, 0;
    }

    /** `others` are the words that other clients install, one before each exchange: an exchange
        fails when it finds such a word instead of the observed one. The outcome is decided on
        the word that is current when it takes effect, and only a grant changes it. */
    method TryReplace(released: Usage, admitted: Usage, others: seq<nat>) returns (o: Outcome)
      requires Valid() && forall k :: 0 <= k < |others| ==> others[k] < WORD
      modifies this
      ensures Valid()
      ensures Pack(released).None? ==> o == Denied(Unrepresentable(released)) && word == old(word)
      ensures Pack(released).Some? && Pack(admitted).None? ==> o == Denied(Unrepresentable(admitted)) && word == old(word)
      ensures Pack(released).Some? && Pack(admitted).Some? ==>
                exists k :: 0 <= k <= |others| && o == Decide(limits, Seen(old(word), others, k), released, admitted)
                            && (o.Granted? ==> Pack(o.usage) == Some(word))
                            && (o.Denied? ==> word == Seen(old(word), others, k))
    {
      if Pack(released).None? {
        return Denied(Unrepresentable(released));
      }
      if Pack(admitted).None? {
        return Denied(Unrepresentable(admitted));
      }
      var observed := word;
      var k := 0;
      while true
        invariant Valid() && 0 <= k <= |others|
        invariant word == observed == Seen(old(word), others, k)
        decreases |others| - k
      {
        o := Decide(limits, observed, released, admitted);
        if o.Denied? {
          return;
        }
        if k < |others| {
          word := others[k];
          k := k + 1;
        }
        if word == observed {
          UnpackPack(o.usage);
          word := Pack(o.usage).value;
          return;
        }
        observed := word;
      }
    }
  }
}
