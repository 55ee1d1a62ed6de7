/** Consequences of the reference engine that hold over every run: risk limits,
    numbering, order-type promises and the absence of trade-throughs. */
module EngineLaws {
  import opened Types
  import opened Risk
  import opened Matching
  import opened Engine
  import opened EngineInvariant

  // ---------------------------------------------------------------------
  // Risk limits are run invariants

  ghost predicate QueueWithin(risk: RiskConfig, q: seq<Order>) {
    forall i :: 0 <= i < |q| ==> WithinLimits(risk, q[i])
  }

  ghost predicate RiskInv(risk: RiskConfig, e: Engine) {
    && e.ActiveOrders() <= risk.maxActiveOrders
    && QueueWithin(risk, e.bids) && QueueWithin(risk, e.asks)
  }

  lemma {:induction false} SuffixStaysWithin(risk: RiskConfig, rest: seq<Order>, q: seq<Order>, k: nat)
    requires SuffixOf(rest, q, k) && QueueWithin(risk, q)
    ensures QueueWithin(risk, rest) && |rest| <= |q|
  {
    forall i | 0 <= i < |rest|
      ensures WithinLimits(risk, rest[i])
    {
      SmallerStaysWithin(risk, q[k + i], rest[i].quantity, q[k + i].sequence);
    }
  }

  lemma {:induction false} InsertStaysWithin(risk: RiskConfig, side: u8, q: seq<Order>, o: Order)
    requires QueueWithin(risk, q) && WithinLimits(risk, o)
    ensures QueueWithin(risk, Insert(side, q, o)) && |Insert(side, q, o)| == |q| + 1
  {
    var p := InsertAt(side, q, o);
  }

  lemma {:induction false} RemoveStaysWithin(risk: RiskConfig, q: seq<Order>, id: u64)
    requires QueueWithin(risk, q)
    ensures QueueWithin(risk, Remove(q, id)) && |Remove(q, id)| <= |q|
  {
    RemoveAt(q, id);
  }

  lemma {:induction false} AcceptKeepsRisk(risk: RiskConfig, e: Engine, o: Order)
    requires Inv(e) && RiskInv(risk, e) && Admission(risk, e, o) == NoReason
    ensures RiskInv(risk, Accept(e, o).engine)
  {
    hide Execute, Insert, Trades, Validate, WithinLimits, QueueWithin, ValidateStatic, SuffixOf;
    var other := e.Queue(OppositeSide(o.side));
    var x := Prospect(e, o);
    LivePositive(OppositeSide(o.side), other, e);
    var k := RestIsSuffix(o, o.quantity, other);
    SuffixStaysWithin(risk, x.rest, other, k);
    ExecuteLeavesAtMost(o, o.quantity, other);
    ValidateDecidesLimits(risk, o, e.ActiveOrders(), o.MayRest() && x.left > 0);
    if o.MayRest() && x.left > 0 {
      SmallerStaysWithin(risk, o, x.left, e.sequence + 1);
      InsertStaysWithin(risk, o.side, e.Queue(o.side), o.(quantity := x.left, sequence := e.sequence + 1));
    }
  }

  /** Under fixed limits no run ever rests more orders than the cap, nor an
      order outside its quantity, price collar or exact notional bound. */
  lemma {:induction false} RunKeepsRisk(risk: RiskConfig, e: Engine, commands: seq<Command>)
    requires Inv(e) && RiskInv(risk, e)
    ensures RiskInv(risk, Run(risk, e, commands))
  {
    if commands != [] {
      var n := |commands| - 1;
      var before := Run(risk, e, commands[..n]);
      RunKeepsInv(risk, e, commands[..n]);
      RunKeepsRisk(risk, e, commands[..n]);
      match commands[n]
      case NewOrder(o) =>
        if Admission(risk, before, o) == NoReason {
          AcceptKeepsRisk(risk, before, o);
        }
      case Cancel(id) =>
        RemoveStaysWithin(risk, before.bids, id);
        RemoveStaysWithin(risk, before.asks, id);
    }
  }

  // ---------------------------------------------------------------------
  // Numbering

  lemma {:induction false} TradesNumbered(taker: Order, fills: seq<Fill>, first: nat, sequence: nat)
    ensures var t := Trades(taker, fills, first, sequence);
            && |t| == |fills|
            && forall i :: 0 <= i < |t| ==> t[i] == TradeOf(taker, fills[i], first + i, sequence)
  {
    if fills != [] {
      TradesNumbered(taker, fills[1..], first + 1, sequence);
    }
  }

  ghost predicate NumberedFrom(t: seq<Trade>, first: nat) {
    forall i :: 0 <= i < |t| ==> t[i].id == first + i
  }

  lemma {:induction false} ApplyNumbers(risk: RiskConfig, e: Engine, c: Command)
    ensures var out := Apply(risk, e, c);
            && out.engine.sequence == e.sequence + 1 == out.report.sequence
            && out.engine.nextTrade == e.nextTrade + |out.trades|
            && NumberedFrom(out.trades, e.nextTrade)
            && out.report.tradeCount == |out.trades|
  {
    hide Execute, Trades, Insert, Remove;
    if c.NewOrder? {
      TradesNumbered(c.order, Prospect(e, c.order).fills, e.nextTrade, e.sequence + 1);
    }
  }

  /** Commands and trades are numbered without gaps or repeats over a whole run. */
  lemma {:induction false} RunNumbers(risk: RiskConfig, e: Engine, commands: seq<Command>)
    ensures var e' := Run(risk, e, commands);
            && e'.sequence == e.sequence + |commands|
            && e'.nextTrade == e.nextTrade + |Tape(risk, e, commands)|
            && NumberedFrom(Tape(risk, e, commands), e.nextTrade)
            && |Reports(risk, e, commands)| == |commands|
  {
    if commands != [] {
      var n := |commands| - 1;
      RunNumbers(risk, e, commands[..n]);
      ApplyNumbers(risk, Run(risk, e, commands[..n]), commands[n]);
    }
  }

  lemma {:induction false} FillsBounded(fills: seq<Fill>)
    requires forall i :: 0 <= i < |fills| ==> fills[i].quantity > 0
    ensures |fills| <= FilledQuantity(fills)
  {
    if fills != [] {
      FillsBounded(fills[1..]);
    }
  }

  /** A command prints at most one trade per executed unit, so the 32-bit trade
      count of its report never truncates. */
  lemma {:induction false} TradeCountFits(risk: RiskConfig, e: Engine, c: Command)
    requires Inv(e)
    ensures |Apply(risk, e, c).trades| <= Apply(risk, e, c).report.executed
  {
    ApplyNumbers(risk, e, c);
    if c.NewOrder? && Admission(risk, e, c.order) == NoReason {
      var other := e.Queue(OppositeSide(c.order.side));
      LivePositive(OppositeSide(c.order.side), other, e);
      ExecuteRespectsPriority(c.order, c.order.quantity, other);
      FillsBounded(Prospect(e, c.order).fills);
    }
  }

  lemma {:induction false} VolumeBounded(q: seq<Order>)
    ensures Volume(q) <= |q| * 0xFFFF_FFFF
  {
    if q != [] {
      VolumeBounded(q[1..]);
    }
  }

  function Count(e: Engine): nat { e.accepted + e.rejected + e.canceled }

  lemma {:induction false} EmptyOk()
    ensures Inv(EMPTY) && Count(EMPTY) == 0
  {
  }

  /** A fill either empties its maker or ends the taker. */
  lemma {:induction false} FillsFinishOrders(taker: Order, qty: nat, q: seq<Order>)
    requires qty > 0
    ensures var x := Execute(taker, qty, q); |x.fills| + |x.rest| <= |q| + (if x.left == 0 then 1 else 0)
    decreases |q|
  {
    hide Crosses;
    if q != [] && Crosses(taker, q[0].price) && q[0].quantity < qty {
      FillsFinishOrders(taker, qty - q[0].quantity, q[1..]);
    }
  }

  /** The orders a command finishes pay for the trades it prints. */
  lemma {:induction false} AcceptGrows(e: Engine, o: Order)
    requires o.ValidSide() && o.quantity > 0
    ensures var out := Accept(e, o); |out.trades| + out.engine.ActiveOrders() <= e.ActiveOrders() + 1
    ensures Count(Accept(e, o).engine) == Count(e) + 1
  {
    hide Execute, Insert, Trades;
    var own, other := e.Queue(o.side), e.Queue(OppositeSide(o.side));
    var x := Prospect(e, o);
    FillsFinishOrders(o, o.quantity, other);
    ExecuteLeavesAtMost(o, o.quantity, other);
    if o.MayRest() && x.left > 0 {
      var p := InsertAt(o.side, own, o.(quantity := x.left, sequence := e.sequence + 1));
    }
  }

  lemma {:induction false} ApplyGrows(risk: RiskConfig, e: Engine, c: Command)
    ensures var out := Apply(risk, e, c); |out.trades| + out.engine.ActiveOrders() <= e.ActiveOrders() + 1
    ensures Count(Apply(risk, e, c).engine) <= Count(e) + 1
  {
    hide Accept, Admission, Remove, Find, Inv;
    match c
    case NewOrder(o) =>
      if Admission(risk, e, o) == NoReason {
        AdmittedIsValid(risk, e, o);
        AcceptGrows(e, o);
      }
    case Cancel(id) =>
      RemoveAt(e.bids, id);
      RemoveAt(e.asks, id);
  }

  /** Every trade finishes an order: over any run there are no more trades and resting
      orders together than commands. */
  lemma {:induction false} TradesPaidByOrders(risk: RiskConfig, commands: seq<Command>)
    ensures |Tape(risk, EMPTY, commands)| + Run(risk, EMPTY, commands).ActiveOrders() <= |commands|
    ensures Count(Run(risk, EMPTY, commands)) <= |commands|
  {
    hide Apply, Count;
    if commands == [] {
      EmptyOk();
    } else {
      var n := |commands| - 1;
      TradesPaidByOrders(risk, commands[..n]);
      ApplyGrows(risk, Run(risk, EMPTY, commands[..n]), commands[n]);
    }
  }

  /** No 64-bit counter wraps while the commands themselves can be numbered, so the
      unbounded numbers of this model are the machine's. */
  lemma {:induction false} CountersFit(risk: RiskConfig, commands: seq<Command>)
    requires |commands| < WORD - 1
    ensures var e := Run(risk, EMPTY, commands);
            e.sequence < WORD && e.nextTrade < WORD && Count(e) < WORD && e.ActiveOrders() < WORD
  {
    hide Run, Tape, Count;
    TradesPaidByOrders(risk, commands);
    RunNumbers(risk, EMPTY, commands);
    EmptyNumbers();
  }

  lemma {:induction false} EmptyNumbers()
    ensures EMPTY.sequence == 0 && EMPTY.nextTrade == 1 && EMPTY.ActiveOrders() == 0
  {
  }

  /** Nor does any sum of resting quantity, of a level or of a side, when the limits
      cap the book at 2^32 orders; nor, without a cap, over 2^32 commands. */
  lemma {:induction false} TotalsFit(risk: RiskConfig, commands: seq<Command>)
    requires risk.maxActiveOrders <= 0x1_0000_0000 || |commands| <= 0x1_0000_0000
    ensures var e := Run(risk, EMPTY, commands); Volume(e.bids) + Volume(e.asks) < WORD
  {
    hide Run, Tape, Count, Inv, Volume, QueueWithin;
    var e := Run(risk, EMPTY, commands);
    TradesPaidByOrders(risk, commands);
    EmptyOk();
    EmptyWithin(risk);
    RunKeepsRisk(risk, EMPTY, commands);
    VolumeBounded(e.bids);
    VolumeBounded(e.asks);
  }

  lemma {:induction false} EmptyWithin(risk: RiskConfig)
    ensures RiskInv(risk, EMPTY)
  {
  }

  // ---------------------------------------------------------------------
  // Promises to order types

  /** Whether and where the accepted order rests. */
  lemma {:induction false} AcceptRests(risk: RiskConfig, e: Engine, o: Order)
    requires Inv(e) && Admission(risk, e, o) == NoReason
    ensures o.id in Ids(Accept(e, o).engine.Queue(o.side)) <==> o.MayRest() && Prospect(e, o).left > 0
  {
    var own := e.Queue(o.side);
    var x := Prospect(e, o);
    ExecuteLeavesAtMost(o, o.quantity, e.Queue(OppositeSide(o.side)));
    NotResting(o.side, own, o.id, e);
    if o.MayRest() && x.left > 0 {
      var r := o.(quantity := x.left, sequence := e.sequence + 1);
      var p := InsertAt(o.side, own, r);
      InsertedIds(own, r, p);
    }
  }

  /** What the documentation promises for each kind of accepted order. */
  ghost predicate KeepsPromise(e: Engine, o: Order, out: Outcome) {
    && out.engine.seen == e.seen + {o.id} && o.id !in e.seen
    && (o.tif == FOK ==> out.report.status == Filled && out.report.executed == o.quantity)
    && (o.PostOnly() ==> out.report.status == Resting && out.trades == [])
    && (o.id in Ids(out.engine.Queue(o.side)) <==> o.MayRest() && out.report.remaining > 0)
  }

  /** A rejection changes nothing but the counters and does not consume the id. */
  ghost predicate NothingHappened(e: Engine, out: Outcome) {
    && out.trades == [] && out.report.reason != NoReason
    && out.engine.bids == e.bids && out.engine.asks == e.asks && out.engine.seen == e.seen
  }

  lemma {:induction false} OrderSemantics(risk: RiskConfig, e: Engine, o: Order)
    requires Inv(e)
    ensures var out := ProcessOrder(risk, e, o);
            && out.report.requested == out.report.executed + out.report.remaining
            && (if out.report.Accepted() then KeepsPromise(e, o, out) else NothingHappened(e, out))
  {
    if Admission(risk, e, o) == NoReason {
      AcceptRests(risk, e, o);
      LivePositive(OppositeSide(o.side), e.Queue(OppositeSide(o.side)), e);
      ExecuteRespectsPriority(o, o.quantity, e.Queue(OppositeSide(o.side)));
    }
  }

  ghost predicate HasPriority(side: u8, a: Order, b: Order) {
    Better(side, a.price, b.price) || (a.price == b.price && a.sequence < b.sequence)
  }

  /** No trade-through: each trade prints at its maker's price, inside the
      taker's limit, and nothing that still rests had priority over a maker
      that was hit. */
  lemma {:induction false} NoTradeThrough(risk: RiskConfig, e: Engine, o: Order)
    requires Inv(e) && Admission(risk, e, o) == NoReason
    ensures var out := Accept(e, o);
            var fills := Prospect(e, o).fills;
            var other := OppositeSide(o.side);
            var rest := out.engine.Queue(other);
            && |out.trades| == |fills|
            && (forall i :: 0 <= i < |fills| ==>
                  && out.trades[i].price == fills[i].maker.price
                  && out.trades[i].quantity == fills[i].quantity
                  && LimitAllows(o, out.trades[i].price))
            && (forall i, j :: 0 <= i < |fills| && 0 <= j < |rest| && rest[j].id != fills[i].maker.id ==>
                  HasPriority(other, fills[i].maker, rest[j]))
  {
    var q := e.Queue(OppositeSide(o.side));
    var x := Prospect(e, o);
    LivePositive(OppositeSide(o.side), q, e);
    ExecuteRespectsPriority(o, o.quantity, q);
    TradesNumbered(o, x.fills, e.nextTrade, e.sequence + 1);
    FilledBeforeRest(OppositeSide(o.side), q, x.fills);
  }

  lemma {:induction false} FilledBeforeRest(side: u8, q: seq<Order>, fills: seq<Fill>)
    requires PriorityOrdered(side, q) && |fills| <= |q|
    requires forall i :: 0 <= i < |fills| ==> fills[i].maker == q[i] && fills[i].quantity <= q[i].quantity
    ensures var rest := Remainder(q, fills);
            forall i, j :: 0 <= i < |fills| && 0 <= j < |rest| && rest[j].id != fills[i].maker.id ==>
              HasPriority(side, fills[i].maker, rest[j])
  {
    var rest := Remainder(q, fills);
    forall i, j | 0 <= i < |fills| && 0 <= j < |rest| && rest[j].id != fills[i].maker.id
      ensures HasPriority(side, fills[i].maker, rest[j])
    {
      var m := |q| - |rest| + j;
      assert rest[j] == q[m].(quantity := rest[j].quantity);
      assert i < m;
    }
  }

  // ---------------------------------------------------------------------
  // The incoming sequence number is ignored

  function Unsequenced(c: Command): Command {
    match c
    case NewOrder(o) => NewOrder(o.(sequence := 0))
    case Cancel(_) => c
  }

  lemma {:induction false} ExecuteIgnoresSequence(taker: Order, qty: nat, q: seq<Order>)
    ensures Execute(taker.(sequence := 0), qty, q) == Execute(taker, qty, q)
    decreases |q|
  {
    if qty != 0 && q != [] && Crosses(taker, q[0].price) && q[0].quantity <= qty {
      ExecuteIgnoresSequence(taker, qty - q[0].quantity, q[1..]);
    }
  }

  lemma {:induction false} TradesIgnoreSequence(taker: Order, fills: seq<Fill>, first: nat, sequence: nat)
    ensures Trades(taker.(sequence := 0), fills, first, sequence) == Trades(taker, fills, first, sequence)
  {
    if fills != [] {
      TradesIgnoreSequence(taker, fills[1..], first + 1, sequence);
    }
  }

  lemma {:induction false} ProspectIgnoresSequence(e: Engine, o: Order)
    ensures Prospect(e, o.(sequence := 0)) == Prospect(e, o)
  {
    ExecuteIgnoresSequence(o, o.quantity, e.Queue(OppositeSide(o.side)));
  }

  lemma {:induction false} AdmissionIgnoresSequence(risk: RiskConfig, e: Engine, o: Order)
    ensures Admission(risk, e, o.(sequence := 0)) == Admission(risk, e, o)
  {
    hide Prospect, Crosses;
    ProspectIgnoresSequence(e, o);
  }

  lemma {:induction false} AcceptIgnoresSequence(e: Engine, o: Order)
    ensures Accept(e, o.(sequence := 0)) == Accept(e, o)
  {
    ProspectIgnoresSequence(e, o);
    TradesIgnoreSequence(o, Prospect(e, o).fills, e.nextTrade, e.sequence + 1);
  }

  /** The engine assigns sequence numbers itself, so a command and its journaled
      form have the same outcome. */
  lemma {:induction false} ApplyIgnoresSequence(risk: RiskConfig, e: Engine, c: Command)
    ensures Apply(risk, e, Unsequenced(c)) == Apply(risk, e, c)
  {
    if c.NewOrder? {
      AdmissionIgnoresSequence(risk, e, c.order);
      AcceptIgnoresSequence(e, c.order);
    }
  }

  function UnsequencedAll(commands: seq<Command>): (r: seq<Command>)
    ensures |r| == |commands|
    ensures forall i :: 0 <= i < |r| ==> r[i] == Unsequenced(commands[i])
  {
    seq(|commands|, i requires 0 <= i < |commands| => Unsequenced(commands[i]))
  }

  lemma {:induction false} RunIgnoresSequence(risk: RiskConfig, e: Engine, commands: seq<Command>)
    ensures Run(risk, e, UnsequencedAll(commands)) == Run(risk, e, commands)
    ensures Tape(risk, e, UnsequencedAll(commands)) == Tape(risk, e, commands)
    ensures Reports(risk, e, UnsequencedAll(commands)) == Reports(risk, e, commands)
  {
    if commands != [] {
      var n := |commands| - 1;
      RunIgnoresSequence(risk, e, commands[..n]);
      assert UnsequencedAll(commands)[..n] == UnsequencedAll(commands[..n]);
      ApplyIgnoresSequence(risk, Run(risk, e, commands[..n]), commands[n]);
    }
  }

  /** Running a concatenation is running its parts one after the other. */
  lemma {:induction false} RunConcat(risk: RiskConfig, e: Engine, a: seq<Command>, b: seq<Command>)
    ensures Run(risk, e, a + b) == Run(risk, Run(risk, e, a), b)
  {
    hide Apply;
    if b == [] {
      assert a + b == a;
    } else {
      var n := |b| - 1;
      RunConcat(risk, e, a, b[..n]);
      assert (a + b)[..|a| + n] == a + b[..n];
      assert (a + b)[|a| + n] == b[n];
    }
  }

  /** One more command takes one more step and appends its trades to the tape. */
  lemma {:induction false} TapeSnoc(risk: RiskConfig, e: Engine, a: seq<Command>, c: Command)
    ensures Run(risk, e, a + [c]) == Apply(risk, Run(risk, e, a), c).engine
    ensures Tape(risk, e, a + [c]) == Tape(risk, e, a) + Apply(risk, Run(risk, e, a), c).trades
  {
    hide Apply;
    assert (a + [c])[..|a|] == a;
  }

  // ---------------------------------------------------------------------
  // The command that was accepted under an id

  /** `id` was accepted by command `i` of the run. */
  ghost predicate AcceptedAt(id: u64, risk: RiskConfig, commands: seq<Command>, i: nat) {
    && i < |commands|
    && commands[i].NewOrder? && commands[i].order.id == id
    && Admission(risk, Run(risk, EMPTY, commands[..i]), commands[i].order) == NoReason
  }

  lemma {:induction false} AcceptedEarlier(id: u64, risk: RiskConfig, before: seq<Command>, c: Command, i: nat)
    requires AcceptedAt(id, risk, before, i)
    ensures AcceptedAt(id, risk, before + [c], i) && (before + [c])[i] == before[i]
  {
    hide Admission, Run;
    assert (before + [c])[..i] == before[..i];
  }

  lemma {:induction false} AcceptedNow(risk: RiskConfig, before: seq<Command>, o: Order)
    requires Admission(risk, Run(risk, EMPTY, before), o) == NoReason
    ensures AcceptedAt(o.id, risk, before + [NewOrder(o)], |before|)
  {
    hide Admission, Run;
    assert (before + [NewOrder(o)])[..|before|] == before;
  }

  lemma {:induction false} SeenGrows(risk: RiskConfig, e: Engine, commands: seq<Command>)
    ensures e.seen <= Run(risk, e, commands).seen
  {
    if commands != [] {
      var n := |commands| - 1;
      SeenGrows(risk, e, commands[..n]);
      ApplySees(risk, Run(risk, e, commands[..n]), commands[n]);
    }
  }

  lemma {:induction false} ApplySees(risk: RiskConfig, e: Engine, c: Command)
    ensures e.seen <= Apply(risk, e, c).engine.seen
    ensures c.NewOrder? && Admission(risk, e, c.order) == NoReason ==> c.order.id in Apply(risk, e, c).engine.seen
  {
    hide Admission, Execute, Trades, Insert, Remove, Find;
  }

  /** An accepted id stays consumed. */
  lemma {:induction false} AcceptedIsSeen(id: u64, risk: RiskConfig, commands: seq<Command>, i: nat)
    requires AcceptedAt(id, risk, commands, i)
    ensures id in Run(risk, EMPTY, commands).seen
  {
    hide Apply, Admission;
    var first, rest := commands[..i + 1], commands[i + 1..];
    assert first[..i] == commands[..i] && first + rest == commands;
    ApplySees(risk, Run(risk, EMPTY, commands[..i]), commands[i]);
    RunConcat(risk, EMPTY, first, rest);
    SeenGrows(risk, Run(risk, EMPTY, first), rest);
  }

  /** No id is accepted twice. */
  lemma {:induction false} AcceptedOnce(id: u64, risk: RiskConfig, commands: seq<Command>, i: nat, j: nat)
    requires AcceptedAt(id, risk, commands, i) && AcceptedAt(id, risk, commands, j)
    ensures i == j
  {
    hide Run, Admission;
    if i < j {
      AcceptedBefore(id, risk, commands, i, j);
    } else if j < i {
      AcceptedBefore(id, risk, commands, j, i);
    }
  }

  lemma {:induction false} AcceptedBefore(id: u64, risk: RiskConfig, commands: seq<Command>, i: nat, j: nat)
    requires AcceptedAt(id, risk, commands, i) && i < j < |commands|
    ensures !AcceptedAt(id, risk, commands, j)
  {
    hide Run, Admission;
    assert commands[..j][..i] == commands[..i];
    AcceptedIsSeen(id, risk, commands[..j], i);
    if commands[j].NewOrder? && commands[j].order.id == id {
      SeenIsRefused(risk, Run(risk, EMPTY, commands[..j]), commands[j].order);
    }
  }

  lemma {:induction false} SeenIsRefused(risk: RiskConfig, e: Engine, o: Order)
    requires o.id in e.seen
    ensures Admission(risk, e, o) != NoReason
  {
  }
}
