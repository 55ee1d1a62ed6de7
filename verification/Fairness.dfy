/** Nobody trades on the wrong side, beyond their limit, or without an accepted
    order: every trade of every run joins two orders that the engine accepted, a buy
    and a sell, at a price both allow. An id is accepted at most once, so the order
    behind an id is the only one. */
module Fairness {
  import opened Types
  import opened Risk
  import opened Matching
  import opened Engine
  import opened EngineInvariant
  import opened EngineLaws

  /** The terms an order keeps while it rests. */
  ghost predicate SameTerms(a: Order, b: Order) {
    a.id == b.id && a.side == b.side && a.kind == b.kind && a.price == b.price
  }

  /** The command accepted under the order's id carried these terms. */
  ghost predicate Stems(o: Order, risk: RiskConfig, commands: seq<Command>) {
    exists j: nat :: AcceptedAt(o.id, risk, commands, j) && SameTerms(commands[j].order, o)
  }

  ghost predicate AllStem(q: seq<Order>, risk: RiskConfig, commands: seq<Command>) {
    forall i :: 0 <= i < |q| ==> Stems(q[i], risk, commands)
  }

  ghost predicate Admits(o: Order, side: u8, price: int) { o.side == side && LimitAllows(o, price) }

  /** The order accepted under this id is on `side` and allows this price. */
  ghost predicate Allows(side: u8, id: u64, price: int, risk: RiskConfig, commands: seq<Command>) {
    exists j: nat :: AcceptedAt(id, risk, commands, j) && Admits(commands[j].order, side, price)
  }

  ghost predicate Fair(t: Trade, risk: RiskConfig, commands: seq<Command>) {
    && Allows(BUY, t.buyId, t.price, risk, commands)
    && Allows(SELL, t.sellId, t.price, risk, commands)
    && t.buyId != t.sellId && t.quantity > 0
  }

  ghost predicate AllFair(trades: seq<Trade>, risk: RiskConfig, commands: seq<Command>) {
    forall i :: 0 <= i < |trades| ==> Fair(trades[i], risk, commands)
  }

  // ---------------------------------------------------------------------
  // Queues

  lemma {:induction false} StemsLater(o: Order, risk: RiskConfig, commands: seq<Command>, c: Command)
    requires Stems(o, risk, commands)
    ensures Stems(o, risk, commands + [c])
  {
    hide Admission, Run;
    var j: nat :| AcceptedAt(o.id, risk, commands, j) && SameTerms(commands[j].order, o);
    AcceptedEarlier(o.id, risk, commands, c, j);
  }

  lemma {:induction false} AllStemLater(q: seq<Order>, risk: RiskConfig, commands: seq<Command>, c: Command)
    requires AllStem(q, risk, commands)
    ensures AllStem(q, risk, commands + [c])
  {
    hide Stems;
    forall i | 0 <= i < |q|
      ensures Stems(q[i], risk, commands + [c])
    {
      StemsLater(q[i], risk, commands, c);
    }
  }

  lemma {:induction false} SameTermsStem(a: Order, b: Order, risk: RiskConfig, commands: seq<Command>)
    requires Stems(a, risk, commands) && SameTerms(a, b)
    ensures Stems(b, risk, commands)
  {
    hide Admission, Run;
  }

  lemma {:induction false} SuffixStems(rest: seq<Order>, q: seq<Order>, k: nat, risk: RiskConfig,
                                       commands: seq<Command>)
    requires SuffixOf(rest, q, k) && AllStem(q, risk, commands)
    ensures AllStem(rest, risk, commands)
  {
    hide Stems;
    forall i | 0 <= i < |rest|
      ensures Stems(rest[i], risk, commands)
    {
      SameTermsStem(q[k + i], rest[i], risk, commands);
    }
  }

  lemma {:induction false} InsertStems(side: u8, q: seq<Order>, o: Order, risk: RiskConfig, commands: seq<Command>)
    requires AllStem(q, risk, commands) && Stems(o, risk, commands)
    ensures AllStem(Insert(side, q, o), risk, commands)
  {
    hide Stems, Insert;
    var p := InsertAt(side, q, o);
    var r := Insert(side, q, o);
    assert forall i :: 0 <= i < |r| ==> r[i] == if i < p then q[i] else if i == p then o else q[i - 1];
  }

  lemma {:induction false} RemoveStems(q: seq<Order>, id: u64, risk: RiskConfig, commands: seq<Command>)
    requires AllStem(q, risk, commands)
    ensures AllStem(Remove(q, id), risk, commands)
  {
    hide Stems, Remove, Find;
    RemoveAt(q, id);
  }

  // ---------------------------------------------------------------------
  // One command

  lemma {:induction false} AllowsLater(side: u8, id: u64, price: int, risk: RiskConfig, commands: seq<Command>,
                                       c: Command)
    requires Allows(side, id, price, risk, commands)
    ensures Allows(side, id, price, risk, commands + [c])
  {
    hide LimitAllows, Admission, Run;
    var j: nat :| AcceptedAt(id, risk, commands, j) && Admits(commands[j].order, side, price);
    AcceptedEarlier(id, risk, commands, c, j);
  }

  /** A resting order allows its own price. */
  lemma {:induction false} MakerAllows(m: Order, risk: RiskConfig, commands: seq<Command>)
    requires Stems(m, risk, commands) && m.kind == LIMIT
    ensures Allows(m.side, m.id, m.price, risk, commands)
  {
    hide Admission, Run;
  }

  /** The command accepted as the last one allows the prices within its limit. */
  lemma {:induction false} TakerAllows(o: Order, price: int, risk: RiskConfig, before: seq<Command>)
    requires Admission(risk, Run(risk, EMPTY, before), o) == NoReason && LimitAllows(o, price)
    ensures Allows(o.side, o.id, price, risk, before + [NewOrder(o)])
  {
    hide Admission, Run, LimitAllows;
    AcceptedNow(risk, before, o);
  }

  lemma {:induction false} TakerStems(o: Order, r: Order, risk: RiskConfig, before: seq<Command>)
    requires Admission(risk, Run(risk, EMPTY, before), o) == NoReason && SameTerms(o, r)
    ensures Stems(r, risk, before + [NewOrder(o)])
  {
    hide Admission, Run;
    AcceptedNow(risk, before, o);
  }

  lemma {:induction false} FillIsFair(o: Order, f: Fill, id: nat, sequence: nat, risk: RiskConfig, before: seq<Command>)
    requires Admission(risk, Run(risk, EMPTY, before), o) == NoReason
    requires o.ValidSide() && LimitAllows(o, f.maker.price) && f.quantity > 0
    requires Stems(f.maker, risk, before) && f.maker.kind == LIMIT && f.maker.side == OppositeSide(o.side)
    requires f.maker.id != o.id
    ensures Fair(TradeOf(o, f, id, sequence), risk, before + [NewOrder(o)])
  {
    hide Stems, Allows, Admission, Run;
    MakerAllows(f.maker, risk, before);
    AllowsLater(f.maker.side, f.maker.id, f.maker.price, risk, before, NewOrder(o));
    TakerAllows(o, f.maker.price, risk, before);
  }

  lemma {:induction false} AcceptIsFair(risk: RiskConfig, before: seq<Command>, o: Order)
    requires var e := Run(risk, EMPTY, before);
             && Inv(e) && Admission(risk, e, o) == NoReason
             && AllStem(e.Queue(OppositeSide(o.side)), risk, before)
    ensures AllFair(Accept(Run(risk, EMPTY, before), o).trades, risk, before + [NewOrder(o)])
  {
    hide Stems, Fair, Admission, Execute, Trades, Uncrossed, PriorityOrdered, Run;
    var e := Run(risk, EMPTY, before);
    AdmittedIsValid(risk, e, o);
    var q := e.Queue(OppositeSide(o.side));
    var x := Prospect(e, o);
    LivePositive(OppositeSide(o.side), q, e);
    ExecuteRespectsPriority(o, o.quantity, q);
    TradesNumbered(o, x.fills, e.nextTrade, e.sequence + 1);
    forall i | 0 <= i < |x.fills|
      ensures Fair(TradeOf(o, x.fills[i], e.nextTrade + i, e.sequence + 1), risk, before + [NewOrder(o)])
    {
      assert Live(OppositeSide(o.side), q[i], e);
      FillIsFair(o, x.fills[i], e.nextTrade + i, e.sequence + 1, risk, before);
    }
  }

  lemma {:induction false} AcceptStems(risk: RiskConfig, before: seq<Command>, o: Order)
    requires var e := Run(risk, EMPTY, before);
             && Inv(e) && Admission(risk, e, o) == NoReason
             && AllStem(e.bids, risk, before) && AllStem(e.asks, risk, before)
    ensures var e', all := Accept(Run(risk, EMPTY, before), o).engine, before + [NewOrder(o)];
            AllStem(e'.bids, risk, all) && AllStem(e'.asks, risk, all)
  {
    hide Admission, Execute, Insert, Trades, AllStem, Stems, Run;
    var e, all := Run(risk, EMPTY, before), before + [NewOrder(o)];
    AllStemLater(e.bids, risk, before, NewOrder(o));
    AllStemLater(e.asks, risk, before, NewOrder(o));
    var other := e.Queue(OppositeSide(o.side));
    var x := Prospect(e, o);
    LivePositive(OppositeSide(o.side), other, e);
    var k := RestIsSuffix(o, o.quantity, other);
    SuffixStems(x.rest, other, k, risk, all);
    ExecuteLeavesAtMost(o, o.quantity, other);
    if o.MayRest() && x.left > 0 {
      var r := o.(quantity := x.left, sequence := e.sequence + 1);
      TakerStems(o, r, risk, before);
      InsertStems(o.side, e.Queue(o.side), r, risk, all);
    }
  }

  // ---------------------------------------------------------------------
  // Whole runs

  /** Every resting order keeps the terms it was accepted with, and every trade on
      the tape is fair. */
  lemma {:induction false} RunIsFair(risk: RiskConfig, commands: seq<Command>)
    ensures AllStem(Run(risk, EMPTY, commands).bids, risk, commands)
    ensures AllStem(Run(risk, EMPTY, commands).asks, risk, commands)
    ensures AllFair(Tape(risk, EMPTY, commands), risk, commands)
  {
    hide AllStem, AllFair, Run, Tape;
    if commands == [] {
      NothingYet(risk);
    } else {
      var n := |commands| - 1;
      RunIsFair(risk, commands[..n]);
      FairSnoc(risk, commands[..n], commands[n]);
      assert commands[..n] + [commands[n]] == commands;
    }
  }

  lemma {:induction false} FairSnoc(risk: RiskConfig, before: seq<Command>, c: Command)
    requires AllStem(Run(risk, EMPTY, before).bids, risk, before)
    requires AllStem(Run(risk, EMPTY, before).asks, risk, before)
    requires AllFair(Tape(risk, EMPTY, before), risk, before)
    ensures AllStem(Run(risk, EMPTY, before + [c]).bids, risk, before + [c])
    ensures AllStem(Run(risk, EMPTY, before + [c]).asks, risk, before + [c])
    ensures AllFair(Tape(risk, EMPTY, before + [c]), risk, before + [c])
  {
    hide AllStem, AllFair, Run, Tape, Apply, Inv;
    var e := Run(risk, EMPTY, before);
    EmptyOk();
    RunKeepsInv(risk, EMPTY, before);
    ApplyIsFair(risk, before, c);
    TapeSnoc(risk, EMPTY, before, c);
    TapeFair(Tape(risk, EMPTY, before), Apply(risk, e, c).trades, risk, before, c);
  }

  lemma {:induction false} NothingYet(risk: RiskConfig)
    ensures AllStem(Run(risk, EMPTY, []).bids, risk, []) && AllStem(Run(risk, EMPTY, []).asks, risk, [])
    ensures AllFair(Tape(risk, EMPTY, []), risk, [])
  {
  }

  lemma {:induction false} ApplyIsFair(risk: RiskConfig, before: seq<Command>, c: Command)
    requires var e := Run(risk, EMPTY, before);
             Inv(e) && AllStem(e.bids, risk, before) && AllStem(e.asks, risk, before)
    ensures var out, all := Apply(risk, Run(risk, EMPTY, before), c), before + [c];
            AllStem(out.engine.bids, risk, all) && AllStem(out.engine.asks, risk, all) && AllFair(out.trades, risk, all)
  {
    hide AllStem, Inv, Accept, Admission, Remove, Find, Fair, Run;
    var e := Run(risk, EMPTY, before);
    AllStemLater(e.bids, risk, before, c);
    AllStemLater(e.asks, risk, before, c);
    match c
    case NewOrder(o) =>
      if Admission(risk, e, o) == NoReason {
        AcceptStems(risk, before, o);
        AcceptIsFair(risk, before, o);
      }
    case Cancel(id) =>
      RemoveStems(e.bids, id, risk, before + [c]);
      RemoveStems(e.asks, id, risk, before + [c]);
  }

  lemma {:induction false} TapeFair(a: seq<Trade>, b: seq<Trade>, risk: RiskConfig, commands: seq<Command>, c: Command)
    requires AllFair(a, risk, commands) && AllFair(b, risk, commands + [c])
    ensures AllFair(a + b, risk, commands + [c])
  {
    hide Allows;
    forall i | 0 <= i < |a|
      ensures Fair(a[i], risk, commands + [c])
    {
      AllowsLater(BUY, a[i].buyId, a[i].price, risk, commands, c);
      AllowsLater(SELL, a[i].sellId, a[i].price, risk, commands, c);
    }
  }

  /** The accepted order behind an id is unique, so a fair trade stays within the
      limit of whatever order was accepted under either id: a buyer never pays more
      than their limit price, a seller never gets less. */
  lemma {:induction false} TradesWithinLimits(risk: RiskConfig, commands: seq<Command>, i: nat, b: nat, s: nat)
    requires i < |Tape(risk, EMPTY, commands)|
    requires AcceptedAt(Tape(risk, EMPTY, commands)[i].buyId, risk, commands, b)
    requires AcceptedAt(Tape(risk, EMPTY, commands)[i].sellId, risk, commands, s)
    ensures commands[b].order.side == BUY && commands[s].order.side == SELL
    ensures commands[b].order.kind == LIMIT ==> Tape(risk, EMPTY, commands)[i].price <= commands[b].order.price
    ensures commands[s].order.kind == LIMIT ==> Tape(risk, EMPTY, commands)[i].price >= commands[s].order.price
  {
    hide Run, Tape, Admission;
    RunIsFair(risk, commands);
    var t := Tape(risk, EMPTY, commands)[i];
    assert Fair(t, risk, commands);
    var j: nat :| AcceptedAt(t.buyId, risk, commands, j) && Admits(commands[j].order, BUY, t.price);
    AcceptedOnce(t.buyId, risk, commands, j, b);
    var k: nat :| AcceptedAt(t.sellId, risk, commands, k) && Admits(commands[k].order, SELL, t.price);
    AcceptedOnce(t.sellId, risk, commands, k, s);
  }
}
