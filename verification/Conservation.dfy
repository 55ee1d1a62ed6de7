/** Quantity is conserved over every run, for any group of client ids.

    Taking the group of all ids gives the book-wide equation, in which every
    trade counts twice; taking a single id gives that order's own equation. */
module Conservation {
  import opened Types
  import opened Risk
  import opened Matching
  import opened Engine
  import opened EngineLaws

  ghost function Share(group: iset<u64>, id: u64, quantity: nat): nat {
    if id in group then quantity else 0
  }

  ghost const EVERYONE: iset<u64> := iset id: u64 | true

  /** Resting quantity of the group in a queue. */
  ghost function Held(group: iset<u64>, q: seq<Order>): nat {
    if q == [] then 0 else Share(group, q[0].id, q[0].quantity) + Held(group, q[1..])
  }

  ghost function HeldBy(group: iset<u64>, e: Engine): nat {
    Held(group, e.bids) + Held(group, e.asks)
  }

  /** Quantity of the group as buyer plus quantity of the group as seller. */
  ghost function Traded(group: iset<u64>, trades: seq<Trade>): nat {
    if trades == [] then 0
    else Share(group, trades[0].buyId, trades[0].quantity)
         + Share(group, trades[0].sellId, trades[0].quantity)
         + Traded(group, trades[1..])
  }

  ghost function MakersFilled(group: iset<u64>, fills: seq<Fill>): nat {
    if fills == [] then 0
    else Share(group, fills[0].maker.id, fills[0].quantity) + MakersFilled(group, fills[1..])
  }

  /** What one command adds to the group's account, read off its public outcome. */
  datatype Account = Account(requested: nat, traded: nat, canceled: nat, expired: nat) {
    function Plus(other: Account): Account {
      Account(requested + other.requested, traded + other.traded,
              canceled + other.canceled, expired + other.expired)
    }
  }

  ghost function Entry(group: iset<u64>, c: Command, out: Outcome): Account {
    var traded := Traded(group, out.trades);
    if !out.report.Accepted() then Account(0, traded, 0, 0)
    else match c
      case NewOrder(o) =>
        Account(Share(group, o.id, out.report.requested), traded, 0,
                if o.MayRest() then 0 else Share(group, o.id, out.report.remaining))
      case Cancel(id) =>
        Account(0, traded, Share(group, id, out.report.requested), 0)
  }

  ghost function Ledger(group: iset<u64>, risk: RiskConfig, e: Engine, commands: seq<Command>): Account {
    if commands == [] then Account(0, 0, 0, 0)
    else
      var n := |commands| - 1;
      Ledger(group, risk, e, commands[..n])
      .Plus(Entry(group, commands[n], Apply(risk, Run(risk, e, commands[..n]), commands[n])))
  }

  // ---------------------------------------------------------------------
  // Local accounting

  lemma {:induction false} ExecuteConserves(group: iset<u64>, taker: Order, qty: nat, q: seq<Order>)
    ensures var x := Execute(taker, qty, q);
            && FilledQuantity(x.fills) + x.left == qty
            && Held(group, q) == Held(group, x.rest) + MakersFilled(group, x.fills)
    decreases |q|
  {
    var x := Execute(taker, qty, q);
    if qty == 0 || q == [] || !Crosses(taker, q[0].price) {
    } else if q[0].quantity <= qty {
      ExecuteConserves(group, taker, qty - q[0].quantity, q[1..]);
      assert x.fills[1..] == Execute(taker, qty - q[0].quantity, q[1..]).fills;
    } else {
      assert x.rest[1..] == q[1..];
    }
  }

  lemma {:induction false} TradesSplit(group: iset<u64>, taker: Order, fills: seq<Fill>, first: nat, sequence: nat)
    ensures Traded(group, Trades(taker, fills, first, sequence))
         == MakersFilled(group, fills) + Share(group, taker.id, FilledQuantity(fills))
  {
    if fills != [] {
      TradesSplit(group, taker, fills[1..], first + 1, sequence);
      var t := Trades(taker, fills, first, sequence);
      assert t[1..] == Trades(taker, fills[1..], first + 1, sequence);
    }
  }

  lemma {:induction false} InsertHolds(group: iset<u64>, side: u8, q: seq<Order>, o: Order)
    ensures Held(group, Insert(side, q, o)) == Held(group, q) + Share(group, o.id, o.quantity)
  {
    var r := Insert(side, q, o);
    if q == [] || Better(side, o.price, q[0].price) {
      assert r[1..] == q;
    } else {
      InsertHolds(group, side, q[1..], o);
      assert r[1..] == Insert(side, q[1..], o);
    }
  }

  lemma {:induction false} RemoveReleases(group: iset<u64>, q: seq<Order>, id: u64)
    ensures var i := Find(q, id);
            Held(group, q) == Held(group, Remove(q, id)) + if i < |q| then Share(group, id, q[i].quantity) else 0
  {
    if q != [] && q[0].id != id {
      RemoveReleases(group, q[1..], id);
      assert Remove(q, id)[1..] == Remove(q[1..], id);
      var i := Find(q[1..], id);
      assert Find(q, id) == i + 1;
    }
  }

  lemma {:induction false} TradedConcat(group: iset<u64>, a: seq<Trade>, b: seq<Trade>)
    ensures Traded(group, a + b) == Traded(group, a) + Traded(group, b)
  {
    if a == [] {
      assert a + b == b;
    } else {
      TradedConcat(group, a[1..], b);
      assert (a + b)[1..] == a[1..] + b;
    }
  }

  // ---------------------------------------------------------------------
  // One command, then every run

  /** requested + held before = traded + canceled + expired + held after. */
  ghost predicate Balanced(before: nat, a: Account, after: nat) {
    a.requested + before == a.traded + a.canceled + a.expired + after
  }

  lemma {:induction false} AcceptBalances(group: iset<u64>, e: Engine, o: Order)
    requires o.ValidSide()
    ensures Balanced(HeldBy(group, e), Entry(group, NewOrder(o), Accept(e, o)), HeldBy(group, Accept(e, o).engine))
  {
    hide Execute, Trades, Insert, Held, Traded, MakersFilled, FilledQuantity;
    var other := e.Queue(OppositeSide(o.side));
    var x := Prospect(e, o);
    ExecuteConserves(group, o, o.quantity, other);
    TradesSplit(group, o, x.fills, e.nextTrade, e.sequence + 1);
    ExecuteLeavesAtMost(o, o.quantity, other);
    if o.MayRest() && x.left > 0 {
      InsertHolds(group, o.side, e.Queue(o.side), o.(quantity := x.left, sequence := e.sequence + 1));
    }
  }

  lemma {:induction false} CancelBalances(group: iset<u64>, e: Engine, id: u64)
    ensures var out := CancelOrder(e, id);
            Balanced(HeldBy(group, e), Entry(group, Cancel(id), out), HeldBy(group, out.engine))
  {
    RemoveReleases(group, e.bids, id);
    RemoveReleases(group, e.asks, id);
  }

  lemma {:induction false} ApplyBalances(group: iset<u64>, risk: RiskConfig, e: Engine, c: Command)
    ensures var out := Apply(risk, e, c);
            Balanced(HeldBy(group, e), Entry(group, c, out), HeldBy(group, out.engine))
  {
    hide Accept, CancelOrder;
    match c
    case NewOrder(o) =>
      if Admission(risk, e, o) == NoReason {
        AcceptBalances(group, e, o);
      }
    case Cancel(id) =>
      CancelBalances(group, e, id);
  }

  /** Conservation over whole runs, for every group of ids and every start. */
  lemma {:induction false} RunConserves(group: iset<u64>, risk: RiskConfig, e: Engine, commands: seq<Command>)
    ensures Balanced(HeldBy(group, e), Ledger(group, risk, e, commands), HeldBy(group, Run(risk, e, commands)))
  {
    hide Apply, Entry, HeldBy;
    if commands != [] {
      var n := |commands| - 1;
      RunConserves(group, risk, e, commands[..n]);
      ApplyBalances(group, risk, Run(risk, e, commands[..n]), commands[n]);
    }
  }

  /** The ledger's traded column is the group's share of the printed tape. */
  lemma {:induction false} LedgerReadsTape(group: iset<u64>, risk: RiskConfig, e: Engine, commands: seq<Command>)
    ensures Ledger(group, risk, e, commands).traded == Traded(group, Tape(risk, e, commands))
  {
    hide Apply, Entry, Traded, Run;
    if commands != [] {
      var n := |commands| - 1;
      var out := Apply(risk, Run(risk, e, commands[..n]), commands[n]);
      LedgerReadsTape(group, risk, e, commands[..n]);
      TradedConcat(group, Tape(risk, e, commands[..n]), out.trades);
      EntryTrades(group, commands[n], out);
    } else {
      NothingTraded(group);
    }
  }

  lemma {:induction false} EntryTrades(group: iset<u64>, c: Command, out: Outcome)
    ensures Entry(group, c, out).traded == Traded(group, out.trades)
  {
    hide Traded;
  }

  lemma {:induction false} NothingTraded(group: iset<u64>)
    ensures Traded(group, []) == 0
  {
  }

  function TapeVolume(trades: seq<Trade>): nat {
    if trades == [] then 0 else trades[0].quantity + TapeVolume(trades[1..])
  }

  lemma {:induction false} EveryTradeCountsTwice(trades: seq<Trade>)
    ensures Traded(EVERYONE, trades) == 2 * TapeVolume(trades)
  {
    if trades != [] {
      EveryTradeCountsTwice(trades[1..]);
    }
  }

  lemma {:induction false} HeldByAll(q: seq<Order>)
    ensures Held(EVERYONE, q) == Volume(q)
  {
    if q != [] {
      HeldByAll(q[1..]);
    }
  }

  /** Book-wide: accepted quantity is twice the traded volume plus what rests,
      was canceled or expired. */
  lemma {:induction false} RunConservesVolume(risk: RiskConfig, commands: seq<Command>)
    ensures var a := Ledger(EVERYONE, risk, EMPTY, commands);
            var e := Run(risk, EMPTY, commands);
            a.requested == 2 * TapeVolume(Tape(risk, EMPTY, commands))
                           + Volume(e.bids) + Volume(e.asks) + a.canceled + a.expired
  {
    var e := Run(risk, EMPTY, commands);
    RunConserves(EVERYONE, risk, EMPTY, commands);
    LedgerReadsTape(EVERYONE, risk, EMPTY, commands);
    EveryTradeCountsTwice(Tape(risk, EMPTY, commands));
    HeldByAll(e.bids);
    HeldByAll(e.asks);
  }

  /** One command opens an id's account only by accepting it. */
  lemma {:induction false} EntryOpens(id: u64, risk: RiskConfig, e: Engine, c: Command)
    ensures var out := Apply(risk, e, c);
            var opens := c.NewOrder? && c.order.id == id && Admission(risk, e, c.order) == NoReason;
            && (opens ==> id !in e.seen && id in out.engine.seen
                          && Entry(iset{id}, c, out).requested == c.order.quantity)
            && (!opens ==> (id in out.engine.seen <==> id in e.seen)
                           && Entry(iset{id}, c, out).requested == 0)
  {
  }

  /** Client ids are consumed once: the account of a single id opens with the
      quantity of the one command that was accepted under it. */
  lemma {:induction false} OneCommandPerId(id: u64, risk: RiskConfig, commands: seq<Command>) returns (i: nat)
    ensures var a := Ledger(iset{id}, risk, EMPTY, commands);
            if id in Run(risk, EMPTY, commands).seen
            then AcceptedAt(id, risk, commands, i) && a.requested == commands[i].order.quantity
            else a.requested == 0
    ensures forall j: nat :: AcceptedAt(id, risk, commands, j) ==> id in Run(risk, EMPTY, commands).seen && j == i
  {
    i := OpeningCommand(id, risk, commands);
    forall j: nat | AcceptedAt(id, risk, commands, j)
      ensures id in Run(risk, EMPTY, commands).seen && j == i
    {
      AcceptedIsSeen(id, risk, commands, j);
      AcceptedOnce(id, risk, commands, i, j);
    }
  }

  lemma {:induction false} OpeningCommand(id: u64, risk: RiskConfig, commands: seq<Command>) returns (i: nat)
    ensures var a := Ledger(iset{id}, risk, EMPTY, commands);
            if id in Run(risk, EMPTY, commands).seen
            then AcceptedAt(id, risk, commands, i) && a.requested == commands[i].order.quantity
            else a.requested == 0
  {
    hide Entry, Apply, Admission;
    i := 0;
    if commands != [] {
      var n := |commands| - 1;
      var before := Run(risk, EMPTY, commands[..n]);
      i := OpeningCommand(id, risk, commands[..n]);
      EntryOpens(id, risk, before, commands[n]);
      if id in before.seen {
        AcceptedEarlier(id, risk, commands[..n], commands[n], i);
        assert commands[..n] + [commands[n]] == commands;
      } else {
        i := n;
      }
    }
  }

  /** Each accepted order: its quantity is what it traded on either side, plus
      what rests of it, plus what was canceled or expired. */
  lemma {:induction false} OrderConserves(id: u64, risk: RiskConfig, commands: seq<Command>) returns (i: nat)
    requires id in Run(risk, EMPTY, commands).seen
    ensures AcceptedAt(id, risk, commands, i)
    ensures var a := Ledger(iset{id}, risk, EMPTY, commands);
            commands[i].order.quantity
            == Traded(iset{id}, Tape(risk, EMPTY, commands))
               + HeldBy(iset{id}, Run(risk, EMPTY, commands)) + a.canceled + a.expired
  {
    i := OneCommandPerId(id, risk, commands);
    RunConserves(iset{id}, risk, EMPTY, commands);
    LedgerReadsTape(iset{id}, risk, EMPTY, commands);
  }
}
