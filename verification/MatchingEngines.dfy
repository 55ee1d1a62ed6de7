/** The matching engine as it runs: it updates an indexed, level-based book in
    place, decides by a level-aggregate preflight, and matches order by order.
    Every command is proved to do exactly what the reference engine does. */
module MatchingEngines {
  import opened Types
  import opened Risk
  import opened Matching
  import opened PriceLevels
  import opened BookIndex
  import opened BookAudit
  import opened OrderBooks
  import Engine
  import EngineInvariant

  // ---------------------------------------------------------------------
  // One iteration of the matching loop

  /** What is left of the front of the queue after `qty` units were taken. */
  function AfterTake(q: seq<Order>, qty: u32): seq<Order>
    requires q != [] && qty <= q[0].quantity
  {
    if qty == q[0].quantity then q[1..] else [q[0].(quantity := q[0].quantity - qty)] + q[1..]
  }

  lemma {:induction false} ExecuteStep(taker: Order, left: nat, q: seq<Order>)
    requires left > 0 && q != [] && q[0].quantity > 0 && Crosses(taker, q[0].price)
    ensures var t := Min(left, q[0].quantity);
            var x, y := Execute(taker, left, q), Execute(taker, left - t, AfterTake(q, t));
            x.fills == [Fill(q[0], t)] + y.fills && x.left == y.left && x.rest == y.rest
  {
    var t := Min(left, q[0].quantity);
    if q[0].quantity > left {
      assert [Fill(q[0], t)] + [] == [Fill(q[0], t)];
    }
  }

  lemma {:induction false} TradesSnoc(taker: Order, fills: seq<Fill>, f: Fill, first: nat, sequence: nat)
    ensures Trades(taker, fills + [f], first, sequence)
         == Trades(taker, fills, first, sequence) + [TradeOf(taker, f, first + |fills|, sequence)]
  {
    if fills == [] {
      assert fills + [f] == [f];
    } else {
      TradesSnoc(taker, fills[1..], f, first + 1, sequence);
      assert (fills + [f])[1..] == fills[1..] + [f];
    }
  }

  /** `whole` is `done` followed by what remains to be executed. */
  ghost predicate Resumes(whole: Execution, done: seq<Fill>, taker: Order, left: nat, q: seq<Order>) {
    var x := Execute(taker, left, q);
    whole.fills == done + x.fills && whole.left == x.left && whole.rest == x.rest
  }

  lemma {:induction false} ResumesStep(whole: Execution, done: seq<Fill>, taker: Order, left: nat, q: seq<Order>)
    requires Resumes(whole, done, taker, left, q)
    requires left > 0 && q != [] && q[0].quantity > 0 && Crosses(taker, q[0].price)
    ensures var t := Min(left, q[0].quantity);
            Resumes(whole, done + [Fill(q[0], t)], taker, left - t, AfterTake(q, t))
  {
    var t := Min(left, q[0].quantity);
    var f := Fill(q[0], t);
    ExecuteStep(taker, left, q);
    var rest := Execute(taker, left - t, AfterTake(q, t)).fills;
    assert done + ([f] + rest) == (done + [f]) + rest;
  }

  lemma {:induction false} ResumesStart(taker: Order, qty: nat, q: seq<Order>, out: seq<Trade>, first: nat,
                                        sequence: nat)
    ensures Resumes(Execute(taker, qty, q), [], taker, qty, q)
    ensures out == out + Trades(taker, [], first, sequence)
  {
    var fills := Execute(taker, qty, q).fills;
    assert [] + fills == fills;
  }

  lemma {:induction false} ResumesEnd(whole: Execution, done: seq<Fill>, taker: Order, left: nat, q: seq<Order>)
    requires Resumes(whole, done, taker, left, q)
    requires left == 0 || q == [] || !Crosses(taker, q[0].price)
    ensures whole == Execution(done, left, q)
  {
    assert done + [] == done;
  }

  // ---------------------------------------------------------------------
  // The book of a running engine passes its self-check

  lemma {:induction false} HeadChronological(side: u8, levels: seq<Level>)
    requires LevelsOk(side, levels) && levels != [] && Engine.PriorityOrdered(side, Queue(levels))
    ensures Chronological(levels[0].slots)
  {
    var slots, q := levels[0].slots, Queue(levels);
    forall i, j | 0 <= i < j < |slots|
      ensures slots[i].order.sequence <= slots[j].order.sequence
    {
      assert q[i] == slots[i].order && q[j] == slots[j].order;
    }
  }

  lemma {:induction false} TailQueue(side: u8, levels: seq<Level>, locations: map<u64, Location>)
    requires levels != [] && Engine.PriorityOrdered(side, Queue(levels)) && Indexed(side, Flat(levels), locations)
    ensures Engine.PriorityOrdered(side, Queue(levels[1..]))
    ensures Indexed(side, levels[0].slots, locations) && Indexed(side, Flat(levels[1..]), locations)
  {
    hide Flat, Indexed, Engine.PriorityOrdered, Orders;
    FlatHead(levels);
    TailIndexed(side, levels[0].slots, Flat(levels[1..]), locations);
    TailOrdered(side, levels[0].slots, Flat(levels[1..]));
  }

  lemma {:induction false} TailIndexed(side: u8, a: seq<Slot>, b: seq<Slot>, locations: map<u64, Location>)
    requires Indexed(side, a + b, locations)
    ensures Indexed(side, a, locations) && Indexed(side, b, locations)
  {
    assert forall i :: 0 <= i < |a| ==> a[i] == (a + b)[i];
    assert forall i :: 0 <= i < |b| ==> b[i] == (a + b)[|a| + i];
  }

  lemma {:induction false} TailOrdered(side: u8, a: seq<Slot>, b: seq<Slot>)
    requires Engine.PriorityOrdered(side, Orders(a + b))
    ensures Engine.PriorityOrdered(side, Orders(b))
  {
    assert forall i :: 0 <= i < |b| ==> Orders(b)[i] == Orders(a + b)[|a| + i];
  }

  lemma {:induction false} SideIsSound(side: u8, levels: seq<Level>, locations: map<u64, Location>)
    requires LevelsOk(side, levels) && Engine.PriorityOrdered(side, Queue(levels))
    requires Indexed(side, Flat(levels), locations)
    ensures SideSound(side, levels, locations)
    decreases |levels|
  {
    hide Chronological, Engine.PriorityOrdered, Indexed, Flat;
    if levels != [] {
      HeadChronological(side, levels);
      TailQueue(side, levels, locations);
      TailOk(side, levels);
      SideIsSound(side, levels[1..], locations);
      forall i | 0 <= i < |levels|
        ensures LevelSound(side, levels[i], locations)
      {
        if i > 0 {
          assert levels[i] == levels[1..][i - 1];
        }
      }
    }
  }

  lemma {:induction false} FrontsUncrossed(bids: seq<Level>, asks: seq<Level>)
    requires LevelsOk(BUY, bids) && LevelsOk(SELL, asks) && Engine.Uncrossed(Queue(bids), Queue(asks))
    ensures bids != [] && asks != [] ==> asks[0].price - bids[0].price > 0
  {
    if bids != [] && asks != [] {
      FrontSlot(BUY, bids);
      FrontSlot(SELL, asks);
    }
  }

  class MatchingEngine {
    const book: OrderBook
    const risk: RiskConfig
    var seen: set<u64>
    var sequence: nat
    var nextTrade: nat
    var accepted: nat
    var rejected: nat
    var canceled: nat

    ghost function View(): Engine.Engine
      reads this, book
    {
      Engine.Engine(book.Side(BUY), book.Side(SELL), seen, sequence, nextTrade, accepted, rejected, canceled)
    }

    ghost predicate Valid()
      reads this, book
    {
      book.Valid() && Engine.Inv(View())
    }

    constructor (risk: RiskConfig)
      ensures Valid() && fresh(book) && View() == Engine.EMPTY && this.risk == risk
    {
      book := new OrderBook();
      this.risk := risk;
      seen, sequence, nextTrade, accepted, rejected, canceled := {}, 0, 1, 0, 0, 0;
    }

    /** The matching loop: trades `left` units of `o` against the opposite side. */
    method Match(o: Order, outTrades: seq<Trade>) returns (left: u32, trades: seq<Trade>)
      requires book.Valid() && o.ValidSide()
      modifies this`nextTrade, book
      ensures book.Valid() && book.Side(o.side) == old(book.Side(o.side))
      ensures var x := Execute(o, o.quantity, old(book.Side(OppositeSide(o.side))));
              && left == x.left && book.Side(OppositeSide(o.side)) == x.rest
              && nextTrade == old(nextTrade) + |x.fills|
              && trades == outTrades + Trades(o, x.fills, old(nextTrade), sequence)
    {
      hide Execute, Trades, Resumes, LevelsOk, IndexOk, Flat, Orders, TradeOf;
      var opposite := OppositeSide(o.side);
      ghost var whole := Execute(o, o.quantity, book.Side(opposite));
      ghost var done: seq<Fill> := [];
      left, trades := o.quantity, outTrades;
      ResumesStart(o, o.quantity, book.Side(opposite), outTrades, nextTrade, sequence);
      while left > 0 && !book.EmptySide(opposite)
        invariant book.Valid() && book.Side(o.side) == old(book.Side(o.side))
        invariant Resumes(whole, done, o, left, book.Side(opposite))
        invariant nextTrade == old(nextTrade) + |done|
        invariant trades == outTrades + Trades(o, done, old(nextTrade), sequence)
      {
        book.FrontIsLive(opposite);
        var best := book.Levels(opposite)[0].slots[0].order;
        if !Crosses(o, best.price) {
          break;
        }
        var traded := Min(left, best.quantity);
        var fill := Fill(best, traded);
        trades := trades + [TradeOf(o, fill, nextTrade, sequence)];
        nextTrade := nextTrade + 1;
        ResumesStep(whole, done, o, left, book.Side(opposite));
        TradesSnoc(o, done, fill, old(nextTrade), sequence);
        done := done + [fill];
        book.ReduceFront(opposite, traded);
        left := left - traded;
      }
      book.EmptySideMeansEmpty(opposite);
      ResumesEnd(whole, done, o, left, book.Side(opposite));
    }

    method Reject(o: Order, reason: Reason) returns (report: Report)
      modifies this`rejected
      ensures rejected == old(rejected) + 1
      ensures report == Engine.RejectedReport(o, sequence, reason)
    {
      rejected := rejected + 1;
      report := Report(o.id, sequence, NewOrderCommand, Rejected, reason, o.quantity, 0, o.quantity, 0);
    }

    /** Every check that precedes acceptance. The preflight reads only level
        totals, yet decides what the reference decides by executing the order. */
    method Admit(o: Order) returns (reason: Reason)
      requires Valid()
      ensures reason == Engine.Admission(risk, View(), o)
    {
      hide Execute, LevelsOk, IndexOk, Flat, Orders, Engine.Inv, Validate;
      reason := Engine.ValidateStatic(o);
      if reason != NoReason {
        return;
      }
      if o.id in seen {
        return DuplicateOrderId;
      }
      var executable := book.ExecutableQuantity(o, o.quantity);
      Engine.ExecuteLeavesAtMost(o, o.quantity, book.Side(OppositeSide(o.side)));
      var mayAddActiveOrder := o.MayRest() && executable < o.quantity;
      book.CountsOrders();
      reason := Validate(risk, o, book.OrderCount(), mayAddActiveOrder);
      if reason != NoReason {
        return;
      }
      book.WouldCrossIffFills(o);
      if o.PostOnly() && book.WouldCross(o) {
        return PostOnlyWouldTrade;
      }
      if o.tif == FOK && executable < o.quantity {
        return FokNotFillable;
      }
    }

    method ProcessOrder(o: Order, outTrades: seq<Trade>) returns (report: Report, trades: seq<Trade>)
      requires Valid()
      modifies this, book
      ensures Valid()
      ensures var out := Engine.ProcessOrder(risk, old(View()), o);
              View() == out.engine && report == out.report && trades == outTrades + out.trades
    {
      hide Execute, LevelsOk, IndexOk, Flat, Orders, Engine.Inv, Validate, Trades, Insert, Engine.Admission;
      ghost var before := View();
      EngineInvariant.ApplyKeepsInv(risk, before, NewOrder(o));
      trades := outTrades;
      var reason := Admit(o);
      sequence := sequence + 1;
      if reason != NoReason {
        report := Reject(o, reason);
        assert trades == outTrades + [];
        return;
      }
      Engine.AdmittedIsValid(risk, before, o);
      seen := seen + {o.id};
      accepted := accepted + 1;
      var left;
      left, trades := Match(o, trades);
      var shouldRest := left > 0 && o.MayRest();
      if shouldRest {
        EngineInvariant.InsertCannotFail(before, o);
        book.FindsIndexed(o.id);
        var inserted := book.AddOrder(o.(quantity := left, sequence := sequence));
        assert inserted;
      }
      report := Engine.AcceptedReport(o, sequence, left, |trades| - |outTrades|);
    }

    method Cancel(id: u64) returns (report: Report)
      requires Valid()
      modifies this, book
      ensures Valid()
      ensures var out := Engine.CancelOrder(old(View()), id);
              View() == out.engine && report == out.report && out.trades == []
    {
      hide LevelsOk, IndexOk, Flat, Orders, Engine.Inv, Remove, Find;
      EngineInvariant.CancelKeepsInv(View(), id);
      sequence := sequence + 1;
      report := Report(id, sequence, CancelCommand, Rejected, InvalidOrderId, 0, 0, 0, 0);
      if id == 0 {
        return;
      }
      book.FindsIndexed(id);
      var found, order := book.CancelOrder(id);
      if !found {
        report := report.(reason := OrderNotFound);
        return;
      }
      canceled := canceled + 1;
      report := report.(status := Canceled, reason := NoReason, requested := order.quantity);
    }

    /** No run can make the self-check fail. */
    lemma {:induction false} PassesSelfCheck()
      requires Valid()
      ensures BookSound(book.bids, book.asks, book.locations)
    {
      hide LevelsOk, Flat, SideSound, Engine.PriorityOrdered, Engine.Uncrossed, DistinctSlotIds;
      var b, a := Flat(book.bids), Flat(book.asks);
      FrontsUncrossed(book.bids, book.asks);
      SideIsSound(BUY, book.bids, book.locations);
      SideIsSound(SELL, book.asks, book.locations);
      IdsConcat(b, a);
      book.IdsDistinct();
    }
  }
}
