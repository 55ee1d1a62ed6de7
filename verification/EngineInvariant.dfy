/** Every run keeps the book in order: sorted, live, indexed once and uncrossed. */
module EngineInvariant {
  import opened Types
  import opened Risk
  import opened Matching
  import opened Engine

  // ---------------------------------------------------------------------
  // What is left of a queue, and what insertion and removal do to it

  /** The remaining queue is the old one from position `k` on, with at most the
      quantity of its new front reduced. */
  ghost predicate SuffixOf(rest: seq<Order>, q: seq<Order>, k: nat) {
    && |q| == k + |rest|
    && forall i :: 0 <= i < |rest| ==>
         && 0 < rest[i].quantity <= q[k + i].quantity
         && rest[i] == q[k + i].(quantity := rest[i].quantity)
  }

  lemma {:induction false} RestIsSuffix(taker: Order, qty: nat, q: seq<Order>) returns (k: nat)
    requires AllPositive(q)
    ensures SuffixOf(Execute(taker, qty, q).rest, q, k)
    decreases |q|
  {
    hide SuffixOf;
    if qty == 0 || q == [] || !Crosses(taker, q[0].price) {
      k := 0;
      SuffixSelf(q);
    } else if q[0].quantity > qty {
      k := 0;
      SuffixReduced(q, qty);
    } else {
      k := RestIsSuffix(taker, qty - q[0].quantity, q[1..]);
      SuffixOfTail(Execute(taker, qty - q[0].quantity, q[1..]).rest, q, k);
      k := k + 1;
    }
  }

  lemma {:induction false} SuffixSelf(q: seq<Order>)
    requires AllPositive(q)
    ensures SuffixOf(q, q, 0)
  {
  }

  lemma {:induction false} SuffixReduced(q: seq<Order>, qty: nat)
    requires AllPositive(q) && q != [] && qty < q[0].quantity
    ensures SuffixOf([q[0].(quantity := q[0].quantity - qty)] + q[1..], q, 0)
  {
  }

  lemma {:induction false} SuffixOfTail(rest: seq<Order>, q: seq<Order>, k: nat)
    requires q != [] && SuffixOf(rest, q[1..], k)
    ensures SuffixOf(rest, q, k + 1)
  {
    var tail := q[1..];
    assert forall i :: 0 <= i < |tail| ==> tail[i] == q[i + 1];
  }

  lemma {:induction false} SuffixKeeps(side: u8, rest: seq<Order>, q: seq<Order>, k: nat, e: Engine)
    requires SuffixOf(rest, q, k)
    requires PriorityOrdered(side, q) && AllLive(side, q, e) && DistinctIds(q)
    ensures PriorityOrdered(side, rest) && AllLive(side, rest, e) && DistinctIds(rest)
    ensures Ids(rest) <= Ids(q)
  {
  }

  /** Where insertion puts the new order. */
  lemma {:induction false} InsertAt(side: u8, q: seq<Order>, o: Order) returns (p: nat)
    ensures p <= |q|
    ensures Insert(side, q, o) == q[..p] + [o] + q[p..]
    ensures forall i :: 0 <= i < p ==> !Better(side, o.price, q[i].price)
    ensures p < |q| ==> Better(side, o.price, q[p].price)
  {
    if q == [] || Better(side, o.price, q[0].price) {
      p := 0;
    } else {
      var tail := q[1..];
      p := InsertAt(side, tail, o);
      assert [q[0]] + (tail[..p] + [o] + tail[p..]) == q[..p + 1] + [o] + q[p + 1..];
      assert forall i :: 0 < i < p + 1 ==> q[i] == tail[i - 1];
      p := p + 1;
    }
  }

  lemma {:induction false} InsertKeepsOrder(side: u8, q: seq<Order>, o: Order)
    requires PriorityOrdered(side, q)
    requires forall i :: 0 <= i < |q| ==> q[i].sequence < o.sequence
    ensures PriorityOrdered(side, Insert(side, q, o))
  {
    var p := InsertAt(side, q, o);
    var r := Insert(side, q, o);
    assert forall i :: 0 <= i < |r| ==> r[i] == if i < p then q[i] else if i == p then o else q[i - 1];
  }

  lemma {:induction false} InsertedIds(q: seq<Order>, o: Order, p: nat)
    requires p <= |q|
    ensures Ids(q[..p] + [o] + q[p..]) == Ids(q) + {o.id}
  {
    var r := q[..p] + [o] + q[p..];
    assert forall i :: 0 <= i < p ==> r[i] == q[i];
    assert r[p] == o;
    assert forall i :: p <= i < |q| ==> r[i + 1] == q[i];
    assert forall i :: p < i < |r| ==> r[i] == q[i - 1];
    forall id | id in Ids(q)
      ensures id in Ids(r)
    {
      var i :| 0 <= i < |q| && q[i].id == id;
      assert r[if i < p then i else i + 1].id == id;
    }
  }

  lemma {:induction false} InsertedDistinct(q: seq<Order>, o: Order, p: nat)
    requires p <= |q| && DistinctIds(q) && o.id !in Ids(q)
    ensures DistinctIds(q[..p] + [o] + q[p..])
  {
    assert forall i :: 0 <= i < |q| ==> q[i].id in Ids(q);
  }

  lemma {:induction false} InsertKeepsRest(side: u8, q: seq<Order>, o: Order, e: Engine)
    requires AllLive(side, q, e) && Live(side, o, e) && DistinctIds(q) && o.id !in Ids(q)
    ensures AllLive(side, Insert(side, q, o), e)
    ensures DistinctIds(Insert(side, q, o))
    ensures Ids(Insert(side, q, o)) == Ids(q) + {o.id}
  {
    var p := InsertAt(side, q, o);
    InsertedIds(q, o, p);
    InsertedDistinct(q, o, p);
  }

  lemma {:induction false} RemovedIds(q: seq<Order>, i: nat)
    requires i < |q| && DistinctIds(q)
    ensures Ids(q[..i] + q[i + 1..]) == Ids(q) - {q[i].id}
  {
    var r := q[..i] + q[i + 1..];
    assert forall j :: 0 <= j < i ==> r[j] == q[j];
    assert forall j :: i <= j < |r| ==> r[j] == q[j + 1];
    forall id | id in Ids(q) && id != q[i].id
      ensures id in Ids(r)
    {
      var j :| 0 <= j < |q| && q[j].id == id;
      assert r[if j < i then j else j - 1].id == id;
    }
  }

  lemma {:induction false} RemovedOrder(side: u8, q: seq<Order>, i: nat)
    requires i < |q| && PriorityOrdered(side, q)
    ensures PriorityOrdered(side, q[..i] + q[i + 1..])
  {
    var r := q[..i] + q[i + 1..];
    assert forall j :: 0 <= j < |r| ==> r[j] == q[if j < i then j else j + 1];
  }

  lemma {:induction false} RemovedLive(side: u8, q: seq<Order>, i: nat, e: Engine)
    requires i < |q| && AllLive(side, q, e) && DistinctIds(q)
    ensures AllLive(side, q[..i] + q[i + 1..], e) && DistinctIds(q[..i] + q[i + 1..])
  {
    var r := q[..i] + q[i + 1..];
    assert forall j :: 0 <= j < |r| ==> r[j] == q[if j < i then j else j + 1];
  }

  lemma {:induction false} RemoveKeeps(side: u8, q: seq<Order>, id: u64, e: Engine)
    requires PriorityOrdered(side, q) && AllLive(side, q, e) && DistinctIds(q)
    ensures PriorityOrdered(side, Remove(q, id)) && AllLive(side, Remove(q, id), e) && DistinctIds(Remove(q, id))
    ensures Ids(Remove(q, id)) == Ids(q) - {id}
  {
    RemoveAt(q, id);
    var i := Find(q, id);
    if i < |q| {
      RemovedOrder(side, q, i);
      RemovedLive(side, q, i, e);
      RemovedIds(q, i);
    }
  }

  // ---------------------------------------------------------------------
  // One command keeps the invariant

  lemma {:induction false} LivePositive(side: u8, q: seq<Order>, e: Engine)
    requires AllLive(side, q, e)
    ensures AllPositive(q)
  {
  }

  /** The insert assertion of the source cannot fail: an id that was never
      accepted rests on neither side, before or after matching. */
  lemma {:induction false} InsertCannotFail(e: Engine, o: Order)
    requires Inv(e) && o.ValidSide() && o.id !in e.seen
    ensures var own, rest := e.Queue(o.side), Prospect(e, o).rest;
            Find(own, o.id) == |own| && Find(rest, o.id) == |rest|
  {
    hide Execute, Find, PriorityOrdered, Uncrossed, DistinctIds;
    var own, other := e.Queue(o.side), e.Queue(OppositeSide(o.side));
    LivePositive(OppositeSide(o.side), other, e);
    var k := RestIsSuffix(o, o.quantity, other);
    assert forall i :: 0 <= i < |own| ==> own[i].id != o.id;
    assert forall i :: 0 <= i < |other| ==> other[i].id != o.id;
  }

  /** When the front of the remaining queue is out of reach, all of it is. */
  lemma {:induction false} RestBeyondLimit(other: u8, rest: seq<Order>, o: Order)
    requires o.ValidSide() && other == OppositeSide(o.side) && o.kind == LIMIT
    requires PriorityOrdered(other, rest)
    requires rest != [] ==> !Crosses(o, rest[0].price)
    ensures forall j :: 0 <= j < |rest| ==> !Crosses(o, rest[j].price)
  {
  }

  /** The two queues, named from the taker's side. */
  ghost predicate QueuesOk(side: u8, own: seq<Order>, other: seq<Order>, e: Engine) {
    && PriorityOrdered(side, own) && PriorityOrdered(OppositeSide(side), other)
    && AllLive(side, own, e) && AllLive(OppositeSide(side), other, e)
    && DistinctIds(own) && DistinctIds(other)
    && Ids(own) !! Ids(other)
    && (if side == BUY then Uncrossed(own, other) else Uncrossed(other, own))
  }

  /** Taking from the front of the opposite queue keeps both queues in order. */
  lemma {:induction false} TakeKeepsQueues(side: u8, own: seq<Order>, other: seq<Order>, rest: seq<Order>, k: nat,
                                           e: Engine)
    requires QueuesOk(side, own, other, e) && SuffixOf(rest, other, k)
    ensures QueuesOk(side, own, rest, e)
  {
    SuffixKeeps(OppositeSide(side), rest, other, k, e);
  }

  lemma {:induction false} InsertKeepsUncrossed(own: seq<Order>, other: seq<Order>, o: Order)
    requires o.ValidSide() && (if o.side == BUY then Uncrossed(own, other) else Uncrossed(other, own))
    requires forall j :: 0 <= j < |other| ==> !Crosses(o, other[j].price)
    ensures var own' := Insert(o.side, own, o);
            if o.side == BUY then Uncrossed(own', other) else Uncrossed(other, own')
  {
    var p := InsertAt(o.side, own, o);
    var own' := Insert(o.side, own, o);
    forall i, j | 0 <= i < |own'| && 0 <= j < |other|
      ensures if o.side == BUY then own'[i].price < other[j].price else other[j].price < own'[i].price
    {
      assert own'[i] == if i < p then own[i] else if i == p then o else own[i - 1];
    }
  }

  /** Resting an order that the opposite front does not reach keeps both queues in order. */
  lemma {:induction false} RestKeepsQueues(own: seq<Order>, other: seq<Order>, o: Order, e: Engine)
    requires QueuesOk(o.side, own, other, e) && Live(o.side, o, e) && o.ValidSide()
    requires o.id !in Ids(own) && o.id !in Ids(other)
    requires forall i :: 0 <= i < |own| ==> own[i].sequence < o.sequence
    requires other != [] ==> !Crosses(o, other[0].price)
    ensures QueuesOk(o.side, Insert(o.side, own, o), other, e)
  {
    InsertKeepsOrder(o.side, own, o);
    InsertKeepsRest(o.side, own, o, e);
    RestBeyondLimit(OppositeSide(o.side), other, o);
    InsertKeepsUncrossed(own, other, o);
    assert Ids(Insert(o.side, own, o)) !! Ids(other);
  }

  /** Accepting later commands and consuming further ids keeps live orders live. */
  lemma {:induction false} LiveLater(side: u8, own: seq<Order>, other: seq<Order>, e: Engine, e': Engine)
    requires QueuesOk(side, own, other, e)
    requires e.seen <= e'.seen && e.sequence <= e'.sequence
    ensures QueuesOk(side, own, other, e')
  {
  }

  /** An id that was never accepted does not rest in the book. */
  lemma {:induction false} NotResting(side: u8, q: seq<Order>, id: u64, e: Engine)
    requires AllLive(side, q, e) && id !in e.seen
    ensures id !in Ids(q)
  {
  }

  lemma {:induction false} LiveSequences(side: u8, q: seq<Order>, e: Engine)
    requires AllLive(side, q, e)
    ensures forall i :: 0 <= i < |q| ==> q[i].sequence < e.sequence + 1
  {
  }

  /** Execution that leaves part of the taker stops at an out-of-reach maker. */
  lemma {:induction false} StopsOutOfReach(taker: Order, qty: nat, q: seq<Order>)
    requires AllPositive(q)
    ensures var x := Execute(taker, qty, q);
            x.left > 0 && x.rest != [] ==> !Crosses(taker, x.rest[0].price)
  {
    ExecuteRespectsPriority(taker, qty, q);
  }

  lemma {:induction false} AcceptKeepsInv(risk: RiskConfig, e: Engine, o: Order)
    requires Inv(e) && Admission(risk, e, o) == NoReason
    ensures Inv(Accept(e, o).engine)
  {
    hide Execute, Trades, Insert, PriorityOrdered, AllLive, DistinctIds, Uncrossed, Ids, SuffixOf, AllPositive;
    var own, other := e.Queue(o.side), e.Queue(OppositeSide(o.side));
    var x := Prospect(e, o);
    var e' := Accept(e, o).engine;
    assert QueuesOk(o.side, own, other, e);
    LivePositive(OppositeSide(o.side), other, e);
    var k := RestIsSuffix(o, o.quantity, other);
    StopsOutOfReach(o, o.quantity, other);
    ExecuteLeavesAtMost(o, o.quantity, other);
    TakeKeepsQueues(o.side, own, other, x.rest, k, e);
    LiveSequences(o.side, own, e);
    NotResting(o.side, own, o.id, e);
    NotResting(OppositeSide(o.side), x.rest, o.id, e);
    LiveLater(o.side, own, x.rest, e, e');
    if o.MayRest() && x.left > 0 {
      RestKeepsQueues(own, x.rest, o.(quantity := x.left, sequence := e.sequence + 1), e');
    }
  }

  lemma {:induction false} RemoveUncrosses(bids: seq<Order>, asks: seq<Order>, id: u64)
    requires Uncrossed(bids, asks)
    ensures Uncrossed(Remove(bids, id), asks) && Uncrossed(bids, Remove(asks, id))
  {
    hide Remove, Find;
    RemoveAt(bids, id);
    RemoveAt(asks, id);
  }

  lemma {:induction false} CancelKeepsInv(e: Engine, id: u64)
    requires Inv(e)
    ensures Inv(CancelOrder(e, id).engine)
  {
    var e' := CancelOrder(e, id).engine;
    if e'.bids != e.bids {
      RemoveKeeps(BUY, e.bids, id, e);
      RemoveUncrosses(e.bids, e.asks, id);
    } else if e'.asks != e.asks {
      RemoveKeeps(SELL, e.asks, id, e);
      RemoveUncrosses(e.bids, e.asks, id);
    }
    LiveLater(BUY, e'.bids, e'.asks, e, e');
  }

  lemma {:induction false} ApplyKeepsInv(risk: RiskConfig, e: Engine, c: Command)
    requires Inv(e)
    ensures Inv(Apply(risk, e, c).engine)
  {
    match c
    case NewOrder(o) =>
      if Admission(risk, e, o) == NoReason {
        AcceptKeepsInv(risk, e, o);
      }
    case Cancel(id) =>
      CancelKeepsInv(e, id);
  }

  /** Every run from an orderly engine, so every run from the empty one, stays orderly. */
  lemma {:induction false} RunKeepsInv(risk: RiskConfig, e: Engine, commands: seq<Command>)
    requires Inv(e)
    ensures Inv(Run(risk, e, commands))
  {
    if commands != [] {
      var n := |commands| - 1;
      RunKeepsInv(risk, e, commands[..n]);
      ApplyKeepsInv(risk, Run(risk, e, commands[..n]), commands[n]);
    }
  }
}
