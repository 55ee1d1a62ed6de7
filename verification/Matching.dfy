/** Price-time priority as a specification on plain sequences.

    One side of the book is a queue of orders, best first. This module says
    what executing an incoming order against such a queue means, and proves
    that the recursive definition is the only outcome that price-time priority
    allows. */
module Matching {
  import opened Types

  /** `p` is a strictly better resting price than `q` on `side`. */
  predicate Better(side: u8, p: int, q: int) {
    if side == BUY then p > q else p < q
  }

  predicate Crosses(taker: Order, price: int) {
    taker.kind == MARKET || (if taker.side == BUY then taker.price >= price else taker.price <= price)
  }

  /** What a limit is: a buyer pays no more, a seller takes no less, and a market order
      names no price. */
  ghost predicate LimitAllows(o: Order, price: int) {
    o.kind != MARKET ==>
      && (o.side == BUY ==> price <= o.price)
      && (o.side != BUY ==> price >= o.price)
  }

  lemma {:induction false} CrossesIffAllowed(taker: Order)
    ensures forall price :: Crosses(taker, price) <==> LimitAllows(taker, price)
  {
  }

  datatype Fill = Fill(maker: Order, quantity: u32)

  datatype Execution = Execution(fills: seq<Fill>, left: nat, rest: seq<Order>)

  function Volume(q: seq<Order>): nat {
    if q == [] then 0 else q[0].quantity + Volume(q[1..])
  }

  function FilledQuantity(fills: seq<Fill>): nat {
    if fills == [] then 0 else fills[0].quantity + FilledQuantity(fills[1..])
  }

  /** Executes `qty` units of `taker` against `q`, front first. */
  function Execute(taker: Order, qty: nat, q: seq<Order>): Execution
    decreases |q|
  {
    if qty == 0 || q == [] || !Crosses(taker, q[0].price) then
      Execution([], qty, q)
    else if q[0].quantity <= qty then
      var x := Execute(taker, qty - q[0].quantity, q[1..]);
      x.(fills := [Fill(q[0], q[0].quantity)] + x.fills)
    else
      Execution([Fill(q[0], qty)], 0, [q[0].(quantity := q[0].quantity - qty)] + q[1..])
  }

  predicate AllPositive(q: seq<Order>) {
    forall i :: 0 <= i < |q| ==> q[i].quantity > 0
  }

  /** What remains of `q` after its first `|fills|` orders were filled as stated. */
  function Remainder(q: seq<Order>, fills: seq<Fill>): seq<Order>
    requires |fills| <= |q|
    requires forall i :: 0 <= i < |fills| ==> fills[i].quantity <= q[i].quantity
  {
    var k := |fills|;
    if k == 0 then q else Behind(q[k - 1], fills[k - 1].quantity, q[k..])
  }

  /** The queue from `maker` on, after `taken` units of it. */
  function Behind(maker: Order, taken: u32, rest: seq<Order>): seq<Order>
    requires taken <= maker.quantity
  {
    if taken == maker.quantity then rest else [maker.(quantity := maker.quantity - taken)] + rest
  }

  /** Price-time priority, stated without saying how to execute: the makers hit
      are a prefix of the queue, each within the taker's limit, all but the
      last consumed whole; no unit appears or disappears; and execution stops
      only when the taker is done or the next maker is out of reach. */
  ghost predicate RespectsPriority(taker: Order, qty: nat, q: seq<Order>, x: Execution) {
    && |x.fills| <= |q|
    && (forall i :: 0 <= i < |x.fills| ==>
          && x.fills[i].maker == q[i]
          && LimitAllows(taker, q[i].price)
          && 0 < x.fills[i].quantity <= q[i].quantity)
    && (forall i :: 0 <= i < |x.fills| - 1 ==> x.fills[i].quantity == q[i].quantity)
    && FilledQuantity(x.fills) + x.left == qty
    && x.rest == Remainder(q, x.fills)
    && (x.left > 0 && x.rest != [] ==> !LimitAllows(taker, x.rest[0].price))
  }

  /** Filling the front order whole and continuing by priority is by priority. */
  lemma {:induction false} FullFillExtends(taker: Order, qty: nat, q: seq<Order>, y: Execution)
    requires q != [] && 0 < q[0].quantity <= qty && LimitAllows(taker, q[0].price)
    requires RespectsPriority(taker, qty - q[0].quantity, q[1..], y)
    ensures RespectsPriority(taker, qty, q, y.(fills := [Fill(q[0], q[0].quantity)] + y.fills))
  {
    hide FilledQuantity, Remainder, LimitAllows;
    var fills := [Fill(q[0], q[0].quantity)] + y.fills;
    assert forall i :: 1 <= i < |fills| ==> fills[i] == y.fills[i - 1] && q[i] == q[1..][i - 1];
    assert fills[1..] == y.fills;
    FilledFirst(fills);
    RemainderShift(q, fills);
  }

  lemma {:induction false} FilledFirst(fills: seq<Fill>)
    requires fills != []
    ensures FilledQuantity(fills) == fills[0].quantity + FilledQuantity(fills[1..])
  {
  }

  /** A whole first fill takes the front order and leaves the rest as it was. */
  lemma {:induction false} RemainderShift(q: seq<Order>, fills: seq<Fill>)
    requires 0 < |fills| <= |q| && fills[0].quantity == q[0].quantity
    requires forall i :: 0 <= i < |fills| ==> fills[i].quantity <= q[i].quantity
    ensures forall i :: 0 <= i < |fills| - 1 ==> fills[1..][i].quantity <= q[1..][i].quantity
    ensures Remainder(q, fills) == Remainder(q[1..], fills[1..])
  {
    hide Remainder;
    TailWithin(q, fills);
    if |fills| == 1 {
      ShiftOnly(q, fills);
    } else {
      ShiftLast(q, fills);
    }
  }

  lemma {:induction false} TailWithin(q: seq<Order>, fills: seq<Fill>)
    requires 0 < |fills| <= |q|
    requires forall i :: 0 <= i < |fills| ==> fills[i].quantity <= q[i].quantity
    ensures forall i :: 0 <= i < |fills| - 1 ==> fills[1..][i].quantity <= q[1..][i].quantity
  {
    forall i | 0 <= i < |fills| - 1
      ensures fills[1..][i].quantity <= q[1..][i].quantity
    {
      assert fills[1..][i] == fills[i + 1] && q[1..][i] == q[i + 1];
    }
  }

  lemma {:induction false} ShiftOnly(q: seq<Order>, fills: seq<Fill>)
    requires |fills| == 1 <= |q| && fills[0].quantity == q[0].quantity
    ensures Remainder(q, fills) == Remainder(q[1..], fills[1..])
  {
  }

  lemma {:induction false} ShiftLast(q: seq<Order>, fills: seq<Fill>)
    requires 1 < |fills| <= |q|
    requires forall i :: 0 <= i < |fills| ==> fills[i].quantity <= q[i].quantity
    requires forall i :: 0 <= i < |fills| - 1 ==> fills[1..][i].quantity <= q[1..][i].quantity
    ensures Remainder(q, fills) == Remainder(q[1..], fills[1..])
  {
    hide Behind;
    var k := |fills|;
    TailDrops(q, k);
    assert q[1..][k - 2] == q[k - 1] && fills[1..][k - 2] == fills[k - 1];
  }

  lemma {:induction false} TailDrops(q: seq<Order>, k: nat)
    requires 0 < k <= |q|
    ensures q[1..][k - 1..] == q[k..]
  {
  }

  lemma {:induction false} ExecuteRespectsPriority(taker: Order, qty: nat, q: seq<Order>)
    requires AllPositive(q)
    ensures RespectsPriority(taker, qty, q, Execute(taker, qty, q))
    decreases |q|
  {
    hide Crosses, LimitAllows;
    CrossesIffAllowed(taker);
    if qty == 0 || q == [] || !Crosses(taker, q[0].price) {
    } else if q[0].quantity <= qty {
      ExecuteRespectsPriority(taker, qty - q[0].quantity, q[1..]);
      FullFillExtends(taker, qty, q, Execute(taker, qty - q[0].quantity, q[1..]));
    } else {
      PartialRespects(taker, qty, q);
    }
  }

  lemma {:induction false} PartialRespects(taker: Order, qty: nat, q: seq<Order>)
    requires q != [] && 0 < qty < q[0].quantity && LimitAllows(taker, q[0].price)
    ensures RespectsPriority(taker, qty, q,
                             Execution([Fill(q[0], qty)], 0, [q[0].(quantity := q[0].quantity - qty)] + q[1..]))
  {
    hide LimitAllows;
    var fills := [Fill(q[0], qty)];
    FilledFirst(fills);
    assert fills[1..] == [];
  }

  /** The converse of `FullFillExtends`. */
  lemma {:induction false} FullFillStrips(taker: Order, qty: nat, q: seq<Order>, x: Execution)
    requires RespectsPriority(taker, qty, q, x)
    requires x.fills != [] && x.fills[0].quantity == q[0].quantity
    ensures q[0].quantity <= qty
    ensures RespectsPriority(taker, qty - q[0].quantity, q[1..], x.(fills := x.fills[1..]))
  {
    hide FilledQuantity, Remainder, LimitAllows;
    var fills := x.fills[1..];
    assert forall i :: 0 <= i < |fills| ==> fills[i] == x.fills[i + 1] && q[1..][i] == q[i + 1];
    FilledFirst(x.fills);
    RemainderShift(q, x.fills);
  }

  /** Price-time priority leaves no freedom: it determines the execution. */
  lemma {:induction false} PriorityDeterminesExecution(taker: Order, qty: nat, q: seq<Order>, x: Execution)
    requires AllPositive(q)
    requires RespectsPriority(taker, qty, q, x)
    ensures x == Execute(taker, qty, q)
    decreases |q|
  {
    if x.fills == [] {
      NothingFilled(taker, qty, q, x);
    } else if x.fills[0].quantity == q[0].quantity {
      FullFillStrips(taker, qty, q, x);
      PriorityDeterminesExecution(taker, qty - q[0].quantity, q[1..], x.(fills := x.fills[1..]));
      WholeFill(taker, qty, q, x);
    } else {
      PartialFill(taker, qty, q, x);
    }
  }

  lemma {:induction false} NothingFilled(taker: Order, qty: nat, q: seq<Order>, x: Execution)
    requires RespectsPriority(taker, qty, q, x) && x.fills == []
    ensures x == Execute(taker, qty, q)
  {
    hide Crosses, LimitAllows;
    CrossesIffAllowed(taker);
    assert x == Execution([], qty, q);
  }

  lemma {:induction false} WholeFill(taker: Order, qty: nat, q: seq<Order>, x: Execution)
    requires RespectsPriority(taker, qty, q, x) && x.fills != [] && x.fills[0].quantity == q[0].quantity <= qty
    requires x.(fills := x.fills[1..]) == Execute(taker, qty - q[0].quantity, q[1..])
    ensures x == Execute(taker, qty, q)
  {
    hide FilledQuantity, Remainder, Crosses, LimitAllows;
    CrossesIffAllowed(taker);
    assert x.fills == [Fill(q[0], q[0].quantity)] + x.fills[1..];
    FilledFirst(x.fills);
  }

  lemma {:induction false} PartialFill(taker: Order, qty: nat, q: seq<Order>, x: Execution)
    requires RespectsPriority(taker, qty, q, x) && x.fills != [] && x.fills[0].quantity < q[0].quantity
    ensures x == Execute(taker, qty, q)
  {
    hide Crosses, LimitAllows;
    CrossesIffAllowed(taker);
    assert |x.fills| == 1 && x.fills == [Fill(q[0], x.fills[0].quantity)];
    FilledFirst(x.fills);
    assert x.fills[1..] == [];
  }

  /** Insertion behind every order that is at least as good. */
  function Insert(side: u8, q: seq<Order>, o: Order): seq<Order> {
    if q == [] || Better(side, o.price, q[0].price) then [o] + q
    else [q[0]] + Insert(side, q[1..], o)
  }

  function Remove(q: seq<Order>, id: u64): seq<Order> {
    if q == [] then [] else if q[0].id == id then q[1..] else [q[0]] + Remove(q[1..], id)
  }

  function Find(q: seq<Order>, id: u64): (i: nat)
    ensures i <= |q|
    ensures i < |q| ==> q[i].id == id
    ensures forall j :: 0 <= j < i ==> q[j].id != id
  {
    if q == [] || q[0].id == id then 0 else 1 + Find(q[1..], id)
  }

  lemma {:induction false} DropCons(q: seq<Order>, i: nat)
    requires i + 1 < |q|
    ensures [q[0]] + (q[1..][..i] + q[1..][i + 1..]) == q[..i + 1] + q[i + 2..]
  {
    assert q[1..][..i] == q[1..i + 1];
    assert q[1..][i + 1..] == q[i + 2..];
    assert [q[0]] + q[1..i + 1] == q[..i + 1];
  }

  /** Removal deletes exactly the order found. */
  lemma {:induction false} RemoveAt(q: seq<Order>, id: u64)
    ensures var i := Find(q, id); Remove(q, id) == if i < |q| then q[..i] + q[i + 1..] else q
  {
    hide Remove, Find;
    RemoveStep(q, id);
    if q != [] && q[0].id != id {
      var i := Find(q[1..], id);
      RemoveAt(q[1..], id);
      if i < |q[1..]| {
        DropCons(q, i);
      }
    }
  }

  /** One step of both searches. */
  lemma {:induction false} RemoveStep(q: seq<Order>, id: u64)
    ensures q == [] ==> Remove(q, id) == q && Find(q, id) == 0
    ensures q != [] && q[0].id == id ==> Find(q, id) == 0 && Remove(q, id) == q[..0] + q[1..]
    ensures q != [] && q[0].id != id ==> Find(q, id) == 1 + Find(q[1..], id)
    ensures q != [] && q[0].id != id ==> Remove(q, id) == [q[0]] + Remove(q[1..], id)
    ensures q != [] ==> q == [q[0]] + q[1..]
  {
  }

  function Ids(q: seq<Order>): set<u64> { set i | 0 <= i < |q| :: q[i].id }

  /** The trades printed for `fills`, numbered from `first`. */
  function Trades(taker: Order, fills: seq<Fill>, first: nat, sequence: nat): (t: seq<Trade>)
    ensures |t| == |fills|
  {
    if fills == [] then []
    else [TradeOf(taker, fills[0], first, sequence)] + Trades(taker, fills[1..], first + 1, sequence)
  }

  function TradeOf(taker: Order, f: Fill, id: nat, sequence: nat): Trade {
    if taker.side == BUY then Trade(id, taker.id, f.maker.id, f.maker.price, f.quantity, sequence)
    else Trade(id, f.maker.id, taker.id, f.maker.price, f.quantity, sequence)
  }
}
