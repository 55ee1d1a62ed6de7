/** The id index beside the price levels, and what each book operation does to
    both: stated on values, so that the class below only has to assign them. */
module BookIndex {
  import opened Types
  import opened Matching
  import opened PriceLevels

  /** Where a resting order is: side, price, and the list node that holds it. */
  datatype Location = Location(side: u8, price: i64, node: nat)

  function SlotIds(q: seq<Slot>): set<u64> { set i | 0 <= i < |q| :: q[i].order.id }

  ghost predicate Indexed(side: u8, q: seq<Slot>, locations: map<u64, Location>) {
    forall i :: 0 <= i < |q| ==>
      && q[i].order.id in locations
      && locations[q[i].order.id] == Location(side, q[i].order.price, q[i].node)
  }

  ghost predicate NodesBelow(q: seq<Slot>, next: nat) {
    forall i :: 0 <= i < |q| ==> q[i].node < next
  }

  /** The index knows every resting order, and nothing else. `own` is the side
      named by `side`, `other` the opposite one. */
  ghost predicate IndexOk(side: u8, own: seq<Slot>, other: seq<Slot>, locations: map<u64, Location>, next: nat) {
    && Indexed(side, own, locations) && Indexed(OppositeSide(side), other, locations)
    && locations.Keys == SlotIds(own) + SlotIds(other)
    && DistinctNodes(own) && DistinctNodes(other)
    && NodesBelow(own, next) && NodesBelow(other, next)
  }

  lemma {:induction false} InsertSlotAt(side: u8, q: seq<Slot>, s: Slot) returns (p: nat)
    ensures p <= |q| && InsertSlot(side, q, s) == q[..p] + [s] + q[p..]
  {
    if q == [] || Better(side, s.order.price, q[0].order.price) {
      p := 0;
    } else {
      p := InsertSlotAt(side, q[1..], s);
      p := p + 1;
    }
  }

  lemma {:induction false} SplicedIds(q: seq<Slot>, s: Slot, p: nat)
    requires p <= |q|
    ensures SlotIds(q[..p] + [s] + q[p..]) == SlotIds(q) + {s.order.id}
  {
    var r := q[..p] + [s] + q[p..];
    assert forall i :: 0 <= i < |r| ==> r[i] == if i < p then q[i] else if i == p then s else q[i - 1];
    forall id | id in SlotIds(q) + {s.order.id}
      ensures id in SlotIds(r)
    {
      if id == s.order.id {
        assert r[p].order.id == id;
      } else {
        var i :| 0 <= i < |q| && q[i].order.id == id;
        assert r[if i < p then i else i + 1].order.id == id;
      }
    }
  }

  /** Indexing one more slot, wherever it was spliced in. */
  lemma {:induction false} SplicedIndex(side: u8, own: seq<Slot>, locations: map<u64, Location>, s: Slot, p: nat)
    requires p <= |own| && Indexed(side, own, locations) && s.order.id !in locations
    requires DistinctNodes(own) && NodesBelow(own, s.node)
    ensures var r := own[..p] + [s] + own[p..];
            && Indexed(side, r, locations[s.order.id := Location(side, s.order.price, s.node)])
            && DistinctNodes(r) && NodesBelow(r, s.node + 1)
  {
    var r := own[..p] + [s] + own[p..];
    assert forall i :: 0 <= i < |r| ==> r[i] == if i < p then own[i] else if i == p then s else own[i - 1];
  }

  lemma {:induction false} IndexAdds(side: u8, own: seq<Slot>, other: seq<Slot>, locations: map<u64, Location>,
                                     next: nat, o: Order)
    requires IndexOk(side, own, other, locations, next) && o.id !in locations
    ensures IndexOk(side, InsertSlot(side, own, Slot(next, o)), other,
                    locations[o.id := Location(side, o.price, next)], next + 1)
  {
    var s := Slot(next, o);
    var p := InsertSlotAt(side, own, s);
    SplicedIds(own, s, p);
    SplicedIndex(side, own, locations, s, p);
  }

  lemma {:induction false} ErasedIds(q: seq<Slot>, k: nat)
    requires k < |q|
    requires forall i :: 0 <= i < |q| && i != k ==> q[i].order.id != q[k].order.id
    ensures SlotIds(EraseAt(q, k)) == SlotIds(q) - {q[k].order.id}
  {
    var r := EraseAt(q, k);
    assert forall i :: 0 <= i < |r| ==> r[i] == q[if i < k then i else i + 1];
    forall id | id in SlotIds(q) && id != q[k].order.id
      ensures id in SlotIds(r)
    {
      var i :| 0 <= i < |q| && q[i].order.id == id;
      assert r[if i < k then i else i - 1].order.id == id;
    }
  }

  /** The index makes ids unique: within a side because nodes are, and across
      sides because a location names one side. */
  lemma {:induction false} IdsUnique(side: u8, own: seq<Slot>, other: seq<Slot>, locations: map<u64, Location>,
                                     next: nat)
    requires side == BUY || side == SELL
    requires IndexOk(side, own, other, locations, next)
    ensures forall i, j :: 0 <= i < j < |own| ==> own[i].order.id != own[j].order.id
    ensures SlotIds(own) !! SlotIds(other)
  {
    forall i, j | 0 <= i < j < |own|
      ensures own[i].order.id != own[j].order.id
    {
      assert locations[own[i].order.id].node == own[i].node && locations[own[j].order.id].node == own[j].node;
    }
  }

  lemma {:induction false} ErasedNodes(q: seq<Slot>, k: nat, next: nat)
    requires k < |q| && DistinctNodes(q) && NodesBelow(q, next)
    ensures DistinctNodes(EraseAt(q, k)) && NodesBelow(EraseAt(q, k), next)
  {
    var r := EraseAt(q, k);
    assert forall i :: 0 <= i < |r| ==> r[i] == q[if i < k then i else i + 1];
  }

  /** Slots of other ids stay indexed when an id leaves the index. */
  lemma {:induction false} StaysIndexed(side: u8, q: seq<Slot>, locations: map<u64, Location>, id: u64)
    requires Indexed(side, q, locations) && id !in SlotIds(q)
    ensures Indexed(side, q, locations - {id})
  {
    assert forall i :: 0 <= i < |q| ==> q[i].order.id in SlotIds(q);
  }

  lemma {:induction false} ErasedIndexed(side: u8, q: seq<Slot>, k: nat, locations: map<u64, Location>)
    requires k < |q| && Indexed(side, q, locations)
    ensures Indexed(side, EraseAt(q, k), locations)
  {
    var r := EraseAt(q, k);
    assert forall i :: 0 <= i < |r| ==> r[i] == q[if i < k then i else i + 1];
  }

  lemma {:induction false} IndexErases(side: u8, own: seq<Slot>, other: seq<Slot>, locations: map<u64, Location>,
                                       next: nat, k: nat)
    requires side == BUY || side == SELL
    requires IndexOk(side, own, other, locations, next) && k < |own|
    ensures IndexOk(side, EraseAt(own, k), other, locations - {own[k].order.id}, next)
  {
    var id := own[k].order.id;
    IdsUnique(side, own, other, locations, next);
    assert id in SlotIds(own);
    ErasedIds(own, k);
    ErasedNodes(own, k, next);
    ErasedIndexed(side, own, k, locations);
    StaysIndexed(side, EraseAt(own, k), locations, id);
    StaysIndexed(OppositeSide(side), other, locations, id);
  }

  lemma {:induction false} IndexSwaps(side: u8, own: seq<Slot>, other: seq<Slot>, locations: map<u64, Location>,
                                      next: nat)
    requires side == BUY || side == SELL
    requires IndexOk(side, own, other, locations, next)
    ensures IndexOk(OppositeSide(side), other, own, locations, next)
  {
  }

  lemma {:induction false} IndexReduces(side: u8, own: seq<Slot>, other: seq<Slot>, locations: map<u64, Location>,
                                        next: nat, quantity: u32)
    requires IndexOk(side, own, other, locations, next) && own != []
    ensures IndexOk(side, own[0 := Slot(own[0].node, own[0].order.(quantity := quantity))], other, locations, next)
  {
    var r := own[0 := Slot(own[0].node, own[0].order.(quantity := quantity))];
    assert forall i :: 0 <= i < |r| ==> r[i].order.id == own[i].order.id;
    assert SlotIds(r) == SlotIds(own);
  }

  lemma {:induction false} IdCount(q: seq<Slot>)
    requires forall i, j :: 0 <= i < j < |q| ==> q[i].order.id != q[j].order.id
    ensures |SlotIds(q)| == |q|
  {
    if q != [] {
      var n := |q| - 1;
      IdCount(q[..n]);
      assert forall i :: 0 <= i < n ==> q[..n][i] == q[i];
      assert SlotIds(q) == SlotIds(q[..n]) + {q[n].order.id};
      assert q[n].order.id !in SlotIds(q[..n]);
    }
  }

  // ---------------------------------------------------------------------
  // The level aggregate against order-by-order execution

  lemma {:induction false} LeftStep(taker: Order, qty: nat, q: seq<Order>)
    requires q != [] && Crosses(taker, q[0].price)
    ensures Execute(taker, qty, q).left
         == if q[0].quantity <= qty then Execute(taker, qty - q[0].quantity, q[1..]).left else 0
  {
    hide Crosses;
  }

  lemma {:induction false} NoneLeft(taker: Order, q: seq<Order>)
    ensures Execute(taker, 0, q).left == 0
  {
  }

  lemma {:induction false} JoinedTail(a: seq<Order>, b: seq<Order>)
    requires a != []
    ensures (a + b)[0] == a[0] && (a + b)[1..] == a[1..] + b
  {
  }

  lemma {:induction false} ExecutePasses(taker: Order, qty: nat, a: seq<Order>, b: seq<Order>)
    requires forall i :: 0 <= i < |a| ==> Crosses(taker, a[i].price)
    ensures Execute(taker, qty, a + b).left
         == if Volume(a) >= qty then 0 else Execute(taker, qty - Volume(a), b).left
    decreases |a|
  {
    hide Crosses, Execute;
    if a == [] {
      assert a + b == b;
      NoneLeft(taker, b);
    } else {
      JoinedTail(a, b);
      LeftStep(taker, qty, a + b);
      if a[0].quantity <= qty {
        ExecutePasses(taker, qty - a[0].quantity, a[1..], b);
      }
    }
  }

  lemma {:induction false} VolumeOfOrders(slots: seq<Slot>)
    ensures Volume(Orders(slots)) == SlotVolume(slots)
  {
    if slots != [] {
      VolumeOfOrders(slots[1..]);
      assert Orders(slots)[1..] == Orders(slots[1..]);
    }
  }

  /** What one reachable level contributes. */
  lemma {:induction false} LevelContributes(side: u8, taker: Order, qty: nat, levels: seq<Level>)
    requires LevelsOk(side, levels) && levels != [] && Crosses(taker, levels[0].price)
    ensures Execute(taker, qty, Queue(levels)).left
         == if levels[0].total >= qty then 0 else Execute(taker, qty - levels[0].total, Queue(levels[1..])).left
  {
    hide Execute, Flat, Orders, SlotVolume, Crosses, Queue;
    var a, b := Orders(levels[0].slots), Queue(levels[1..]);
    QueueSplits(levels);
    VolumeOfOrders(levels[0].slots);
    LevelPrices(side, levels);
    ExecutePasses(taker, qty, a, b);
  }

  lemma {:induction false} QueueSplits(levels: seq<Level>)
    requires levels != []
    ensures Queue(levels) == Orders(levels[0].slots) + Queue(levels[1..])
  {
  }

  /** Every order of the first level is at its price, and its total is their volume. */
  lemma {:induction false} LevelPrices(side: u8, levels: seq<Level>)
    requires LevelsOk(side, levels) && levels != []
    ensures forall i :: 0 <= i < |Orders(levels[0].slots)| ==> Orders(levels[0].slots)[i].price == levels[0].price
    ensures levels[0].total == SlotVolume(levels[0].slots)
  {
    hide SlotVolume;
  }

  lemma {:induction false} SuffixOk(side: u8, levels: seq<Level>, i: nat)
    requires LevelsOk(side, levels) && i <= |levels|
    ensures LevelsOk(side, levels[i..])
  {
  }

  lemma {:induction false} UnreachableLevel(side: u8, taker: Order, qty: nat, levels: seq<Level>)
    requires LevelsOk(side, levels) && levels != [] && !Crosses(taker, levels[0].price)
    ensures Execute(taker, qty, Queue(levels)) == Execution([], qty, Queue(levels))
  {
    FrontSlot(side, levels);
  }

  /** One iteration of the preflight loop. */
  lemma {:induction false} PreflightStep(side: u8, taker: Order, cap: nat, total: nat, levels: seq<Level>, i: nat)
    requires LevelsOk(side, levels) && i < |levels| && total < cap && Crosses(taker, levels[i].price)
    ensures var total' := total + Min(levels[i].total, cap - total);
            && total' <= cap
            && Execute(taker, cap - total, Queue(levels[i..])).left
               == Execute(taker, cap - total', Queue(levels[i + 1..])).left
  {
    SuffixOk(side, levels, i);
    LevelContributes(side, taker, cap - total, levels[i..]);
    assert levels[i..][1..] == levels[i + 1..];
  }

  /** Where the preflight loop stops, execution would stop. */
  lemma {:induction false} PreflightStops(side: u8, taker: Order, cap: nat, total: nat, levels: seq<Level>, i: nat)
    requires LevelsOk(side, levels) && i <= |levels| && total <= cap
    requires i == |levels| || total == cap || !Crosses(taker, levels[i].price)
    ensures Execute(taker, cap - total, Queue(levels[i..])).left == cap - total
  {
    SuffixOk(side, levels, i);
    if i < |levels| && total < cap {
      UnreachableLevel(side, taker, cap - total, levels[i..]);
    }
  }

  // ---------------------------------------------------------------------
  // What cancelOrder and reduceFront do to one side and the index

  /** Erasing the slot found for an id is removal from the queue. */
  lemma {:induction false} ErasedQueue(q: seq<Slot>, k: nat)
    requires k < |q| && Find(Orders(q), q[k].order.id) == k
    ensures Orders(EraseAt(q, k)) == Remove(Orders(q), q[k].order.id)
  {
    RemoveAt(Orders(q), q[k].order.id);
    assert Orders(EraseAt(q, k)) == Orders(q)[..k] + Orders(q)[k + 1..];
  }

  lemma {:induction false} EraseCancels(side: u8, levels: seq<Level>, other: seq<Slot>, locations: map<u64, Location>,
                                        next: nat, k: nat)
    requires side == BUY || side == SELL
    requires LevelsOk(side, levels) && IndexOk(side, Flat(levels), other, locations, next)
    requires k < |Flat(levels)| && Find(Queue(levels), Flat(levels)[k].order.id) == k
    ensures var s := Flat(levels)[k];
            var levels' := EraseNode(levels, s.order.price, s.node);
            && LevelsOk(side, levels')
            && IndexOk(side, Flat(levels'), other, locations - {s.order.id}, next)
            && Queue(levels') == Remove(Queue(levels), s.order.id)
            && Lookup(levels, s.order.price, s.node) == s.order
  {
    EraseNodeErases(side, levels, k);
    LookupFinds(side, levels, k);
    ErasedQueue(Flat(levels), k);
    IndexErases(side, Flat(levels), other, locations, next, k);
  }

  /** The best level's list after `qty` units were taken from its first order. */
  function Taken(slots: seq<Slot>, qty: u32): seq<Slot>
    requires slots != [] && qty <= slots[0].order.quantity
  {
    var left := slots[0].order.quantity - qty;
    if left == 0 then slots[1..] else [Slot(slots[0].node, slots[0].order.(quantity := left))] + slots[1..]
  }

  lemma {:induction false} LevelAt(side: u8, levels: seq<Level>, i: nat)
    requires LevelsOk(side, levels) && i < |levels|
    ensures LevelOk(side, levels[i])
  {
  }

  lemma {:induction false} TakenOk(side: u8, levels: seq<Level>, qty: u32)
    requires LevelsOk(side, levels) && levels != []
    requires qty <= levels[0].slots[0].order.quantity
    ensures var l := levels[0];
            var slots := Taken(l.slots, qty);
            && qty <= l.total
            && LevelsOk(side, WithFront(levels, slots, l.total - qty))
            && Flat(levels) != []
            && Flat(WithFront(levels, slots, l.total - qty)) == Taken(Flat(levels), qty)
  {
    hide Taken, WithFront, LevelsOk;
    var l := levels[0];
    assert LevelOk(side, l) by { LevelAt(side, levels, 0); }
    var slots := Taken(l.slots, qty);
    FrontSlot(side, levels);
    TakenSlots(side, l, qty);
    WithFrontOk(side, levels, slots, l.total - qty);
    TakenConcat(l.slots, Flat(levels[1..]), qty);
  }

  lemma {:induction false} TakenSlots(side: u8, l: Level, qty: u32)
    requires LevelOk(side, l) && qty <= l.slots[0].order.quantity
    ensures qty <= l.total && SlotsOk(side, l.price, Taken(l.slots, qty))
    ensures SlotVolume(Taken(l.slots, qty)) == l.total - qty
  {
    var slots := Taken(l.slots, qty);
    if qty < l.slots[0].order.quantity {
      assert slots[1..] == l.slots[1..];
    }
  }

  lemma {:induction false} TakenConcat(a: seq<Slot>, b: seq<Slot>, qty: u32)
    requires a != [] && qty <= a[0].order.quantity
    ensures Taken(a + b, qty) == Taken(a, qty) + b
  {
    assert (a + b)[1..] == a[1..] + b;
  }

  lemma {:induction false} TakenIndexed(side: u8, own: seq<Slot>, other: seq<Slot>, locations: map<u64, Location>,
                                        next: nat, qty: u32)
    requires side == BUY || side == SELL
    requires IndexOk(side, own, other, locations, next) && own != [] && qty <= own[0].order.quantity
    ensures var locations' := if qty == own[0].order.quantity then locations - {own[0].order.id} else locations;
            IndexOk(side, Taken(own, qty), other, locations', next)
  {
    hide IndexOk;
    if qty == own[0].order.quantity {
      IndexErases(side, own, other, locations, next, 0);
      assert EraseAt(own, 0) == own[1..];
    } else {
      var left := own[0].order.quantity - qty;
      IndexReduces(side, own, other, locations, next, left);
      assert own[0 := Slot(own[0].node, own[0].order.(quantity := left))] == Taken(own, qty);
    }
  }

  lemma {:induction false} TakenOrders(own: seq<Slot>, qty: u32)
    requires own != [] && qty <= own[0].order.quantity
    ensures var q := Orders(own);
            Orders(Taken(own, qty)) == if qty == q[0].quantity then q[1..]
                                       else [q[0].(quantity := q[0].quantity - qty)] + q[1..]
  {
  }

  lemma {:induction false} TakeFront(side: u8, levels: seq<Level>, other: seq<Slot>, locations: map<u64, Location>,
                                     next: nat, qty: u32)
    requires side == BUY || side == SELL
    requires LevelsOk(side, levels) && IndexOk(side, Flat(levels), other, locations, next)
    requires levels != [] && qty <= levels[0].slots[0].order.quantity
    ensures qty <= levels[0].total && Queue(levels) != []
    ensures var front := levels[0].slots[0].order;
            var levels' := WithFront(levels, Taken(levels[0].slots, qty), levels[0].total - qty);
            var locations' := if qty == front.quantity then locations - {front.id} else locations;
            && Queue(levels)[0] == front
            && LevelsOk(side, levels')
            && IndexOk(side, Flat(levels'), other, locations', next)
            && Queue(levels') == if qty == front.quantity then Queue(levels)[1..]
                                 else [front.(quantity := front.quantity - qty)] + Queue(levels)[1..]
  {
    hide LevelsOk, IndexOk, WithFront, Flat, Taken;
    FrontSlot(side, levels);
    TakenOk(side, levels, qty);
    TakenIndexed(side, Flat(levels), other, locations, next, qty);
    TakenOrders(Flat(levels), qty);
  }
}
