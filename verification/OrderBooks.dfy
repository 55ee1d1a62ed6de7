/** The order book: two sides of price levels, cached totals and an id index,
    updated in place and kept in agreement. */
module OrderBooks {
  import opened Types
  import opened Matching
  import opened PriceLevels
  import opened BookIndex
  import opened BookAudit

  class OrderBook {
    var bids: seq<Level>
    var asks: seq<Level>
    var locations: map<u64, Location>
    var nextNode: nat

    ghost predicate Valid()
      reads this
    {
      && LevelsOk(BUY, bids) && LevelsOk(SELL, asks)
      && IndexOk(BUY, Flat(bids), Flat(asks), locations, nextNode)
    }

    function Levels(side: u8): seq<Level>
      reads this
    {
      if side == BUY then bids else asks
    }

    /** The queue in price-time priority that a side stands for. */
    ghost function Side(side: u8): seq<Order>
      reads this
    {
      Queue(Levels(side))
    }

    constructor ()
      ensures Valid() && Side(BUY) == [] && Side(SELL) == []
    {
      bids, asks, locations, nextNode := [], [], map[], 0;
    }

    predicate Contains(id: u64)
      reads this
    {
      id in locations
    }

    function OrderCount(): nat
      reads this
    {
      |locations|
    }

    lemma {:induction false} CountsOrders()
      requires Valid()
      ensures OrderCount() == |Side(BUY)| + |Side(SELL)|
    {
      var b, a := Flat(bids), Flat(asks);
      IdsUnique(BUY, b, a, locations, nextNode);
      IdsUnique(SELL, a, b, locations, nextNode);
      IdCount(b);
      IdCount(a);
      assert |SlotIds(b) + SlotIds(a)| == |SlotIds(b)| + |SlotIds(a)|;
    }

    lemma {:induction false} IdsDistinct()
      requires Valid()
      ensures DistinctSlotIds(Flat(bids) + Flat(asks))
    {
      hide LevelsOk, Flat;
      IdsUnique(BUY, Flat(bids), Flat(asks), locations, nextNode);
      IndexSwaps(BUY, Flat(bids), Flat(asks), locations, nextNode);
      IdsUnique(SELL, Flat(asks), Flat(bids), locations, nextNode);
      DistinctConcat(Flat(bids), Flat(asks));
    }

    predicate EmptySide(side: u8)
      reads this
    {
      Levels(side) == []
    }

    lemma {:induction false} EmptySideMeansEmpty(side: u8)
      requires Valid() && (side == BUY || side == SELL)
      ensures EmptySide(side) <==> Side(side) == []
      ensures !EmptySide(side) ==> Levels(side)[0].slots != [] && Side(side)[0] == Levels(side)[0].slots[0].order
    {
      if !EmptySide(side) {
        FrontSlot(side, Levels(side));
      }
    }

    /** The order at the front of a non-empty side. */
    lemma {:induction false} FrontIsLive(side: u8)
      requires Valid() && (side == BUY || side == SELL) && !EmptySide(side)
      ensures Levels(side)[0].slots != [] && Side(side) != []
      ensures Side(side)[0] == Levels(side)[0].slots[0].order
      ensures Side(side)[0].quantity > 0 && Side(side)[0].price == Levels(side)[0].price
    {
      FrontSlot(side, Levels(side));
    }

    method AddOrder(o: Order) returns (added: bool)
      requires Valid()
      modifies this
      ensures Valid()
      ensures added <==> && o.id != 0 && o.quantity != 0 && o.price > 0 && o.kind == LIMIT && o.ValidSide()
                         && o.id !in old(locations)
      ensures added ==> Side(o.side) == Insert(o.side, old(Side(o.side)), o)
                        && Side(OppositeSide(o.side)) == old(Side(OppositeSide(o.side)))
      ensures !added ==> unchanged(this)
    {
      hide Flat, Orders, LevelsOk, IndexOk, PushBack, InsertSlot, Insert;
      if o.id == 0 || o.quantity == 0 || o.price <= 0 || o.kind != LIMIT || Contains(o.id) || !o.ValidSide() {
        return false;
      }
      var s := Slot(nextNode, o);
      IndexSwaps(BUY, Flat(bids), Flat(asks), locations, nextNode);
      PushBackOk(o.side, Levels(o.side), s);
      PushBackInserts(o.side, Levels(o.side), s);
      InsertSlotOrders(o.side, Flat(Levels(o.side)), s);
      IndexAdds(o.side, Flat(Levels(o.side)), Flat(Levels(OppositeSide(o.side))), locations, nextNode, o);
      locations := locations[o.id := Location(o.side, o.price, nextNode)];
      nextNode := nextNode + 1;
      if o.side == BUY {
        bids := PushBack(BUY, bids, s);
      } else {
        asks := PushBack(SELL, asks, s);
        IndexSwaps(SELL, Flat(asks), Flat(bids), locations, nextNode);
      }
      added := true;
    }

    /** Position in the side's queue of an indexed order. */
    lemma {:induction false} Located(id: u64) returns (k: nat)
      requires Valid() && id in locations
      ensures var l := locations[id];
              && (l.side == BUY || l.side == SELL)
              && k < |Flat(Levels(l.side))|
              && Flat(Levels(l.side))[k].order.id == id
              && Flat(Levels(l.side))[k].node == l.node
              && Flat(Levels(l.side))[k].order.price == l.price
              && Find(Side(l.side), id) == k
              && Find(Side(OppositeSide(l.side)), id) == |Side(OppositeSide(l.side))|
    {
      hide LevelsOk, DistinctNodes, NodesBelow, Flat;
      var b, a := Flat(bids), Flat(asks);
      IdsUnique(BUY, b, a, locations, nextNode);
      IndexSwaps(BUY, b, a, locations, nextNode);
      IdsUnique(SELL, a, b, locations, nextNode);
      if id in SlotIds(b) {
        k :| 0 <= k < |b| && b[k].order.id == id;
        assert forall i :: 0 <= i < |a| ==> a[i].order.id in SlotIds(a);
      } else {
        k :| 0 <= k < |a| && a[k].order.id == id;
        assert forall i :: 0 <= i < |b| ==> b[i].order.id in SlotIds(b);
      }
    }

    lemma {:induction false} NotLocated(id: u64)
      requires Valid() && id !in locations
      ensures Find(Side(BUY), id) == |Side(BUY)| && Find(Side(SELL), id) == |Side(SELL)|
    {
      var b, a := Flat(bids), Flat(asks);
      assert forall i :: 0 <= i < |b| ==> b[i].order.id in locations;
      assert forall i :: 0 <= i < |a| ==> a[i].order.id in locations;
    }

    /** The index answers what a search of both queues would. */
    lemma {:induction false} FindsIndexed(id: u64)
      requires Valid()
      ensures id in locations <==> Find(Side(BUY), id) < |Side(BUY)| || Find(Side(SELL), id) < |Side(SELL)|
      ensures id in locations ==> Find(Side(locations[id].side), id) < |Side(locations[id].side)|
    {
      if id in locations {
        var k := Located(id);
      } else {
        NotLocated(id);
      }
    }

    method CancelOrder(id: u64) returns (found: bool, canceled: Order)
      requires Valid()
      modifies this
      ensures Valid()
      ensures found <==> id in old(locations)
      ensures !found ==> unchanged(this)
      ensures found ==>
                var side := old(locations)[id].side;
                var k := Find(old(Side(side)), id);
                && (side == BUY || side == SELL)
                && k < |old(Side(side))| && canceled == old(Side(side))[k]
                && Find(old(Side(OppositeSide(side))), id) == |old(Side(OppositeSide(side)))|
                && Side(side) == Remove(old(Side(side)), id)
                && Side(OppositeSide(side)) == old(Side(OppositeSide(side)))
    {
      hide Flat, Orders, LevelsOk, IndexOk, EraseNode, Lookup, Remove, Find;
      canceled := NO_ORDER;
      if !Contains(id) {
        return false, canceled;
      }
      var loc := locations[id];
      ghost var k := Located(id);
      IndexSwaps(BUY, Flat(bids), Flat(asks), locations, nextNode);
      EraseCancels(loc.side, Levels(loc.side), Flat(Levels(OppositeSide(loc.side))), locations, nextNode, k);
      canceled := Lookup(Levels(loc.side), loc.price, loc.node);
      locations := locations - {id};
      if loc.side == BUY {
        bids := EraseNode(bids, loc.price, loc.node);
      } else {
        asks := EraseNode(asks, loc.price, loc.node);
        IndexSwaps(SELL, Flat(asks), Flat(bids), locations, nextNode);
      }
      found := true;
    }

    /** Takes `qty` units from the first order of the best level. */
    method ReduceFront(side: u8, qty: u32)
      requires Valid() && (side == BUY || side == SELL)
      requires !EmptySide(side) && Levels(side)[0].slots != [] && qty <= Levels(side)[0].slots[0].order.quantity
      modifies this
      ensures Valid()
      ensures var q := old(Side(side));
              && q != [] && qty <= q[0].quantity
              && Side(side) == (if qty == q[0].quantity then q[1..]
                                else [q[0].(quantity := q[0].quantity - qty)] + q[1..])
      ensures Side(OppositeSide(side)) == old(Side(OppositeSide(side)))
    {
      hide Flat, Orders, WithFront, Taken, IndexOk, LevelsOk;
      var level := Levels(side)[0];
      var front := level.slots[0].order;
      if side == BUY {
        TakeFront(BUY, bids, Flat(asks), locations, nextNode, qty);
        bids := WithFront(bids, Taken(level.slots, qty), level.total - qty);
      } else {
        IndexSwaps(BUY, Flat(bids), Flat(asks), locations, nextNode);
        TakeFront(SELL, asks, Flat(bids), locations, nextNode, qty);
        asks := WithFront(asks, Taken(level.slots, qty), level.total - qty);
      }
      if qty == front.quantity {
        locations := locations - {front.id};
      }
      if side == SELL {
        IndexSwaps(SELL, Flat(asks), Flat(bids), locations, nextNode);
      }
    }

    predicate WouldCross(incoming: Order)
      reads this
    {
      && incoming.ValidSide() && incoming.ValidKind()
      && !EmptySide(OppositeSide(incoming.side))
      && Crosses(incoming, Levels(OppositeSide(incoming.side))[0].price)
    }

    lemma {:induction false} WouldCrossIffFills(o: Order)
      requires Valid() && o.ValidSide() && o.ValidKind() && o.quantity > 0
      ensures WouldCross(o) <==> Execute(o, o.quantity, Side(OppositeSide(o.side))).fills != []
    {
      var side := OppositeSide(o.side);
      EmptySideMeansEmpty(side);
      if !EmptySide(side) {
        FrontIsLive(side);
      }
    }

    /** The level-aggregate preflight returns exactly what order-by-order
        execution of `cap` units would trade. */
    method ExecutableQuantity(incoming: Order, cap: nat) returns (total: nat)
      requires Valid()
      ensures incoming.ValidSide() && incoming.ValidKind() ==>
                total == cap - Execute(incoming, cap, Side(OppositeSide(incoming.side))).left
      ensures !(incoming.ValidSide() && incoming.ValidKind()) ==> total == 0
    {
      hide IndexOk, LevelsOk, Flat, Orders, Execute, Crosses;
      if cap == 0 || !incoming.ValidSide() || !incoming.ValidKind() {
        NoneLeft(incoming, Side(OppositeSide(incoming.side)));
        return 0;
      }
      total := 0;
      var side := OppositeSide(incoming.side);
      var levels := Levels(side);
      var i := 0;
      while i < |levels| && total < cap && Crosses(incoming, levels[i].price)
        invariant 0 <= i <= |levels| && 0 <= total <= cap
        invariant Execute(incoming, cap, Queue(levels)).left
               == Execute(incoming, cap - total, Queue(levels[i..])).left
      {
        PreflightStep(side, incoming, cap, total, levels, i);
        total := total + Min(levels[i].total, cap - total);
        i := i + 1;
      }
      PreflightStops(side, incoming, cap, total, levels, i);
    }

    /** True exactly when the whole declarative invariant holds, whatever state
        the book is in. */
    method CheckInvariants() returns (ok: bool)
      ensures ok <==> BookSound(bids, asks, locations)
    {
      ok := CheckBook(bids, asks, locations);
    }
  }
}
