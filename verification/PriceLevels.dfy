/** One side of the book as the implementation stores it: an ordered map from
    price to a FIFO list with a cached total, held here as the sequence of its
    entries in iteration order.

    A list node keeps its identity while other nodes come and go, which is what
    the id index relies on; `Slot.node` is that identity. */
module PriceLevels {
  import opened Types
  import opened Matching

  datatype Slot = Slot(node: nat, order: Order)

  datatype Level = Level(price: i64, slots: seq<Slot>, total: nat)

  /** All slots of a side in priority order: best level first, FIFO within. */
  function Flat(levels: seq<Level>): seq<Slot> {
    if levels == [] then [] else levels[0].slots + Flat(levels[1..])
  }

  function Orders(slots: seq<Slot>): (q: seq<Order>)
    ensures |q| == |slots|
    ensures forall i :: 0 <= i < |q| ==> q[i] == slots[i].order
  {
    seq(|slots|, i requires 0 <= i < |slots| => slots[i].order)
  }

  /** The queue a side stands for. */
  function Queue(levels: seq<Level>): seq<Order> { Orders(Flat(levels)) }

  function SlotVolume(slots: seq<Slot>): nat {
    if slots == [] then 0 else slots[0].order.quantity + SlotVolume(slots[1..])
  }

  predicate SlotOk(side: u8, price: i64, s: Slot) {
    && s.order.id != 0
    && s.order.quantity > 0
    && s.order.price == price
    && s.order.side == side
    && s.order.kind == LIMIT
  }

  predicate SlotsOk(side: u8, price: i64, slots: seq<Slot>) {
    forall i :: 0 <= i < |slots| ==> SlotOk(side, price, slots[i])
  }

  ghost predicate LevelOk(side: u8, l: Level) {
    && l.slots != []
    && SlotsOk(side, l.price, l.slots)
    && l.total == SlotVolume(l.slots)
  }

  ghost predicate PricesSorted(side: u8, levels: seq<Level>) {
    forall i, j :: 0 <= i < j < |levels| ==> Better(side, levels[i].price, levels[j].price)
  }

  ghost predicate LevelsOk(side: u8, levels: seq<Level>) {
    && PricesSorted(side, levels)
    && forall i :: 0 <= i < |levels| ==> LevelOk(side, levels[i])
  }

  // ---------------------------------------------------------------------
  // The container operations behind addOrder, cancelOrder and reduceFront

  /** `try_emplace(price)` followed by `push_back` and the total update. */
  function PushBack(side: u8, levels: seq<Level>, s: Slot): seq<Level> {
    var price := s.order.price;
    if levels == [] || Better(side, price, levels[0].price) then
      [Level(price, [s], s.order.quantity)] + levels
    else if price == levels[0].price then
      [Level(price, levels[0].slots + [s], levels[0].total + s.order.quantity)] + levels[1..]
    else
      [levels[0]] + PushBack(side, levels[1..], s)
  }

  /** Position of `node` in a list, `|slots|` when absent. */
  function Position(slots: seq<Slot>, node: nat): (i: nat)
    ensures i <= |slots|
    ensures i < |slots| ==> slots[i].node == node
    ensures forall j :: 0 <= j < i ==> slots[j].node != node
  {
    if slots == [] || slots[0].node == node then 0 else 1 + Position(slots[1..], node)
  }

  function EraseAt(slots: seq<Slot>, i: nat): seq<Slot>
    requires i < |slots|
  {
    slots[..i] + slots[i + 1..]
  }

  /** Replaces the first level, dropping it when its list became empty. */
  function WithFront(levels: seq<Level>, slots: seq<Slot>, total: nat): seq<Level>
    requires levels != []
  {
    if slots == [] then levels[1..] else [Level(levels[0].price, slots, total)] + levels[1..]
  }

  /** Erases a list node from the level at `price` and the level if it became empty. */
  function EraseNode(levels: seq<Level>, price: i64, node: nat): seq<Level> {
    if levels == [] then []
    else if levels[0].price == price then
      var i := Position(levels[0].slots, node);
      if i == |levels[0].slots| then levels
      else
        var total := levels[0].total - levels[0].slots[i].order.quantity;
        WithFront(levels, EraseAt(levels[0].slots, i), if total >= 0 then total else 0)
    else [levels[0]] + EraseNode(levels[1..], price, node)
  }

  const NO_ORDER: Order := Order(0, BUY, LIMIT, GTC, 0, 0, 0, 0)

  /** The order a list iterator points to. */
  function Lookup(levels: seq<Level>, price: i64, node: nat): Order {
    if levels == [] then NO_ORDER
    else if levels[0].price == price then
      var i := Position(levels[0].slots, node);
      if i == |levels[0].slots| then NO_ORDER else levels[0].slots[i].order
    else Lookup(levels[1..], price, node)
  }

  // ---------------------------------------------------------------------
  // What they do to the flattened side

  /** Insertion on slots, behind every slot that is at least as good. */
  function InsertSlot(side: u8, q: seq<Slot>, s: Slot): seq<Slot> {
    if q == [] || Better(side, s.order.price, q[0].order.price) then [s] + q
    else [q[0]] + InsertSlot(side, q[1..], s)
  }

  lemma {:induction false} InsertSlotPasses(side: u8, a: seq<Slot>, b: seq<Slot>, s: Slot)
    requires forall i :: 0 <= i < |a| ==> !Better(side, s.order.price, a[i].order.price)
    ensures InsertSlot(side, a + b, s) == a + InsertSlot(side, b, s)
  {
    if a == [] {
      assert a + b == b;
    } else {
      InsertSlotPasses(side, a[1..], b, s);
      assert (a + b)[1..] == a[1..] + b;
    }
  }

  lemma {:induction false} InsertSlotOrders(side: u8, q: seq<Slot>, s: Slot)
    ensures Orders(InsertSlot(side, q, s)) == Insert(side, Orders(q), s.order)
  {
    if q == [] || Better(side, s.order.price, q[0].order.price) {
      assert Orders([s] + q) == [s.order] + Orders(q);
    } else {
      InsertSlotOrders(side, q[1..], s);
      assert Orders(q)[1..] == Orders(q[1..]);
      assert Orders([q[0]] + InsertSlot(side, q[1..], s)) == [q[0].order] + Orders(InsertSlot(side, q[1..], s));
    }
  }

  /** The front of a well-formed side carries the best level's price. */
  lemma {:induction false} FrontSlot(side: u8, levels: seq<Level>)
    requires LevelsOk(side, levels) && levels != []
    ensures Flat(levels) != [] && Flat(levels)[0] == levels[0].slots[0]
    ensures Flat(levels)[0].order.price == levels[0].price
  {
  }

  lemma {:induction false} TailOk(side: u8, levels: seq<Level>)
    requires LevelsOk(side, levels) && levels != []
    ensures LevelsOk(side, levels[1..])
    ensures Below(side, levels[0].price, levels[1..])
  {
  }

  lemma {:induction false} ConsOk(side: u8, l: Level, levels: seq<Level>)
    requires LevelOk(side, l) && LevelsOk(side, levels)
    requires Below(side, l.price, levels)
    ensures LevelsOk(side, [l] + levels)
  {
  }

  lemma {:induction false} SlotVolumeConcat(a: seq<Slot>, b: seq<Slot>)
    ensures SlotVolume(a + b) == SlotVolume(a) + SlotVolume(b)
  {
    if a == [] {
      assert a + b == b;
    } else {
      SlotVolumeConcat(a[1..], b);
      assert (a + b)[1..] == a[1..] + b;
    }
  }

  /** Levels worse than `p` stay worse than `p`. */
  ghost predicate Below(side: u8, p: int, levels: seq<Level>) {
    forall i :: 0 <= i < |levels| ==> Better(side, p, levels[i].price)
  }

  lemma {:induction false} PushBackBelow(side: u8, levels: seq<Level>, s: Slot, p: int)
    requires Below(side, p, levels) && Better(side, p, s.order.price)
    ensures Below(side, p, PushBack(side, levels, s))
  {
    if levels == [] || Better(side, s.order.price, levels[0].price) || s.order.price == levels[0].price {
    } else {
      PushBackBelow(side, levels[1..], s, p);
    }
  }

  lemma {:induction false} PushBackOk(side: u8, levels: seq<Level>, s: Slot)
    requires LevelsOk(side, levels) && SlotOk(side, s.order.price, s)
    ensures LevelsOk(side, PushBack(side, levels, s))
  {
    var price := s.order.price;
    var alone := Level(price, [s], s.order.quantity);
    if levels == [] || Better(side, price, levels[0].price) {
      ConsOk(side, alone, levels);
    } else {
      TailOk(side, levels);
      if price == levels[0].price {
        SlotVolumeConcat(levels[0].slots, [s]);
        ConsOk(side, Level(price, levels[0].slots + [s], levels[0].total + s.order.quantity), levels[1..]);
      } else {
        PushBackOk(side, levels[1..], s);
        PushBackBelow(side, levels[1..], s, levels[0].price);
        ConsOk(side, levels[0], PushBack(side, levels[1..], s));
      }
    }
  }

  lemma {:induction false} PushBackInserts(side: u8, levels: seq<Level>, s: Slot)
    requires LevelsOk(side, levels)
    ensures Flat(PushBack(side, levels, s)) == InsertSlot(side, Flat(levels), s)
  {
    var price := s.order.price;
    if levels == [] {
      assert Flat([Level(price, [s], s.order.quantity)]) == [s] + Flat([]);
    } else {
      var l, tail := levels[0], levels[1..];
      TailOk(side, levels);
      FrontSlot(side, levels);
      if Better(side, price, l.price) {
        assert ([Level(price, [s], s.order.quantity)] + levels)[1..] == levels;
      } else {
        InsertSlotPasses(side, l.slots, Flat(tail), s);
        if price == l.price {
          if tail != [] {
            FrontSlot(side, tail);
          }
          var front := Level(price, l.slots + [s], l.total + s.order.quantity);
          assert ([front] + tail)[1..] == tail;
          assert Flat([front] + tail) == l.slots + ([s] + Flat(tail));
        } else {
          PushBackInserts(side, tail, s);
          assert ([l] + PushBack(side, tail, s))[1..] == PushBack(side, tail, s);
        }
      }
    }
  }

  // Erasing a node

  ghost predicate DistinctNodes(q: seq<Slot>) {
    forall i, j :: 0 <= i < j < |q| ==> q[i].node != q[j].node
  }

  lemma {:induction false} EraseVolume(slots: seq<Slot>, i: nat)
    requires i < |slots|
    ensures SlotVolume(slots) == SlotVolume(EraseAt(slots, i)) + slots[i].order.quantity
  {
    SlotVolumeConcat(slots[..i], slots[i + 1..]);
    SlotVolumeConcat(slots[..i], slots[i..]);
    assert slots == slots[..i] + slots[i..];
    assert slots[i..][1..] == slots[i + 1..];
  }

  /** Replacing the front list by one that is still in order keeps the side in order. */
  lemma {:induction false} WithFrontOk(side: u8, levels: seq<Level>, slots: seq<Slot>, total: nat)
    requires LevelsOk(side, levels) && levels != []
    requires SlotsOk(side, levels[0].price, slots) && total == SlotVolume(slots)
    ensures LevelsOk(side, WithFront(levels, slots, total))
    ensures Flat(WithFront(levels, slots, total)) == slots + Flat(levels[1..])
  {
    TailOk(side, levels);
    if slots == [] {
      assert slots + Flat(levels[1..]) == Flat(levels[1..]);
    } else {
      var l := Level(levels[0].price, slots, total);
      ConsOk(side, l, levels[1..]);
      assert ([l] + levels[1..])[1..] == levels[1..];
    }
  }

  lemma {:induction false} EraseBelow(side: u8, levels: seq<Level>, price: i64, node: nat, p: int)
    requires Below(side, p, levels)
    ensures Below(side, p, EraseNode(levels, price, node))
  {
    if levels != [] && levels[0].price != price {
      EraseBelow(side, levels[1..], price, node, p);
    }
  }

  lemma {:induction false} SlotAtLevel(side: u8, levels: seq<Level>, k: nat)
    requires LevelsOk(side, levels) && levels != [] && k < |Flat(levels)|
    ensures Flat(levels)[k].order.price == levels[0].price <==> k < |levels[0].slots|
  {
    if k >= |levels[0].slots| {
      TailOk(side, levels);
      SlotBelow(side, levels[1..], levels[0].price, k - |levels[0].slots|);
    }
  }

  lemma {:induction false} SlotBelow(side: u8, levels: seq<Level>, p: int, k: nat)
    requires LevelsOk(side, levels) && Below(side, p, levels) && k < |Flat(levels)|
    ensures Better(side, p, Flat(levels)[k].order.price)
  {
    if k >= |levels[0].slots| {
      TailOk(side, levels);
      SlotBelow(side, levels[1..], p, k - |levels[0].slots|);
    }
  }

  lemma {:induction false} EraseAtConcat(a: seq<Slot>, b: seq<Slot>, k: nat)
    requires k < |a + b|
    ensures EraseAt(a + b, k) == if k < |a| then EraseAt(a, k) + b else a + EraseAt(b, k - |a|)
  {
  }

  lemma {:induction false} EraseInFront(side: u8, levels: seq<Level>, k: nat)
    requires LevelsOk(side, levels) && DistinctNodes(Flat(levels)) && levels != [] && k < |levels[0].slots|
    ensures var s := levels[0].slots[k];
            var levels' := EraseNode(levels, s.order.price, s.node);
            LevelsOk(side, levels') && Flat(levels') == EraseAt(levels[0].slots, k) + Flat(levels[1..])
  {
    hide LevelsOk, DistinctNodes, Flat, EraseNode, EraseAt, WithFront, SlotVolume;
    var l := levels[0];
    FrontErases(side, levels, k);
    EraseVolume(l.slots, k);
    FrontLevel(side, levels, k);
    WithFrontOk(side, levels, EraseAt(l.slots, k), l.total - l.slots[k].order.quantity);
  }

  lemma {:induction false} FrontLevel(side: u8, levels: seq<Level>, k: nat)
    requires LevelsOk(side, levels) && levels != [] && k < |levels[0].slots|
    ensures levels[0].total == SlotVolume(levels[0].slots)
    ensures levels[0].slots[k].order.price == levels[0].price
    ensures SlotsOk(side, levels[0].price, EraseAt(levels[0].slots, k))
  {
    hide SlotVolume;
  }

  lemma {:induction false} FrontErases(side: u8, levels: seq<Level>, k: nat)
    requires LevelsOk(side, levels) && DistinctNodes(Flat(levels)) && levels != [] && k < |levels[0].slots|
    ensures var l := levels[0];
            var s := l.slots[k];
            && l.total >= s.order.quantity
            && EraseNode(levels, s.order.price, s.node)
               == WithFront(levels, EraseAt(l.slots, k), l.total - s.order.quantity)
  {
    hide LevelsOk, SlotVolume, EraseAt, WithFront, PricesSorted;
    FrontLevel(side, levels, k);
    EraseVolume(levels[0].slots, k);
    FrontPosition(levels, k);
  }

  lemma {:induction false} FrontPosition(levels: seq<Level>, k: nat)
    requires DistinctNodes(Flat(levels)) && levels != [] && k < |levels[0].slots|
    ensures Position(levels[0].slots, levels[0].slots[k].node) == k
  {
    hide Position;
    assert forall j :: 0 <= j < |levels[0].slots| ==> Flat(levels)[j] == levels[0].slots[j];
  }

  /** Erasing the node of the slot at position `k` removes exactly that slot. */
  lemma {:induction false} EraseNodeErases(side: u8, levels: seq<Level>, k: nat)
    requires LevelsOk(side, levels) && DistinctNodes(Flat(levels)) && k < |Flat(levels)|
    ensures var s := Flat(levels)[k];
            var levels' := EraseNode(levels, s.order.price, s.node);
            LevelsOk(side, levels') && Flat(levels') == EraseAt(Flat(levels), k)
  {
    var l, tail := levels[0], levels[1..];
    var s := Flat(levels)[k];
    SlotAtLevel(side, levels, k);
    EraseAtConcat(l.slots, Flat(tail), k);
    if k < |l.slots| {
      EraseInFront(side, levels, k);
    } else {
      TailOk(side, levels);
      assert forall j :: 0 <= j < |Flat(tail)| ==> Flat(tail)[j] == Flat(levels)[j + |l.slots|];
      EraseNodeErases(side, tail, k - |l.slots|);
      var tail' := EraseNode(tail, s.order.price, s.node);
      EraseBelow(side, tail, s.order.price, s.node, l.price);
      ConsOk(side, l, tail');
      assert ([l] + tail')[1..] == tail';
    }
  }

  lemma {:induction false} LookupFinds(side: u8, levels: seq<Level>, k: nat)
    requires LevelsOk(side, levels) && DistinctNodes(Flat(levels)) && k < |Flat(levels)|
    ensures var s := Flat(levels)[k]; Lookup(levels, s.order.price, s.node) == s.order
  {
    var l, tail := levels[0], levels[1..];
    var s := Flat(levels)[k];
    SlotAtLevel(side, levels, k);
    if k < |l.slots| {
      assert s == l.slots[k];
      FrontPosition(levels, k);
    } else {
      TailOk(side, levels);
      assert forall j :: 0 <= j < |Flat(tail)| ==> Flat(tail)[j] == Flat(levels)[j + |l.slots|];
      LookupFinds(side, tail, k - |l.slots|);
    }
  }
}
