/** The book's self-check: an executable pass over levels and index, against
    the declarative invariant it is meant to decide. It is stated for arbitrary,
    possibly corrupt, contents. */
module BookAudit {
  import opened Types
  import opened Matching
  import opened PriceLevels
  import opened BookIndex

  ghost predicate Chronological(slots: seq<Slot>) {
    forall i, j :: 0 <= i < j < |slots| ==> slots[i].order.sequence <= slots[j].order.sequence
  }

  ghost predicate DistinctSlotIds(q: seq<Slot>) {
    forall i, j :: 0 <= i < j < |q| ==> q[i].order.id != q[j].order.id
  }

  ghost predicate LevelSound(side: u8, l: Level, locations: map<u64, Location>) {
    && LevelOk(side, l)
    && Chronological(l.slots)
    && Indexed(side, l.slots, locations)
  }

  ghost predicate SideSound(side: u8, levels: seq<Level>, locations: map<u64, Location>) {
    && PricesSorted(side, levels)
    && forall i :: 0 <= i < |levels| ==> LevelSound(side, levels[i], locations)
  }

  /** Uncrossed; levels non-empty, strictly sorted, in arrival order, with exact
      totals; every resting id unique and indexed at its own node; and the index
      holding nothing else. */
  ghost predicate BookSound(bids: seq<Level>, asks: seq<Level>, locations: map<u64, Location>) {
    && (bids != [] && asks != [] ==> asks[0].price - bids[0].price > 0)
    && SideSound(BUY, bids, locations) && SideSound(SELL, asks, locations)
    && DistinctSlotIds(Flat(bids) + Flat(asks))
    && locations.Keys == SlotIds(Flat(bids) + Flat(asks))
  }

  // ---------------------------------------------------------------------
  // One level

  /** The first `i` slots of a level passed. */
  ghost predicate Passed(side: u8, l: Level, locations: map<u64, Location>, seen: set<u64>, i: nat)
    requires i <= |l.slots|
  {
    var done := l.slots[..i];
    && SlotsOk(side, l.price, done)
    && Chronological(done)
    && Indexed(side, done, locations)
    && DistinctSlotIds(done)
    && SlotIds(done) !! seen
  }

  /** The tests the pass makes on slot `i`. */
  ghost predicate SlotPasses(side: u8, l: Level, locations: map<u64, Location>, seen: set<u64>, i: nat)
    requires i < |l.slots|
  {
    var s := l.slots[i];
    && SlotOk(side, l.price, s)
    && (i > 0 ==> l.slots[i - 1].order.sequence <= s.order.sequence)
    && s.order.id !in seen + SlotIds(l.slots[..i])
    && s.order.id in locations && locations[s.order.id] == Location(side, l.price, s.node)
  }

  /** The tests on one slot decide whether one more slot passes. */
  lemma {:induction false} PassOne(side: u8, l: Level, locations: map<u64, Location>, seen: set<u64>, i: nat)
    requires i < |l.slots| && Passed(side, l, locations, seen, i)
    ensures Passed(side, l, locations, seen, i + 1) <==> SlotPasses(side, l, locations, seen, i)
    ensures SlotIds(l.slots[..i + 1]) == SlotIds(l.slots[..i]) + {l.slots[i].order.id}
  {
    var s := l.slots[i];
    var done, more := l.slots[..i], l.slots[..i + 1];
    assert more == done + [s];
    assert forall j :: 0 <= j < i ==> more[j] == done[j];
    assert more[i] == s;
    assert SlotIds(more) == SlotIds(done) + {s.order.id};
    PassChronological(l.slots, i);
  }

  lemma {:induction false} PassChronological(slots: seq<Slot>, i: nat)
    requires i < |slots| && Chronological(slots[..i])
    ensures Chronological(slots[..i + 1]) <==> (i > 0 ==> slots[i - 1].order.sequence <= slots[i].order.sequence)
  {
    var done, more := slots[..i], slots[..i + 1];
    assert forall j :: 0 <= j < i ==> more[j] == done[j] == slots[j];
    if i > 0 && slots[i - 1].order.sequence > slots[i].order.sequence {
      assert more[i - 1].order.sequence > more[i].order.sequence;
    }
  }

  /** A level that passed in full passed in every prefix. */
  lemma {:induction false} PassedBefore(side: u8, l: Level, locations: map<u64, Location>, seen: set<u64>, i: nat)
    requires i <= |l.slots| && Passed(side, l, locations, seen, |l.slots|)
    ensures Passed(side, l, locations, seen, i)
  {
    var all, done := l.slots[..|l.slots|], l.slots[..i];
    assert forall j :: 0 <= j < i ==> done[j] == all[j];
    assert SlotIds(done) <= SlotIds(all);
  }

  lemma {:induction false} VolumeSnoc(slots: seq<Slot>, i: nat)
    requires i < |slots|
    ensures SlotVolume(slots[..i + 1]) == SlotVolume(slots[..i]) + slots[i].order.quantity
  {
    SlotVolumeConcat(slots[..i], [slots[i]]);
    assert slots[..i + 1] == slots[..i] + [slots[i]];
  }

  method CheckLevel(side: u8, l: Level, locations: map<u64, Location>, seen: set<u64>)
    returns (ok: bool, seen': set<u64>, count: nat)
    ensures ok <==> LevelSound(side, l, locations) && DistinctSlotIds(l.slots) && SlotIds(l.slots) !! seen
    ensures ok ==> seen' == seen + SlotIds(l.slots) && count == |l.slots|
  {
    hide Chronological, Indexed, DistinctSlotIds, SlotsOk, SlotIds;
    seen', count := seen, 0;
    if l.slots == [] {
      return false, seen', count;
    }
    var sum, previous := 0, 0;
    EmptyPasses(side, l, locations, seen);
    assert l.slots[..|l.slots|] == l.slots;
    var i := 0;
    while i < |l.slots|
      invariant 0 <= i <= |l.slots| && count == i
      invariant Passed(side, l, locations, seen, i)
      invariant sum == SlotVolume(l.slots[..i])
      invariant i > 0 ==> previous == l.slots[i - 1].order.sequence
      invariant seen' == seen + SlotIds(l.slots[..i])
    {
      var s := l.slots[i];
      PassOne(side, l, locations, seen, i);
      VolumeSnoc(l.slots, i);
      if !SlotOk(side, l.price, s)
         || (i > 0 && s.order.sequence < previous)
         || s.order.id in seen'
         || s.order.id !in locations || locations[s.order.id] != Location(side, l.price, s.node)
      {
        if Passed(side, l, locations, seen, |l.slots|) {
          PassedBefore(side, l, locations, seen, i + 1);
        }
        return false, seen', count;
      }
      sum := sum + s.order.quantity;
      previous := s.order.sequence;
      seen' := seen' + {s.order.id};
      count := count + 1;
      i := i + 1;
    }
    ok := sum == l.total;
  }

  lemma {:induction false} EmptyPasses(side: u8, l: Level, locations: map<u64, Location>, seen: set<u64>)
    ensures Passed(side, l, locations, seen, 0) && SlotIds(l.slots[..0]) == {}
  {
  }

  // ---------------------------------------------------------------------
  // One side, then the book

  lemma {:induction false} FlatSnoc(levels: seq<Level>, i: nat)
    requires i < |levels|
    ensures Flat(levels[..i + 1]) == Flat(levels[..i]) + levels[i].slots
  {
    FlatConcat(levels[..i], [levels[i]]);
    assert levels[..i + 1] == levels[..i] + [levels[i]];
    assert Flat([levels[i]]) == levels[i].slots + Flat([]);
  }

  lemma {:induction false} FlatConcat(a: seq<Level>, b: seq<Level>)
    ensures Flat(a + b) == Flat(a) + Flat(b)
  {
    hide Flat;
    if a == [] {
      FlatNil();
      assert a + b == b;
      assert [] + Flat(b) == Flat(b);
    } else {
      FlatConcat(a[1..], b);
      FlatHead(a + b);
      FlatHead(a);
      assert (a + b)[1..] == a[1..] + b;
      assert a[0].slots + (Flat(a[1..]) + Flat(b)) == (a[0].slots + Flat(a[1..])) + Flat(b);
    }
  }

  lemma {:induction false} FlatNil()
    ensures Flat([]) == []
  {
  }

  lemma {:induction false} FlatHead(levels: seq<Level>)
    requires levels != []
    ensures Flat(levels) == levels[0].slots + Flat(levels[1..])
  {
  }

  lemma {:induction false} IdsConcat(a: seq<Slot>, b: seq<Slot>)
    ensures SlotIds(a + b) == SlotIds(a) + SlotIds(b)
  {
    var q := a + b;
    assert forall i :: 0 <= i < |a| ==> q[i] == a[i];
    assert forall i :: 0 <= i < |b| ==> q[i + |a|] == b[i];
  }

  lemma {:induction false} DistinctConcat(a: seq<Slot>, b: seq<Slot>)
    ensures DistinctSlotIds(a + b) <==> DistinctSlotIds(a) && DistinctSlotIds(b) && SlotIds(a) !! SlotIds(b)
  {
    var q := a + b;
    assert forall i :: 0 <= i < |a| ==> q[i] == a[i] && a[i].order.id in SlotIds(a);
    assert forall i :: 0 <= i < |b| ==> q[i + |a|] == b[i] && b[i].order.id in SlotIds(b);
    if DistinctSlotIds(q) {
      forall id | id in SlotIds(a)
        ensures id !in SlotIds(b)
      {
        var i :| 0 <= i < |a| && a[i].order.id == id;
        assert q[i].order.id == id;
      }
    }
  }

  /** The first `i` levels of a side passed. */
  ghost predicate SidePassed(side: u8, levels: seq<Level>, locations: map<u64, Location>, seen: set<u64>, i: nat)
    requires i <= |levels|
  {
    && SideSound(side, levels[..i], locations)
    && DistinctSlotIds(Flat(levels[..i]))
    && SlotIds(Flat(levels[..i])) !! seen
  }

  lemma {:induction false} SidePassOne(side: u8, levels: seq<Level>, locations: map<u64, Location>, seen: set<u64>,
                                       i: nat)
    requires i < |levels| && SidePassed(side, levels, locations, seen, i)
    ensures SidePassed(side, levels, locations, seen, i + 1) <==>
              && (i > 0 ==> Better(side, levels[i - 1].price, levels[i].price))
              && LevelSound(side, levels[i], locations) && DistinctSlotIds(levels[i].slots)
              && SlotIds(levels[i].slots) !! seen + SlotIds(Flat(levels[..i]))
    ensures SlotIds(Flat(levels[..i + 1])) == SlotIds(Flat(levels[..i])) + SlotIds(levels[i].slots)
    ensures |Flat(levels[..i + 1])| == |Flat(levels[..i])| + |levels[i].slots|
  {
    hide LevelSound, Flat, DistinctSlotIds, SlotIds;
    FlatSnoc(levels, i);
    IdsConcat(Flat(levels[..i]), levels[i].slots);
    DistinctConcat(Flat(levels[..i]), levels[i].slots);
    SoundSnoc(side, levels, locations, i);
  }

  lemma {:induction false} SoundSnoc(side: u8, levels: seq<Level>, locations: map<u64, Location>, i: nat)
    requires i < |levels| && SideSound(side, levels[..i], locations)
    ensures SideSound(side, levels[..i + 1], locations)
       <==> (i > 0 ==> Better(side, levels[i - 1].price, levels[i].price)) && LevelSound(side, levels[i], locations)
  {
    hide LevelSound;
    var done, more := levels[..i], levels[..i + 1];
    assert forall j :: 0 <= j < i ==> more[j] == done[j] == levels[j];
    assert more[i] == levels[i];
  }

  lemma {:induction false} SidePassedBefore(side: u8, levels: seq<Level>, locations: map<u64, Location>,
                                            seen: set<u64>, i: nat)
    requires i <= |levels| && SidePassed(side, levels, locations, seen, |levels|)
    ensures SidePassed(side, levels, locations, seen, i)
  {
    hide LevelSound, DistinctSlotIds, SlotIds, Flat;
    var all, done := levels[..|levels|], levels[..i];
    assert forall j :: 0 <= j < i ==> done[j] == all[j];
    assert all == done + levels[i..];
    FlatConcat(done, levels[i..]);
    IdsConcat(Flat(done), Flat(levels[i..]));
    DistinctConcat(Flat(done), Flat(levels[i..]));
  }

  method CheckSide(side: u8, levels: seq<Level>, locations: map<u64, Location>, seen: set<u64>)
    returns (ok: bool, seen': set<u64>, count: nat)
    ensures ok <==> SideSound(side, levels, locations) && DistinctSlotIds(Flat(levels)) && SlotIds(Flat(levels)) !! seen
    ensures ok ==> seen' == seen + SlotIds(Flat(levels)) && count == |Flat(levels)|
  {
    hide LevelSound, DistinctSlotIds, SlotIds, SideSound, Flat;
    seen', count := seen, 0;
    var i := 0;
    NothingPasses(side, levels, locations, seen);
    assert levels[..|levels|] == levels;
    while i < |levels|
      invariant 0 <= i <= |levels|
      invariant SidePassed(side, levels, locations, seen, i)
      invariant seen' == seen + SlotIds(Flat(levels[..i])) && count == |Flat(levels[..i])|
    {
      SidePassOne(side, levels, locations, seen, i);
      var levelOk, levelSeen, levelCount := CheckLevel(side, levels[i], locations, seen');
      if (i > 0 && !Better(side, levels[i - 1].price, levels[i].price)) || !levelOk {
        if SidePassed(side, levels, locations, seen, |levels|) {
          SidePassedBefore(side, levels, locations, seen, i + 1);
        }
        return false, seen', count;
      }
      seen' := levelSeen;
      count := count + levelCount;
      i := i + 1;
    }
    ok := true;
  }

  lemma {:induction false} NothingPasses(side: u8, levels: seq<Level>, locations: map<u64, Location>, seen: set<u64>)
    ensures SidePassed(side, levels, locations, seen, 0)
    ensures SlotIds(Flat(levels[..0])) == {} && Flat(levels[..0]) == []
  {
  }

  lemma {:induction false} SubsetOfEqualSize(a: set<u64>, b: set<u64>)
    requires a <= b
    ensures a == b <==> |a| == |b|
  {
    if a != b {
      assert |b - a| + |a| == |b| by {
        assert (b - a) + a == b;
      }
      assert b - a != {};
    }
  }

  /** Distinct indexed orders, as many as the index has entries, are exactly the
      index. */
  lemma {:induction false} CountDecidesCoverage(bids: seq<Level>, asks: seq<Level>, locations: map<u64, Location>)
    requires SideSound(BUY, bids, locations) && SideSound(SELL, asks, locations)
    requires DistinctSlotIds(Flat(bids) + Flat(asks))
    ensures locations.Keys == SlotIds(Flat(bids) + Flat(asks)) <==> |Flat(bids)| + |Flat(asks)| == |locations|
  {
    var q := Flat(bids) + Flat(asks);
    IdCount(q);
    FlatIndexed(BUY, bids, locations);
    FlatIndexed(SELL, asks, locations);
    IdsConcat(Flat(bids), Flat(asks));
    SubsetOfEqualSize(SlotIds(q), locations.Keys);
  }

  lemma {:induction false} FlatIndexed(side: u8, levels: seq<Level>, locations: map<u64, Location>)
    requires SideSound(side, levels, locations)
    ensures SlotIds(Flat(levels)) <= locations.Keys
    decreases |levels|
  {
    if levels != [] {
      assert SideSound(side, levels[1..], locations);
      FlatIndexed(side, levels[1..], locations);
      IdsConcat(levels[0].slots, Flat(levels[1..]));
      assert LevelSound(side, levels[0], locations);
    }
  }

  /** The self-check decides the declarative invariant. */
  method CheckBook(bids: seq<Level>, asks: seq<Level>, locations: map<u64, Location>) returns (ok: bool)
    ensures ok <==> BookSound(bids, asks, locations)
  {
    hide SideSound, DistinctSlotIds, SlotIds, Flat;
    if bids != [] && asks != [] && asks[0].price - bids[0].price <= 0 {
      return false;
    }
    DistinctConcat(Flat(bids), Flat(asks));
    var bidsOk, seen, bidCount := CheckSide(BUY, bids, locations, {});
    if !bidsOk {
      return false;
    }
    var asksOk, seen', askCount := CheckSide(SELL, asks, locations, seen);
    if !asksOk {
      return false;
    }
    CountDecidesCoverage(bids, asks, locations);
    ok := bidCount + askCount == |locations|;
  }

  // ---------------------------------------------------------------------
  // What passing the check tells about the orders

  /** `a` stands before `b` by price, or by arrival at the same price. */
  ghost predicate Precedes(side: u8, a: Order, b: Order) {
    (if side == BUY then a.price > b.price else a.price < b.price) || (a.price == b.price && a.sequence <= b.sequence)
  }

  /** A proper resting order of this side, where the index says it is. */
  ghost predicate Proper(side: u8, s: Slot, locations: map<u64, Location>) {
    && s.order.id != 0 && s.order.quantity > 0 && s.order.side == side && s.order.kind == LIMIT
    && s.order.id in locations && locations[s.order.id] == Location(side, s.order.price, s.node)
  }

  ghost predicate InPriority(side: u8, q: seq<Slot>) {
    forall i, j :: 0 <= i < j < |q| ==> Precedes(side, q[i].order, q[j].order)
  }

  ghost predicate AllProper(side: u8, q: seq<Slot>, locations: map<u64, Location>) {
    forall i :: 0 <= i < |q| ==> Proper(side, q[i], locations)
  }

  lemma {:induction false} LevelMeans(side: u8, l: Level, locations: map<u64, Location>)
    requires LevelSound(side, l, locations)
    ensures InPriority(side, l.slots) && AllProper(side, l.slots, locations)
    ensures forall i :: 0 <= i < |l.slots| ==> l.slots[i].order.price == l.price
  {
    hide SlotVolume;
  }

  lemma {:induction false} SideTail(side: u8, levels: seq<Level>, locations: map<u64, Location>)
    requires SideSound(side, levels, locations) && levels != []
    ensures SideSound(side, levels[1..], locations) && LevelSound(side, levels[0], locations)
    ensures LevelsOk(side, levels[1..]) && Below(side, levels[0].price, levels[1..])
  {
    hide SlotVolume, SlotsOk, Chronological, Indexed;
  }

  lemma {:induction false} JoinPriority(side: u8, a: seq<Slot>, b: seq<Slot>)
    requires InPriority(side, a) && InPriority(side, b)
    requires forall i, j :: 0 <= i < |a| && 0 <= j < |b| ==> Precedes(side, a[i].order, b[j].order)
    ensures InPriority(side, a + b)
  {
    hide Precedes;
  }

  lemma {:induction false} JoinProper(side: u8, a: seq<Slot>, b: seq<Slot>, locations: map<u64, Location>)
    requires AllProper(side, a, locations) && AllProper(side, b, locations)
    ensures AllProper(side, a + b, locations)
  {
    hide Proper;
  }

  lemma {:induction false} SideMeans(side: u8, levels: seq<Level>, locations: map<u64, Location>)
    requires SideSound(side, levels, locations)
    ensures InPriority(side, Flat(levels)) && AllProper(side, Flat(levels), locations)
    decreases |levels|
  {
    hide SideSound, LevelSound, LevelsOk, Below, InPriority, AllProper;
    if levels == [] {
      NothingMeant(side, locations);
    } else {
      var l, tail := levels[0], levels[1..];
      SideTail(side, levels, locations);
      LevelMeans(side, l, locations);
      SideMeans(side, tail, locations);
      forall i, j | 0 <= i < |l.slots| && 0 <= j < |Flat(tail)|
        ensures Precedes(side, l.slots[i].order, Flat(tail)[j].order)
      {
        SlotBelow(side, tail, l.price, j);
      }
      JoinPriority(side, l.slots, Flat(tail));
      JoinProper(side, l.slots, Flat(tail), locations);
    }
  }

  lemma {:induction false} NothingMeant(side: u8, locations: map<u64, Location>)
    ensures InPriority(side, []) && AllProper(side, [], locations)
  {
  }

  lemma {:induction false} FrontBest(side: u8, levels: seq<Level>, locations: map<u64, Location>, i: nat)
    requires SideSound(side, levels, locations) && InPriority(side, Flat(levels)) && i < |Flat(levels)|
    ensures levels != [] && (if side == BUY then Flat(levels)[i].order.price <= levels[0].price
                             else Flat(levels)[i].order.price >= levels[0].price)
  {
    hide SlotVolume;
    assert LevelSound(side, levels[0], locations);
    assert Flat(levels)[0] == levels[0].slots[0];
    assert i > 0 ==> Precedes(side, Flat(levels)[0].order, Flat(levels)[i].order);
  }

  /** A book that passes has every order in price and arrival order, no bid at or above
      an ask, no id twice, each order where the index says it is and nothing else in
      the index, and each level's total equal to the quantity resting there. */
  lemma {:induction false} SoundBookMeans(bids: seq<Level>, asks: seq<Level>, locations: map<u64, Location>)
    requires BookSound(bids, asks, locations)
    ensures var b, a := Flat(bids), Flat(asks);
            && InPriority(BUY, b) && InPriority(SELL, a)
            && AllProper(BUY, b, locations) && AllProper(SELL, a, locations)
            && (forall i, j :: 0 <= i < |b| && 0 <= j < |a| ==> b[i].order.price < a[j].order.price)
            && (forall i, j :: 0 <= i < j < |b + a| ==> (b + a)[i].order.id != (b + a)[j].order.id)
            && (forall id :: id in locations ==> exists i :: 0 <= i < |b + a| && (b + a)[i].order.id == id)
    ensures forall i :: 0 <= i < |bids| ==> bids[i].slots != [] && bids[i].total == Volume(Orders(bids[i].slots))
    ensures forall i :: 0 <= i < |asks| ==> asks[i].slots != [] && asks[i].total == Volume(Orders(asks[i].slots))
  {
    hide SideSound, InPriority, AllProper, Orders, Volume, Flat;
    SideMeans(BUY, bids, locations);
    SideMeans(SELL, asks, locations);
    TotalsMean(BUY, bids, locations);
    TotalsMean(SELL, asks, locations);
    forall i, j | 0 <= i < |Flat(bids)| && 0 <= j < |Flat(asks)|
      ensures Flat(bids)[i].order.price < Flat(asks)[j].order.price
    {
      FrontBest(BUY, bids, locations, i);
      FrontBest(SELL, asks, locations, j);
    }
  }

  lemma {:induction false} TotalsMean(side: u8, levels: seq<Level>, locations: map<u64, Location>)
    requires SideSound(side, levels, locations)
    ensures forall i :: 0 <= i < |levels| ==>
              levels[i].slots != [] && levels[i].total == Volume(Orders(levels[i].slots))
  {
    hide SlotVolume, Volume, Orders, SlotsOk, Chronological, Indexed;
    forall i | 0 <= i < |levels|
      ensures levels[i].slots != [] && levels[i].total == Volume(Orders(levels[i].slots))
    {
      assert LevelSound(side, levels[i], locations);
      VolumeOfOrders(levels[i].slots);
    }
  }
}
