/** Concurrent recording into the histogram: any number of `record` calls, one
    atomic access per step. Loads, and failed compare-and-swaps, may return old
    values; a compare-and-swap may also fail for no reason. Whatever the
    interleaving, the fields end as sequential recording would leave them. */
module AtomicHistogram {
  import opened Types
  import opened Histogram

  datatype Pc =
    | AddBucket | AddCount | AddTotal
    | LoadMin | TryMin(seen: u64)
    | LoadMax | TryMax(seen: u64)
    | Finished

  datatype Call = Call(value: u64, pc: Pc)

  /** `order` lists the calls in the order in which they added to the total. */
  datatype State = State(buckets: seq<nat>, count: nat, total: u64, min: u64, max: u64,
                         calls: map<nat, Call>, order: seq<nat>)

  datatype Label = Begin(id: nat, value: u64) | Advance(id: nat, seen: u64)

  function At(s: State, id: nat, pc: Pc): State
    requires id in s.calls
  {
    s.(calls := s.calls[id := s.calls[id].(pc := pc)])
  }

  /** `seen` is what this step's load or failed swap returns. The minimum only
      ever falls, so an old value of it is no smaller; likewise the maximum. */
  ghost predicate Step(s: State, l: Label, s': State) {
    match l
    case Begin(id, value) => id !in s.calls && s' == s.(calls := s.calls[id := Call(value, AddBucket)])
    case Advance(id, seen) =>
      && id in s.calls
      && var v := s.calls[id].value;
         match s.calls[id].pc
         case AddBucket =>
           var b := BucketFor(v);
           b < |s.buckets| && s' == At(s, id, AddCount).(buckets := s.buckets[b := s.buckets[b] + 1])
         case AddCount => s' == At(s, id, AddTotal).(count := s.count + 1)
         case AddTotal => s' == At(s, id, LoadMin).(total := (s.total + v) % WORD, order := s.order + [id])
         case LoadMin => seen >= s.min && s' == At(s, id, TryMin(seen))
         case TryMin(expected) =>
           if v >= expected then s' == At(s, id, LoadMax)
           else || (s.min == expected && s' == At(s, id, LoadMax).(min := v))
                || (seen >= s.min && s' == At(s, id, TryMin(seen)))
         case LoadMax => seen <= s.max && s' == At(s, id, TryMax(seen))
         case TryMax(expected) =>
           if v <= expected then s' == At(s, id, Finished)
           else || (s.max == expected && s' == At(s, id, Finished).(max := v))
                || (seen <= s.max && s' == At(s, id, TryMax(seen)))
         case Finished => false
  }

  ghost predicate Init(s: State) {
    s == State(seq(BUCKETS, _ => 0), 0, 0, WORD - 1, 0, map[], [])
  }

  // ---------------------------------------------------------------------
  // The invariant

  predicate Bucketed(c: Call) { !c.pc.AddBucket? }
  predicate Counted(c: Call) { Bucketed(c) && !c.pc.AddCount? }
  predicate Totalled(c: Call) { Counted(c) && !c.pc.AddTotal? }
  predicate PastMin(c: Call) { c.pc.LoadMax? || c.pc.TryMax? || c.pc.Finished? }

  /** The calls that raised bucket `b`. */
  ghost function Raised(calls: map<nat, Call>, b: nat): set<nat> {
    set id | id in calls && Bucketed(calls[id]) && BucketFor(calls[id].value) == b
  }

  ghost function CountedCalls(calls: map<nat, Call>): set<nat> {
    set id | id in calls && Counted(calls[id])
  }

  ghost predicate BucketsExact(s: State) {
    && |s.buckets| == BUCKETS
    && (forall b :: 0 <= b < BUCKETS ==> s.buckets[b] == |Raised(s.calls, b)|)
    && s.count == |CountedCalls(s.calls)|
  }

  /** Both extremes are values offered, or still the initial ones; each call has
      been heard once it is past its loop, and what it saw was not too good. */
  ghost predicate ExtremesOk(s: State) {
    && (s.min == WORD - 1 || Offered(s.calls, s.min))
    && (s.max == 0 || Offered(s.calls, s.max))
    && forall id :: id in s.calls ==> CallOk(s.min, s.max, s.calls[id])
  }

  ghost predicate Offered(calls: map<nat, Call>, v: u64) {
    exists id :: id in calls && calls[id].value == v
  }

  ghost predicate CallOk(min: u64, max: u64, c: Call) {
    && (PastMin(c) ==> min <= c.value)
    && (c.pc.Finished? ==> c.value <= max)
    && (c.pc.TryMin? ==> min <= c.pc.seen)
    && (c.pc.TryMax? ==> c.pc.seen <= max)
  }

  /** The values of the listed calls. */
  ghost function Values(calls: map<nat, Call>, order: seq<nat>): (v: seq<u64>)
    requires forall i :: 0 <= i < |order| ==> order[i] in calls
    ensures |v| == |order| && forall i :: 0 <= i < |order| ==> v[i] == calls[order[i]].value
  {
    seq(|order|, i requires 0 <= i < |order| => calls[order[i]].value)
  }

  ghost predicate Lists(calls: map<nat, Call>, order: seq<nat>) {
    && (forall i :: 0 <= i < |order| ==> order[i] in calls && Totalled(calls[order[i]]))
    && (forall i, j :: 0 <= i < j < |order| ==> order[i] != order[j])
    && (forall id :: id in calls && Totalled(calls[id]) ==> id in order)
  }

  ghost predicate TotalExact(s: State) {
    Lists(s.calls, s.order) && s.total == Sum(Values(s.calls, s.order)) % WORD
  }

  ghost predicate Inv(s: State) { BucketsExact(s) && TotalExact(s) && ExtremesOk(s) }

  lemma {:induction false} SetGains(a: set<nat>, b: set<nat>, id: nat)
    requires id !in a && b == a + {id}
    ensures |b| == |a| + 1
  {
  }

  ghost predicate SameStanding(c: Call, c': Call) {
    c.value == c'.value && Bucketed(c) == Bucketed(c') && Counted(c) == Counted(c')
  }

  lemma {:induction false} SameGroups(s: State, s': State, id: nat)
    requires BucketsExact(s) && s'.buckets == s.buckets && s'.count == s.count
    requires id in s'.calls && s'.calls == s.calls[id := s'.calls[id]]
    requires id in s.calls ==> SameStanding(s.calls[id], s'.calls[id])
    requires id !in s.calls ==> s'.calls[id].pc.AddBucket?
    ensures BucketsExact(s')
  {
    hide BucketFor;
    assert forall b :: 0 <= b < BUCKETS ==> Raised(s'.calls, b) == Raised(s.calls, b);
    assert CountedCalls(s'.calls) == CountedCalls(s.calls);
  }

  lemma {:induction false} RaisesOwn(calls: map<nat, Call>, id: nat, c: Call, b: nat)
    requires id in calls && !Bucketed(calls[id]) && Bucketed(c) && c.value == calls[id].value
    ensures |Raised(calls[id := c], b)| == |Raised(calls, b)| + One(BucketFor(c.value) == b)
  {
    hide BucketFor;
    if BucketFor(c.value) == b {
      assert Raised(calls[id := c], b) == Raised(calls, b) + {id};
    } else {
      assert Raised(calls[id := c], b) == Raised(calls, b);
    }
  }

  lemma {:induction false} BucketStep(s: State, id: nat, s': State)
    requires BucketsExact(s) && id in s.calls && s.calls[id].pc.AddBucket? && Step(s, Advance(id, 0), s')
    ensures BucketsExact(s')
  {
    hide BucketFor, Raised;
    var c := s.calls[id].(pc := AddCount);
    forall b | 0 <= b < BUCKETS
      ensures s'.buckets[b] == |Raised(s'.calls, b)|
    {
      RaisesOwn(s.calls, id, c, b);
    }
    assert CountedCalls(s'.calls) == CountedCalls(s.calls);
  }

  lemma {:induction false} CountStep(s: State, id: nat, s': State)
    requires BucketsExact(s) && id in s.calls && s.calls[id].pc.AddCount? && Step(s, Advance(id, 0), s')
    ensures BucketsExact(s')
  {
    hide BucketFor;
    assert forall a :: 0 <= a < BUCKETS ==> Raised(s'.calls, a) == Raised(s.calls, a);
    assert CountedCalls(s'.calls) == CountedCalls(s.calls) + {id};
    SetGains(CountedCalls(s.calls), CountedCalls(s'.calls), id);
  }

  lemma {:induction false} StepCounts(s: State, l: Label, s': State)
    requires BucketsExact(s) && Step(s, l, s')
    ensures BucketsExact(s')
  {
    hide BucketsExact, BucketFor;
    if l.Advance? && s.calls[l.id].pc.AddBucket? {
      BucketStep(s, l.id, s');
    } else if l.Advance? && s.calls[l.id].pc.AddCount? {
      CountStep(s, l.id, s');
    } else {
      SameGroups(s, s', l.id);
    }
  }

  lemma {:induction false} TotalStep(s: State, id: nat, s': State)
    requires TotalExact(s) && id in s.calls && s.calls[id].pc.AddTotal? && Step(s, Advance(id, 0), s')
    ensures TotalExact(s')
  {
    hide Sum, BucketFor;
    var v := s.calls[id].value;
    assert forall i :: 0 <= i < |s.order| ==> s'.calls[s.order[i]].value == s.calls[s.order[i]].value;
    assert Values(s'.calls, s'.order) == Values(s.calls, s.order) + [v];
    SumWraps(Values(s.calls, s.order), v);
  }

  lemma {:induction false} SameTotal(s: State, s': State, id: nat)
    requires TotalExact(s) && s'.order == s.order && s'.total == s.total
    requires id in s'.calls && s'.calls == s.calls[id := s'.calls[id]]
    requires id in s.calls ==> s.calls[id].value == s'.calls[id].value
    requires id in s.calls ==> Totalled(s.calls[id]) == Totalled(s'.calls[id])
    requires id !in s.calls ==> !Totalled(s'.calls[id])
    ensures TotalExact(s')
  {
    hide Sum;
    assert Values(s'.calls, s'.order) == Values(s.calls, s.order);
  }

  lemma {:induction false} StepTotals(s: State, l: Label, s': State)
    requires TotalExact(s) && Step(s, l, s')
    ensures TotalExact(s')
  {
    hide TotalExact, BucketFor;
    if l.Advance? && s.calls[l.id].pc.AddTotal? {
      TotalStep(s, l.id, s');
    } else {
      SameTotal(s, s', l.id);
    }
  }

  lemma {:induction false} StillOffered(calls: map<nat, Call>, id: nat, c: Call, v: u64)
    requires Offered(calls, v) && (id in calls ==> calls[id].value == c.value)
    ensures Offered(calls[id := c], v)
  {
    var d :| d in calls && calls[d].value == v;
    assert calls[id := c][d].value == v;
  }

  lemma {:induction false} NowOffered(calls: map<nat, Call>, id: nat)
    requires id in calls
    ensures Offered(calls, calls[id].value)
  {
  }

  lemma {:induction false} StepExtremes(s: State, l: Label, s': State)
    requires ExtremesOk(s) && Step(s, l, s')
    ensures ExtremesOk(s')
  {
    hide Offered, BucketFor, CallOk, Step;
    MovedOk(s, l, s');
    var c := s'.calls[l.id];
    if Offered(s.calls, s.min) {
      StillOffered(s.calls, l.id, c, s.min);
    }
    if Offered(s.calls, s.max) {
      StillOffered(s.calls, l.id, c, s.max);
    }
    NowOffered(s'.calls, l.id);
    forall id | id in s'.calls && id != l.id
      ensures CallOk(s'.min, s'.max, s'.calls[id])
    {
      WiderOk(s, s', s.calls[id]);
    }
  }

  /** Extremes only move outwards, and only to the value of the moving call. */
  lemma {:induction false} MovedOk(s: State, l: Label, s': State)
    requires Step(s, l, s') && (l.id in s.calls ==> CallOk(s.min, s.max, s.calls[l.id]))
    ensures l.id in s'.calls && s'.calls == s.calls[l.id := s'.calls[l.id]]
    ensures l.id in s.calls ==> s.calls[l.id].value == s'.calls[l.id].value
    ensures s'.min <= s.min && s.max <= s'.max
    ensures s'.min == s.min || s'.min == s'.calls[l.id].value
    ensures s'.max == s.max || s'.max == s'.calls[l.id].value
    ensures CallOk(s'.min, s'.max, s'.calls[l.id])
  {
    hide BucketFor;
  }

  lemma {:induction false} WiderOk(s: State, s': State, c: Call)
    requires CallOk(s.min, s.max, c) && s'.min <= s.min && s.max <= s'.max
    ensures CallOk(s'.min, s'.max, c)
  {
  }

  // ---------------------------------------------------------------------
  // Whole runs

  ghost predicate Execution(run: seq<State>, labels: seq<Label>) {
    && |run| == |labels| + 1 && Init(run[0])
    && forall n :: 0 <= n < |labels| ==> Step(run[n], labels[n], run[n + 1])
  }

  lemma {:induction false} InitOk(s: State)
    requires Init(s)
    ensures Inv(s)
  {
    assert forall b :: Raised(s.calls, b) == {};
    assert CountedCalls(s.calls) == {};
  }

  lemma {:induction false} AlwaysInv(run: seq<State>, labels: seq<Label>, n: nat)
    requires Execution(run, labels) && n < |run|
    ensures Inv(run[n])
  {
    hide Step, BucketsExact, TotalExact, ExtremesOk, Init;
    if n == 0 {
      InitOk(run[0]);
    } else {
      AlwaysInv(run, labels, n - 1);
      StepCounts(run[n - 1], labels[n - 1], run[n]);
      StepTotals(run[n - 1], labels[n - 1], run[n]);
      StepExtremes(run[n - 1], labels[n - 1], run[n]);
    }
  }

  /** The listed calls with a value in bucket `b`. */
  ghost function Landed(calls: map<nat, Call>, order: seq<nat>, b: nat): set<nat>
    requires forall i :: 0 <= i < |order| ==> order[i] in calls
  {
    set id | id in order && BucketFor(calls[id].value) == b
  }

  lemma {:induction false} LandedCounts(calls: map<nat, Call>, order: seq<nat>, b: nat)
    requires forall i :: 0 <= i < |order| ==> order[i] in calls
    requires forall i, j :: 0 <= i < j < |order| ==> order[i] != order[j]
    ensures InBucket(Values(calls, order), b) == |Landed(calls, order, b)|
  {
    hide BucketFor, InBucket;
    if order == [] {
      NoneLanded(calls, b);
    } else {
      var n := |order| - 1;
      var rest, id := order[..n], order[n];
      LandedCounts(calls, rest, b);
      assert Values(calls, order) == Values(calls, rest) + [calls[id].value];
      Snoc(Values(calls, rest), calls[id].value, b);
      LandedSnoc(calls, order, n, b);
    }
  }

  lemma {:induction false} NoneLanded(calls: map<nat, Call>, b: nat)
    ensures InBucket(Values(calls, []), b) == 0 == |Landed(calls, [], b)|
  {
    assert Landed(calls, [], b) == {};
  }

  lemma {:induction false} LandedSnoc(calls: map<nat, Call>, order: seq<nat>, n: nat, b: nat)
    requires |order| == n + 1 && forall i :: 0 <= i < |order| ==> order[i] in calls
    requires forall i, j :: 0 <= i < j < |order| ==> order[i] != order[j]
    ensures |Landed(calls, order, b)| == |Landed(calls, order[..n], b)| + One(BucketFor(calls[order[n]].value) == b)
  {
    hide BucketFor;
    var rest, id := order[..n], order[n];
    MembersSnoc(order, n);
    if BucketFor(calls[id].value) == b {
      assert Landed(calls, order, b) == Landed(calls, rest, b) + {id};
    } else {
      assert Landed(calls, order, b) == Landed(calls, rest, b);
    }
  }

  ghost function Members(order: seq<nat>): set<nat> { set id | id in order }

  lemma {:induction false} MembersSnoc(order: seq<nat>, n: nat)
    requires |order| == n + 1
    ensures Members(order) == Members(order[..n]) + {order[n]}
    ensures forall x :: x in order <==> x in order[..n] || x == order[n]
  {
    assert order == order[..n] + [order[n]];
  }

  lemma {:induction false} DistinctSize(order: seq<nat>)
    requires forall i, j :: 0 <= i < j < |order| ==> order[i] != order[j]
    ensures |Members(order)| == |order|
  {
    if order == [] {
      assert Members(order) == {};
    } else {
      var n := |order| - 1;
      DistinctSize(order[..n]);
      MembersSnoc(order, n);
    }
  }

  /** `order` names every call once. */
  ghost predicate Enumerates(order: seq<nat>, calls: map<nat, Call>) {
    && (forall i :: 0 <= i < |order| ==> order[i] in calls)
    && (forall i, j :: 0 <= i < j < |order| ==> order[i] != order[j])
    && (forall id :: id in calls ==> id in order)
  }

  ghost predicate AllReturned(s: State) {
    forall id :: id in s.calls ==> s.calls[id].pc.Finished?
  }

  /** However the calls interleave, once all have returned there is an order of the
      calls such that the fields are what recording their values one by one in that
      order leaves: every bucket, the count, the wrapped total, minimum and maximum. */
  lemma {:induction false} AllRecorded(run: seq<State>, labels: seq<Label>, n: nat)
    requires Execution(run, labels) && n < |run| && AllReturned(run[n])
    ensures Enumerates(run[n].order, run[n].calls)
    ensures var s := run[n];
            Summarises(s.buckets, s.count, s.total, s.min, s.max, Values(s.calls, s.order))
  {
    hide Execution, Summarises, BucketFor, Sum;
    AlwaysInv(run, labels, n);
    AtRest(run[n]);
  }

  lemma {:induction false} AtRest(s: State)
    requires Inv(s) && AllReturned(s)
    ensures Enumerates(s.order, s.calls)
    ensures Summarises(s.buckets, s.count, s.total, s.min, s.max, Values(s.calls, s.order))
  {
    hide BucketFor, Sum, InBucket;
    var v := Values(s.calls, s.order);
    forall b | 0 <= b < BUCKETS
      ensures s.buckets[b] == InBucket(v, b)
    {
      LandedCounts(s.calls, s.order, b);
      assert Raised(s.calls, b) == Landed(s.calls, s.order, b);
    }
    DistinctSize(s.order);
    assert CountedCalls(s.calls) == Members(s.order);
    RestingExtremes(s, v);
  }

  lemma {:induction false} RestingExtremes(s: State, v: seq<u64>)
    requires ExtremesOk(s) && AllReturned(s) && Enumerates(s.order, s.calls) && v == Values(s.calls, s.order)
    ensures forall x :: x in v ==> s.min <= x <= s.max
    ensures if v == [] then s.min == WORD - 1 && s.max == 0 else s.min in v && s.max in v
  {
    forall x | x in v
      ensures s.min <= x <= s.max
    {
      var i :| 0 <= i < |v| && v[i] == x;
      assert CallOk(s.min, s.max, s.calls[s.order[i]]);
    }
    if v == [] {
      NobodyOffers(s);
    } else {
      assert v[0] in v;
      OfferedIsListed(s, v, s.min);
      OfferedIsListed(s, v, s.max);
    }
  }

  lemma {:induction false} NobodyOffers(s: State)
    requires ExtremesOk(s) && Enumerates(s.order, s.calls) && s.order == []
    ensures s.min == WORD - 1 && s.max == 0
  {
    assert forall id :: id !in s.calls;
  }

  lemma {:induction false} OfferedIsListed(s: State, v: seq<u64>, x: u64)
    requires Enumerates(s.order, s.calls) && v == Values(s.calls, s.order)
    ensures Offered(s.calls, x) ==> x in v
  {
    if Offered(s.calls, x) {
      var id :| id in s.calls && s.calls[id].value == x;
      var i :| 0 <= i < |s.order| && s.order[i] == id;
      assert v[i] == x;
    }
  }
}
