/** What each command must do, stated without saying how: on the fields of the order,
    the limits, the ids consumed and sums over the queues. There is no execution, no
    insertion, no removal and no chain of checks in these statements. In every state
    the engine can be in, they leave exactly one outcome, and it is the engine's. */
module OrderOutcomes {
  import opened Types
  import opened Risk
  import opened Matching
  import opened Engine
  import opened EngineInvariant
  import opened EngineLaws

  // ---------------------------------------------------------------------
  // What is wrong with an order

  /** The resting quantity in `q` whose price the limit of `o` allows. */
  ghost function Available(o: Order, q: seq<Order>): nat {
    if q == [] then 0
    else (if LimitAllows(o, q[0].price) then q[0].quantity else 0) + Available(o, q[1..])
  }

  /** The queues on the side of `o` and on the other side. */
  ghost function Own(e: Engine, o: Order): seq<Order> { if o.side == BUY then e.bids else e.asks }
  ghost function Opposite(e: Engine, o: Order): seq<Order> { if o.side == BUY then e.asks else e.bids }

  /** The quantity on the other side that `o` could trade with right now. */
  ghost function Reach(e: Engine, o: Order): nat { Available(o, Opposite(e, o)) }

  /** `o` has the fault that `r` names. */
  ghost predicate Fault(r: Reason, risk: RiskConfig, e: Engine, o: Order) {
    match r
    case InvalidOrderId => o.id == 0
    case InvalidSide => o.side > 1
    case InvalidOrderType => o.kind > 1
    case InvalidTimeInForce => o.tif > 2
    case InvalidOrderFlags => o.flags > 1
    case InvalidQuantity => o.quantity == 0
    case InvalidLimitPrice => o.kind == LIMIT && o.price <= 0
    case MarketOrderCannotBeGtc => o.kind == MARKET && o.tif == GTC
    case PostOnlyRequiresGtcLimit => o.flags == 1 && (o.kind == MARKET || o.tif != GTC)
    case DuplicateOrderId => o.id in e.seen
    case RiskKillSwitch => risk.killSwitch
    case RiskMaxOrderQuantity => o.quantity > risk.maxOrderQuantity
    case RiskPriceOutOfRange => o.kind == LIMIT && !(risk.minLimitPrice <= o.price <= risk.maxLimitPrice)
    case RiskMaxNotional => o.kind == LIMIT && o.price * o.quantity > risk.maxOrderNotional
    case RiskMaxActiveOrders =>
      && o.kind == LIMIT && o.tif == GTC && Reach(e, o) < o.quantity
      && |e.bids| + |e.asks| >= risk.maxActiveOrders
    case PostOnlyWouldTrade => o.flags == 1 && Reach(e, o) > 0
    case FokNotFillable => o.tif == FOK && Reach(e, o) < o.quantity
    case _ => false
  }

  /** The order in which the documentation lists the checks. */
  function Turn(r: Reason): nat {
    match r
    case InvalidOrderId => 1
    case InvalidSide => 2
    case InvalidOrderType => 3
    case InvalidTimeInForce => 4
    case InvalidOrderFlags => 5
    case InvalidQuantity => 6
    case InvalidLimitPrice => 7
    case MarketOrderCannotBeGtc => 8
    case PostOnlyRequiresGtcLimit => 9
    case DuplicateOrderId => 10
    case RiskKillSwitch => 11
    case RiskMaxOrderQuantity => 12
    case RiskPriceOutOfRange => 13
    case RiskMaxNotional => 14
    case RiskMaxActiveOrders => 15
    case PostOnlyWouldTrade => 16
    case FokNotFillable => 17
    case _ => 0
  }

  ghost predicate Faultless(risk: RiskConfig, e: Engine, o: Order) {
    forall f: Reason :: !Fault(f, risk, e, o)
  }

  ghost predicate FirstFault(r: Reason, risk: RiskConfig, e: Engine, o: Order) {
    Fault(r, risk, e, o) && forall f: Reason :: Fault(f, risk, e, o) ==> Turn(r) <= Turn(f)
  }

  // ---------------------------------------------------------------------
  // Execution leaves the shortfall

  lemma {:induction false} NoneAvailable(o: Order, q: seq<Order>)
    requires forall i :: 0 <= i < |q| ==> !LimitAllows(o, q[i].price)
    ensures Available(o, q) == 0
  {
    hide LimitAllows;
    if q != [] {
      NoneAvailable(o, q[1..]);
    }
  }

  /** Behind a resting order that the limit excludes, it excludes every other. */
  lemma {:induction false} BeyondLimit(o: Order, q: seq<Order>)
    requires o.ValidSide() && PriorityOrdered(OppositeSide(o.side), q) && q != [] && !LimitAllows(o, q[0].price)
    ensures Available(o, q) == 0
    ensures forall i :: 0 <= i < |q| ==> !LimitAllows(o, q[i].price)
  {
    NoneAvailable(o, q);
  }

  lemma {:induction false} TailOrdered(side: u8, q: seq<Order>)
    requires PriorityOrdered(side, q) && q != []
    ensures PriorityOrdered(side, q[1..])
  {
  }

  lemma {:induction false} LeftIsShortfall(o: Order, qty: nat, q: seq<Order>)
    requires o.ValidSide() && PriorityOrdered(OppositeSide(o.side), q)
    ensures Execute(o, qty, q).left == qty - Min(qty, Available(o, q))
    decreases |q|
  {
    hide Crosses, LimitAllows, PriorityOrdered;
    CrossesIffAllowed(o);
    if qty == 0 || q == [] {
    } else if !Crosses(o, q[0].price) {
      BeyondLimit(o, q);
    } else if q[0].quantity <= qty {
      TailOrdered(OppositeSide(o.side), q);
      LeftIsShortfall(o, qty - q[0].quantity, q[1..]);
    }
  }

  lemma {:induction false} FillsIffAvailable(o: Order, qty: nat, q: seq<Order>)
    requires o.ValidSide() && PriorityOrdered(OppositeSide(o.side), q) && AllPositive(q) && qty > 0
    ensures Execute(o, qty, q).fills != [] <==> Available(o, q) > 0
  {
    hide Crosses, LimitAllows, PriorityOrdered;
    CrossesIffAllowed(o);
    if q != [] && !Crosses(o, q[0].price) {
      BeyondLimit(o, q);
    }
  }

  // ---------------------------------------------------------------------
  // The reason is the first fault

  lemma {:induction false} StaticIsFirstFault(risk: RiskConfig, e: Engine, o: Order)
    ensures ValidateStatic(o) != NoReason ==> FirstFault(ValidateStatic(o), risk, e, o)
    ensures ValidateStatic(o) == NoReason ==> forall f :: Fault(f, risk, e, o) ==> Turn(f) >= 10
    ensures ValidateStatic(o) == NoReason ==>
              o.side <= 1 && o.kind <= 1 && o.quantity > 0 && (o.PostOnly() <==> o.flags == 1)
    ensures ValidateStatic(o) == NoReason && o.kind == LIMIT ==> o.price > 0
  {
    hide Reach;
  }

  lemma {:induction false} RiskIsFirstFault(risk: RiskConfig, e: Engine, o: Order)
    requires forall f :: Fault(f, risk, e, o) ==> Turn(f) >= 11
    requires o.kind <= 1 && o.quantity > 0 && (o.kind == LIMIT ==> o.price > 0)
    ensures var r := Validate(risk, o, |e.bids| + |e.asks|, o.MayRest() && Reach(e, o) < o.quantity);
            && (r != NoReason ==> FirstFault(r, risk, e, o))
            && (r == NoReason ==> forall f :: Fault(f, risk, e, o) ==> Turn(f) >= 16)
  {
    hide Reach;
    QuotientBound(PriceBits(o.price), risk.maxOrderNotional, o.quantity);
  }

  lemma {:induction false} ProspectReaches(e: Engine, o: Order)
    requires Inv(e) && o.ValidSide() && o.quantity > 0
    ensures Prospect(e, o).left == o.quantity - Min(o.quantity, Reach(e, o))
    ensures Prospect(e, o).fills != [] <==> Reach(e, o) > 0
  {
    hide Execute, Available, PriorityOrdered, Uncrossed, DistinctIds;
    var q := e.Queue(OppositeSide(o.side));
    LivePositive(OppositeSide(o.side), q, e);
    LeftIsShortfall(o, o.quantity, q);
    FillsIffAvailable(o, o.quantity, q);
  }

  /** An order is admitted exactly when nothing is wrong with it, and otherwise the
      reason is the first fault in the documented order. */
  lemma {:induction false} AdmissionIsFirstFault(risk: RiskConfig, e: Engine, o: Order)
    requires Inv(e)
    ensures if Faultless(risk, e, o) then Admission(risk, e, o) == NoReason
            else FirstFault(Admission(risk, e, o), risk, e, o)
  {
    hide Inv, Prospect, Reach, Validate, ValidateStatic, FirstFault, Fault;
    StaticIsFirstFault(risk, e, o);
    FaultHas(risk, e, o);
    if ValidateStatic(o) == NoReason && o.id !in e.seen {
      SeenFault(risk, e, o);
      RiskIsFirstFault(risk, e, o);
      ProspectReaches(e, o);
      LastFaults(risk, e, o);
    } else if ValidateStatic(o) == NoReason {
      SeenFault(risk, e, o);
    }
  }

  lemma {:induction false} FaultHas(risk: RiskConfig, e: Engine, o: Order)
    ensures !Fault(NoReason, risk, e, o)
    ensures forall r :: FirstFault(r, risk, e, o) ==> Fault(r, risk, e, o)
  {
  }

  lemma {:induction false} SeenFault(risk: RiskConfig, e: Engine, o: Order)
    requires forall f :: Fault(f, risk, e, o) ==> Turn(f) >= 10
    ensures if o.id in e.seen then FirstFault(DuplicateOrderId, risk, e, o)
            else forall f :: Fault(f, risk, e, o) ==> Turn(f) >= 11
  {
    hide Reach;
  }

  lemma {:induction false} LastFaults(risk: RiskConfig, e: Engine, o: Order)
    requires forall f :: Fault(f, risk, e, o) ==> Turn(f) >= 11
    ensures (forall f :: Fault(f, risk, e, o) ==> Turn(f) >= 16) ==>
              if o.flags == 1 && Reach(e, o) > 0 then FirstFault(PostOnlyWouldTrade, risk, e, o)
              else if o.tif == FOK && Reach(e, o) < o.quantity then FirstFault(FokNotFillable, risk, e, o)
              else Faultless(risk, e, o)
  {
    hide Reach;
  }

  // ---------------------------------------------------------------------
  // Taking quantity off the front of a queue, in closed form

  /** `n` units reach into exactly the first `k` orders. */
  ghost predicate Covers(q: seq<Order>, n: nat, k: nat) {
    k <= |q| && n <= Volume(q[..k]) && (k > 0 ==> Volume(q[..k - 1]) < n)
  }

  /** What `rest` must be once `n` units are gone from the first `k` orders. */
  ghost predicate Leaves(q: seq<Order>, n: nat, k: nat, rest: seq<Order>)
    requires Covers(q, n, k)
  {
    var over := Volume(q[..k]) - n;
    if over == 0 then rest == q[k..]
    else
      && k > 0 && rest != [] && rest[1..] == q[k..]
      && rest[0].quantity == over && rest[0] == q[k - 1].(quantity := rest[0].quantity)
  }

  /** The share of the `i`th order in `n` units taken from the front. */
  ghost function Share(q: seq<Order>, n: nat, i: nat): int
    requires i < |q|
  {
    Min(q[i].quantity, n - Volume(q[..i]))
  }

  ghost predicate TakesShares(q: seq<Order>, n: nat, fills: seq<Fill>) {
    && Covers(q, n, |fills|)
    && forall i :: 0 <= i < |fills| ==> fills[i].maker == q[i] && fills[i].quantity == Share(q, n, i)
  }

  lemma {:induction false} VolumeTail(q: seq<Order>, i: nat)
    requires 0 < i <= |q|
    ensures Volume(q[..i]) == q[0].quantity + Volume(q[1..][..i - 1])
  {
    assert q[..i][1..] == q[1..][..i - 1];
  }

  lemma {:induction false} VolumeNone(q: seq<Order>)
    ensures Volume(q[..0]) == 0
  {
  }

  lemma {:induction false} VolumeOne(q: seq<Order>)
    requires q != []
    ensures Volume(q[..1]) == q[0].quantity
  {
    VolumeTail(q, 1);
    VolumeNone(q[1..]);
  }

  /** Taking the whole front order and `n` units of the rest. */
  lemma {:induction false} SharesExtend(q: seq<Order>, n: nat, fills: seq<Fill>, rest: seq<Order>)
    requires q != [] && q[0].quantity > 0
    requires TakesShares(q[1..], n, fills) && Leaves(q[1..], n, |fills|, rest)
    ensures TakesShares(q, q[0].quantity + n, [Fill(q[0], q[0].quantity)] + fills)
    ensures Leaves(q, q[0].quantity + n, |fills| + 1, rest)
  {
    hide Volume;
    var tail, k, all, m := q[1..], |fills|, [Fill(q[0], q[0].quantity)] + fills, q[0].quantity + n;
    VolumeTail(q, k + 1);
    VolumeNone(q);
    if k > 0 {
      VolumeTail(q, k);
      assert tail[k - 1] == q[k];
    }
    assert tail[k..] == q[k + 1..];
    forall i | 0 <= i < |all|
      ensures all[i].maker == q[i] && all[i].quantity == Share(q, m, i)
    {
      if i > 0 {
        VolumeTail(q, i);
        assert all[i] == fills[i - 1] && q[i] == tail[i - 1];
      }
    }
  }

  lemma {:induction false} SharesPart(q: seq<Order>, n: nat)
    requires q != [] && 0 < n < q[0].quantity
    ensures TakesShares(q, n, [Fill(q[0], n)])
    ensures Leaves(q, n, 1, [q[0].(quantity := q[0].quantity - n)] + q[1..])
  {
    hide Volume;
    VolumeNone(q);
    VolumeOne(q);
  }

  lemma {:induction false} SharesNone(q: seq<Order>)
    ensures TakesShares(q, 0, []) && Leaves(q, 0, 0, q)
  {
    hide Volume;
    VolumeNone(q);
    assert q[0..] == q;
  }

  /** Order-by-order execution takes the closed-form shares. */
  lemma {:induction false} ExecuteTakesShares(o: Order, qty: nat, q: seq<Order>)
    requires AllPositive(q)
    ensures var x := Execute(o, qty, q);
            && x.left <= qty
            && TakesShares(q, qty - x.left, x.fills) && Leaves(q, qty - x.left, |x.fills|, x.rest)
    decreases |q|
  {
    hide Crosses, Leaves, Covers, Share, Volume;
    if qty == 0 || q == [] || !Crosses(o, q[0].price) {
      SharesNone(q);
    } else if q[0].quantity <= qty {
      ExecuteTakesShares(o, qty - q[0].quantity, q[1..]);
      var y := Execute(o, qty - q[0].quantity, q[1..]);
      SharesExtend(q, qty - q[0].quantity - y.left, y.fills, y.rest);
    } else {
      SharesPart(q, qty);
    }
  }

  // ---------------------------------------------------------------------
  // The outcome of a new order

  /** One trade for each order reached, at its price and for its share. */
  ghost predicate Prints(e: Engine, o: Order, n: nat, trades: seq<Trade>) {
    var q := Opposite(e, o);
    && Covers(q, n, |trades|)
    && forall i :: 0 <= i < |trades| ==>
         && trades[i].id == e.nextTrade + i && trades[i].sequence == e.sequence + 1
         && trades[i].price == q[i].price && trades[i].quantity == Share(q, n, i)
         && trades[i].buyId == (if o.side == BUY then o.id else q[i].id)
         && trades[i].sellId == (if o.side == BUY then q[i].id else o.id)
  }

  /** `r` joins its own queue behind every price at least as good and before every
      worse one. */
  ghost predicate Joins(own: seq<Order>, r: Order, own': seq<Order>) {
    exists p: nat :: JoinsAt(own, r, p) && own' == own[..p] + [r] + own[p..]
  }

  ghost predicate JoinsAt(own: seq<Order>, r: Order, p: nat) {
    && p <= |own|
    && (forall i :: 0 <= i < p ==> if r.side == BUY then own[i].price >= r.price else own[i].price <= r.price)
    && (forall i :: p <= i < |own| ==> if r.side == BUY then own[i].price < r.price else own[i].price > r.price)
  }

  /** What an accepted order with `n` units executed is told. */
  ghost predicate Tells(e: Engine, o: Order, n: nat, r: Report, tradeCount: nat) {
    && r.orderId == o.id && r.sequence == e.sequence + 1 && r.command == NewOrderCommand && r.reason == NoReason
    && r.requested == o.quantity && r.executed == n && r.remaining == o.quantity - n && r.tradeCount == tradeCount
    && (n == o.quantity ==> r.status == Filled)
    && (0 < n < o.quantity ==> r.status == PartiallyFilled)
    && (n == 0 < o.quantity && o.kind == LIMIT && o.tif == GTC ==> r.status == Resting)
    && (n == 0 < o.quantity && !(o.kind == LIMIT && o.tif == GTC) ==> r.status == Expired)
  }

  ghost predicate AcceptedOutcome(e: Engine, o: Order, out: Outcome) {
    var n := Min(o.quantity, Reach(e, o));
    var e' := out.engine;
    && Prints(e, o, n, out.trades)
    && Leaves(Opposite(e, o), n, |out.trades|, Opposite(e', o))
    && (if o.kind == LIMIT && o.tif == GTC && n < o.quantity
        then Joins(Own(e, o), o.(quantity := o.quantity - n, sequence := e.sequence + 1), Own(e', o))
        else Own(e', o) == Own(e, o))
    && Tells(e, o, n, out.report, |out.trades|)
    && e'.seen == e.seen + {o.id} && e'.sequence == e.sequence + 1
    && e'.nextTrade == e.nextTrade + |out.trades|
    && e'.accepted == e.accepted + 1 && e'.rejected == e.rejected && e'.canceled == e.canceled
  }

  /** A rejected order changes the two counters and nothing else. */
  ghost predicate RejectedOutcome(e: Engine, o: Order, out: Outcome) {
    && out.trades == []
    && out.engine == e.(sequence := e.sequence + 1, rejected := e.rejected + 1)
    && var r := out.report;
       && r.orderId == o.id && r.sequence == e.sequence + 1 && r.command == NewOrderCommand
       && r.status == Rejected && r.requested == r.remaining == o.quantity && r.executed == r.tradeCount == 0
  }

  ghost predicate OrderOutcome(risk: RiskConfig, e: Engine, o: Order, out: Outcome) {
    if Faultless(risk, e, o) then AcceptedOutcome(e, o, out)
    else FirstFault(out.report.reason, risk, e, o) && RejectedOutcome(e, o, out)
  }

  lemma {:induction false} InsertJoins(own: seq<Order>, r: Order)
    requires r.ValidSide() && PriorityOrdered(r.side, own)
    ensures Joins(own, r, Insert(r.side, own, r))
  {
    hide Insert;
    var p := InsertAt(r.side, own, r);
    assert JoinsAt(own, r, p);
  }

  lemma {:induction false} AcceptPrints(e: Engine, o: Order, x: Execution)
    requires o.ValidSide() && x == Prospect(e, o) && x.left <= o.quantity
    requires TakesShares(Opposite(e, o), o.quantity - x.left, x.fills)
    ensures Prints(e, o, o.quantity - x.left, Accept(e, o).trades)
  {
    hide Execute, Covers, Share, Trades, Insert;
    TradesNumbered(o, x.fills, e.nextTrade, e.sequence + 1);
  }

  lemma {:induction false} AcceptMeets(e: Engine, o: Order)
    requires Inv(e) && o.ValidSide() && o.ValidKind() && o.quantity > 0
    ensures AcceptedOutcome(e, o, Accept(e, o))
  {
    hide Inv, Execute, Trades, Insert, TakesShares, Covers, Leaves, Joins, Prints, Reach;
    ProspectReaches(e, o);
    var q, x := Opposite(e, o), Prospect(e, o);
    QueueFacts(e, o);
    ExecuteTakesShares(o, o.quantity, q);
    AcceptPrints(e, o, x);
    SharesCover(q, o.quantity - x.left, x.fills);
    if o.MayRest() && x.left > 0 {
      InsertJoins(Own(e, o), o.(quantity := x.left, sequence := e.sequence + 1));
    }
  }

  lemma {:induction false} SharesCover(q: seq<Order>, n: nat, fills: seq<Fill>)
    requires TakesShares(q, n, fills)
    ensures Covers(q, n, |fills|)
  {
    hide Covers, Share;
  }

  lemma {:induction false} QueueFacts(e: Engine, o: Order)
    requires Inv(e) && o.ValidSide()
    ensures AllPositive(Opposite(e, o)) && PriorityOrdered(o.side, Own(e, o))
  {
    hide PriorityOrdered, Uncrossed, DistinctIds;
    LivePositive(OppositeSide(o.side), Opposite(e, o), e);
  }

  // ---------------------------------------------------------------------
  // The statements leave one outcome

  lemma {:induction false} VolumeGrows(q: seq<Order>, a: nat, b: nat)
    requires a <= b <= |q|
    ensures Volume(q[..a]) <= Volume(q[..b])
    decreases |q|
  {
    hide Volume;
    if a == 0 {
      VolumeNone(q);
    } else {
      VolumeTail(q, a);
      VolumeTail(q, b);
      VolumeGrows(q[1..], a - 1, b - 1);
    }
  }

  lemma {:induction false} CoversOnce(q: seq<Order>, n: nat, j: nat, k: nat)
    requires Covers(q, n, j) && Covers(q, n, k)
    ensures j == k
  {
    hide Volume;
    if j < k {
      VolumeGrows(q, j, k - 1);
    } else if k < j {
      VolumeGrows(q, k, j - 1);
    }
  }

  lemma {:induction false} PrintsOnce(e: Engine, o: Order, n: nat, a: seq<Trade>, b: seq<Trade>)
    requires Prints(e, o, n, a) && Prints(e, o, n, b)
    ensures a == b
  {
    hide Covers, Share;
    CoversOnce(Opposite(e, o), n, |a|, |b|);
  }

  lemma {:induction false} LeavesOnce(q: seq<Order>, n: nat, k: nat, a: seq<Order>, b: seq<Order>)
    requires Covers(q, n, k) && Leaves(q, n, k, a) && Leaves(q, n, k, b)
    ensures a == b
  {
    hide Volume;
    if n < Volume(q[..k]) {
      assert a == [a[0]] + a[1..] && b == [b[0]] + b[1..];
    }
  }

  lemma {:induction false} JoinsOnce(own: seq<Order>, r: Order, a: seq<Order>, b: seq<Order>)
    requires Joins(own, r, a) && Joins(own, r, b)
    ensures a == b
  {
    var i: nat :| JoinsAt(own, r, i) && a == own[..i] + [r] + own[i..];
    var j: nat :| JoinsAt(own, r, j) && b == own[..j] + [r] + own[j..];
  }

  lemma {:induction false} OneAcceptance(e: Engine, o: Order, a: Outcome, b: Outcome)
    requires AcceptedOutcome(e, o, a) && AcceptedOutcome(e, o, b) && o.quantity > 0
    ensures a == b
  {
    hide Prints, Leaves, Joins, Covers, Reach;
    var n := Min(o.quantity, Reach(e, o));
    PrintsOnce(e, o, n, a.trades, b.trades);
    PrintsCover(e, o, n, a.trades);
    LeavesOnce(Opposite(e, o), n, |a.trades|, Opposite(a.engine, o), Opposite(b.engine, o));
    if o.kind == LIMIT && o.tif == GTC && n < o.quantity {
      var r := o.(quantity := o.quantity - n, sequence := e.sequence + 1);
      JoinsOnce(Own(e, o), r, Own(a.engine, o), Own(b.engine, o));
    }
    SameReport(e, o, n, a.report, b.report, |a.trades|);
    SameEngine(a.engine, b.engine, o);
  }

  lemma {:induction false} PrintsCover(e: Engine, o: Order, n: nat, trades: seq<Trade>)
    requires Prints(e, o, n, trades)
    ensures Covers(Opposite(e, o), n, |trades|)
  {
    hide Covers, Share;
  }

  lemma {:induction false} SameReport(e: Engine, o: Order, n: nat, a: Report, b: Report, tradeCount: nat)
    requires Tells(e, o, n, a, tradeCount) && Tells(e, o, n, b, tradeCount) && n <= o.quantity && o.quantity > 0
    ensures a == b
  {
  }

  lemma {:induction false} SameEngine(a: Engine, b: Engine, o: Order)
    requires Own(a, o) == Own(b, o) && Opposite(a, o) == Opposite(b, o)
    requires a.seen == b.seen && a.sequence == b.sequence && a.nextTrade == b.nextTrade
    requires a.accepted == b.accepted && a.rejected == b.rejected && a.canceled == b.canceled
    ensures a == b
  {
  }

  lemma {:induction false} FirstOnce(a: Reason, b: Reason, risk: RiskConfig, e: Engine, o: Order)
    requires FirstFault(a, risk, e, o) && FirstFault(b, risk, e, o)
    ensures a == b
  {
    hide Reach;
  }

  lemma {:induction false} OneRejection(e: Engine, o: Order, a: Outcome, b: Outcome)
    requires RejectedOutcome(e, o, a) && RejectedOutcome(e, o, b) && a.report.reason == b.report.reason
    ensures a == b
  {
  }

  lemma {:induction false} ProcessMeets(risk: RiskConfig, e: Engine, o: Order)
    requires Inv(e)
    ensures OrderOutcome(risk, e, o, ProcessOrder(risk, e, o))
    ensures Faultless(risk, e, o) ==> o.quantity > 0
  {
    hide Inv, AcceptedOutcome, FirstFault, Admission, Accept, Faultless;
    AdmissionIsFirstFault(risk, e, o);
    FirstIsFault(risk, e, o);
    if Faultless(risk, e, o) {
      FaultlessIsValid(risk, e, o);
      AcceptMeets(e, o);
    }
  }

  lemma {:induction false} FirstIsFault(risk: RiskConfig, e: Engine, o: Order)
    ensures !FirstFault(NoReason, risk, e, o)
  {
    hide Reach;
  }

  lemma {:induction false} FaultlessIsValid(risk: RiskConfig, e: Engine, o: Order)
    requires Faultless(risk, e, o)
    ensures o.ValidSide() && o.ValidKind() && o.quantity > 0
  {
    hide Fault;
    NoFault(InvalidSide, risk, e, o);
    NoFault(InvalidOrderType, risk, e, o);
    NoFault(InvalidQuantity, risk, e, o);
  }

  lemma {:induction false} NoFault(f: Reason, risk: RiskConfig, e: Engine, o: Order)
    requires !Fault(f, risk, e, o)
    ensures f == InvalidSide ==> o.side <= 1
    ensures f == InvalidOrderType ==> o.kind <= 1
    ensures f == InvalidQuantity ==> o.quantity > 0
  {
    hide Reach;
  }

  /** The statements about a new order hold of one outcome, the engine's. */
  lemma {:induction false} OutcomeDetermined(risk: RiskConfig, e: Engine, o: Order, out: Outcome)
    requires Inv(e)
    ensures OrderOutcome(risk, e, o, out) <==> out == ProcessOrder(risk, e, o)
  {
    hide Inv, AcceptedOutcome, RejectedOutcome, FirstFault, Faultless, ProcessOrder;
    ProcessMeets(risk, e, o);
    var it := ProcessOrder(risk, e, o);
    if OrderOutcome(risk, e, o, out) {
      if Faultless(risk, e, o) {
        OneAcceptance(e, o, out, it);
      } else {
        FirstOnce(out.report.reason, it.report.reason, risk, e, o);
        OneRejection(e, o, out, it);
      }
    }
  }

  // ---------------------------------------------------------------------
  // What callers may rely on

  /** When an order is accepted, written out. */
  lemma {:induction false} AcceptedIff(risk: RiskConfig, e: Engine, o: Order)
    requires Inv(e)
    ensures ProcessOrder(risk, e, o).report.Accepted() <==>
              && o.id != 0 && o.id !in e.seen
              && (o.side == BUY || o.side == SELL) && o.flags <= 1 && o.quantity > 0
              && (o.kind == LIMIT || o.kind == MARKET) && (o.tif == GTC || o.tif == IOC || o.tif == FOK)
              && (o.kind == LIMIT ==> o.price > 0) && (o.kind == MARKET ==> o.tif != GTC)
              && !risk.killSwitch && WithinLimits(risk, o)
              && (o.flags == 1 ==> o.kind == LIMIT && o.tif == GTC && Reach(e, o) == 0)
              && (o.tif == FOK ==> o.quantity <= Reach(e, o))
              && (o.kind == LIMIT && o.tif == GTC && Reach(e, o) < o.quantity ==>
                    |e.bids| + |e.asks| < risk.maxActiveOrders)
  {
    hide Inv, Reach, Prints, Leaves, Joins, FirstFault, Accept;
    ProcessMeets(risk, e, o);
    AcceptedStatus(risk, e, o);
    FaultlessIff(risk, e, o);
  }

  lemma {:induction false} AcceptedStatus(risk: RiskConfig, e: Engine, o: Order)
    requires Inv(e)
    ensures ProcessOrder(risk, e, o).report.Accepted() <==> Faultless(risk, e, o)
  {
    hide Inv, Prints, Leaves, Joins, FirstFault, Faultless, Admission, Reach;
    ProcessMeets(risk, e, o);
  }

  lemma {:induction false} FaultlessIff(risk: RiskConfig, e: Engine, o: Order)
    ensures Faultless(risk, e, o) <==>
              && o.id != 0 && o.id !in e.seen && o.side <= 1 && o.flags <= 1 && o.quantity > 0
              && o.kind <= 1 && o.tif <= 2
              && (o.kind == LIMIT ==> o.price > 0) && (o.kind == MARKET ==> o.tif != GTC)
              && !risk.killSwitch && WithinLimits(risk, o)
              && (o.flags == 1 ==> o.kind == LIMIT && o.tif == GTC && Reach(e, o) == 0)
              && (o.tif == FOK ==> o.quantity <= Reach(e, o))
              && (o.kind == LIMIT && o.tif == GTC && Reach(e, o) < o.quantity ==>
                    |e.bids| + |e.asks| < risk.maxActiveOrders)
  {
    hide Reach, WithinLimits, Fault, Faultless;
    FaultsListed(risk, e, o);
    WellFormedIff(risk, e, o);
    BookFaults(risk, e, o);
    if o.kind == LIMIT ==> o.price > 0 {
      LimitFaults(risk, e, o);
    }
  }

  lemma {:induction false} FaultsListed(risk: RiskConfig, e: Engine, o: Order)
    ensures Faultless(risk, e, o) <==>
              && !Fault(InvalidOrderId, risk, e, o) && !Fault(InvalidSide, risk, e, o)
              && !Fault(InvalidOrderType, risk, e, o) && !Fault(InvalidTimeInForce, risk, e, o)
              && !Fault(InvalidOrderFlags, risk, e, o) && !Fault(InvalidQuantity, risk, e, o)
              && !Fault(InvalidLimitPrice, risk, e, o) && !Fault(MarketOrderCannotBeGtc, risk, e, o)
              && !Fault(PostOnlyRequiresGtcLimit, risk, e, o) && !Fault(DuplicateOrderId, risk, e, o)
              && !Fault(RiskKillSwitch, risk, e, o) && !Fault(RiskMaxOrderQuantity, risk, e, o)
              && !Fault(RiskPriceOutOfRange, risk, e, o) && !Fault(RiskMaxNotional, risk, e, o)
              && !Fault(RiskMaxActiveOrders, risk, e, o) && !Fault(PostOnlyWouldTrade, risk, e, o)
              && !Fault(FokNotFillable, risk, e, o)
  {
    hide Fault;
    OtherReasons(risk, e, o);
    forall f: Reason | Fault(f, risk, e, o)
      ensures !Faultless(risk, e, o)
      ensures || f == NoReason || f == OrderNotFound || f == EngineShuttingDown
              || f == InvalidOrderId || f == InvalidSide || f == InvalidOrderType
              || f == InvalidTimeInForce || f == InvalidOrderFlags || f == InvalidQuantity
              || f == InvalidLimitPrice || f == MarketOrderCannotBeGtc || f == PostOnlyRequiresGtcLimit
              || f == DuplicateOrderId || f == RiskKillSwitch || f == RiskMaxOrderQuantity
              || f == RiskPriceOutOfRange || f == RiskMaxNotional || f == RiskMaxActiveOrders
              || f == PostOnlyWouldTrade || f == FokNotFillable
    {
    }
  }

  lemma {:induction false} OtherReasons(risk: RiskConfig, e: Engine, o: Order)
    ensures forall f :: f in {NoReason, OrderNotFound, EngineShuttingDown} ==> !Fault(f, risk, e, o)
  {
    hide Reach;
  }

  lemma {:induction false} WellFormedIff(risk: RiskConfig, e: Engine, o: Order)
    ensures (&& !Fault(InvalidOrderId, risk, e, o) && !Fault(InvalidSide, risk, e, o)
             && !Fault(InvalidOrderType, risk, e, o) && !Fault(InvalidTimeInForce, risk, e, o)
             && !Fault(InvalidOrderFlags, risk, e, o) && !Fault(InvalidQuantity, risk, e, o)
             && !Fault(InvalidLimitPrice, risk, e, o) && !Fault(MarketOrderCannotBeGtc, risk, e, o)
             && !Fault(PostOnlyRequiresGtcLimit, risk, e, o) && !Fault(DuplicateOrderId, risk, e, o))
       <==> && o.id != 0 && o.id !in e.seen && o.side <= 1 && o.flags <= 1 && o.quantity > 0
            && o.kind <= 1 && o.tif <= 2
            && (o.kind == LIMIT ==> o.price > 0) && (o.kind == MARKET ==> o.tif != GTC)
            && (o.flags == 1 ==> o.kind != MARKET && o.tif == GTC)
  {
    hide Reach;
  }

  lemma {:induction false} BookFaults(risk: RiskConfig, e: Engine, o: Order)
    ensures Fault(RiskKillSwitch, risk, e, o) <==> risk.killSwitch
    ensures Fault(RiskMaxActiveOrders, risk, e, o) <==>
              && o.kind == LIMIT && o.tif == GTC && Reach(e, o) < o.quantity
              && |e.bids| + |e.asks| >= risk.maxActiveOrders
    ensures Fault(PostOnlyWouldTrade, risk, e, o) <==> o.flags == 1 && Reach(e, o) > 0
    ensures Fault(FokNotFillable, risk, e, o) <==> o.tif == FOK && Reach(e, o) < o.quantity
  {
    hide Reach;
  }

  lemma {:induction false} LimitFaults(risk: RiskConfig, e: Engine, o: Order)
    requires o.kind == LIMIT ==> o.price > 0
    ensures WithinLimits(risk, o) <==>
              && !Fault(RiskMaxOrderQuantity, risk, e, o) && !Fault(RiskPriceOutOfRange, risk, e, o)
              && !Fault(RiskMaxNotional, risk, e, o)
  {
    hide Reach;
  }

  // ---------------------------------------------------------------------
  // Cancellation

  /** `q'` is `q` without the order that has this id. */
  ghost predicate Without(q: seq<Order>, id: u64, q': seq<Order>) {
    if id in Ids(q) then exists i :: 0 <= i < |q| && q[i].id == id && q' == q[..i] + q[i + 1..]
    else q' == q
  }

  ghost predicate CancelOutcome(e: Engine, id: u64, out: Outcome) {
    var e', r := out.engine, out.report;
    && out.trades == []
    && r.orderId == id && r.sequence == e.sequence + 1 && r.command == CancelCommand
    && r.executed == r.remaining == r.tradeCount == 0
    && Without(e.bids, id, e'.bids) && Without(e.asks, id, e'.asks)
    && e'.seen == e.seen && e'.sequence == e.sequence + 1 && e'.nextTrade == e.nextTrade
    && e'.accepted == e.accepted && e'.rejected == e.rejected
    && if id in Ids(e.bids) + Ids(e.asks) then
         && r.status == Canceled && r.reason == NoReason && e'.canceled == e.canceled + 1
         && (forall i :: 0 <= i < |e.bids| && e.bids[i].id == id ==> r.requested == e.bids[i].quantity)
         && (forall i :: 0 <= i < |e.asks| && e.asks[i].id == id ==> r.requested == e.asks[i].quantity)
       else
         && r.status == Rejected && r.reason == (if id == 0 then InvalidOrderId else OrderNotFound)
         && r.requested == 0 && e'.canceled == e.canceled
  }

  lemma {:induction false} RemoveIsWithout(q: seq<Order>, id: u64)
    requires DistinctIds(q)
    ensures Without(q, id, Remove(q, id))
    ensures id in Ids(q) <==> Find(q, id) < |q|
    ensures forall i :: 0 <= i < |q| && q[i].id == id ==> i == Find(q, id)
  {
    hide Remove, Find;
    RemoveAt(q, id);
    if Find(q, id) < |q| {
      assert q[Find(q, id)].id in Ids(q);
    }
  }

  lemma {:induction false} WithoutOnce(q: seq<Order>, id: u64, a: seq<Order>, b: seq<Order>)
    requires DistinctIds(q) && Without(q, id, a) && Without(q, id, b)
    ensures a == b
  {
  }

  lemma {:induction false} IdZeroNeverRests(e: Engine)
    requires Inv(e)
    ensures 0 !in Ids(e.bids) && 0 !in Ids(e.asks)
    ensures DistinctIds(e.bids) && DistinctIds(e.asks) && Ids(e.bids) !! Ids(e.asks)
  {
    hide PriorityOrdered, Uncrossed, DistinctIds;
  }

  lemma {:induction false} CancelMeets(e: Engine, id: u64)
    requires Inv(e)
    ensures CancelOutcome(e, id, CancelOrder(e, id))
  {
    hide Inv, Remove, Find, Without, DistinctIds, Ids;
    IdZeroNeverRests(e);
    RemoveIsWithout(e.bids, id);
    RemoveIsWithout(e.asks, id);
    StaysWithout(e.bids, id);
    StaysWithout(e.asks, id);
  }

  lemma {:induction false} StaysWithout(q: seq<Order>, id: u64)
    ensures id !in Ids(q) ==> Without(q, id, q)
  {
  }

  /** The statements about a cancel hold of one outcome, the engine's. */
  lemma {:induction false} CancelDetermined(e: Engine, id: u64, out: Outcome)
    requires Inv(e)
    ensures CancelOutcome(e, id, out) <==> out == CancelOrder(e, id)
  {
    hide Inv, Without, DistinctIds, CancelOrder;
    CancelMeets(e, id);
    if CancelOutcome(e, id, out) {
      var it := CancelOrder(e, id);
      IdZeroNeverRests(e);
      WithoutOnce(e.bids, id, out.engine.bids, it.engine.bids);
      WithoutOnce(e.asks, id, out.engine.asks, it.engine.asks);
    }
  }

  /** After a cancel the id rests nowhere, and every other id rests where it did. */
  lemma {:induction false} CancelRemoves(e: Engine, id: u64)
    requires Inv(e)
    ensures var out := CancelOrder(e, id);
            && (out.report.Accepted() <==> id in Ids(e.bids) + Ids(e.asks))
            && Ids(out.engine.bids) == Ids(e.bids) - {id} && Ids(out.engine.asks) == Ids(e.asks) - {id}
  {
    hide Inv, Without, DistinctIds, CancelOrder, Ids;
    CancelMeets(e, id);
    IdZeroNeverRests(e);
    WithoutIds(e.bids, id, CancelOrder(e, id).engine.bids);
    WithoutIds(e.asks, id, CancelOrder(e, id).engine.asks);
  }

  lemma {:induction false} WithoutIds(q: seq<Order>, id: u64, q': seq<Order>)
    requires DistinctIds(q) && Without(q, id, q')
    ensures Ids(q') == Ids(q) - {id}
  {
    if id in Ids(q) {
      var i :| 0 <= i < |q| && q[i].id == id && q' == q[..i] + q[i + 1..];
      RemovedIds(q, i);
    }
  }

  /** An order with quantity left over has exhausted what its limit allows: every
      order still resting on the other side is priced beyond a limit order's limit,
      and against a market order none is left. */
  lemma {:induction false} LeftoverExhausts(risk: RiskConfig, e: Engine, o: Order)
    requires Inv(e) && Admission(risk, e, o) == NoReason && Accept(e, o).report.remaining > 0
    ensures var q := Opposite(Accept(e, o).engine, o);
            && (o.kind == MARKET ==> q == [])
            && (o.kind == LIMIT && o.side == BUY ==> forall i :: 0 <= i < |q| ==> q[i].price > o.price)
            && (o.kind == LIMIT && o.side == SELL ==> forall i :: 0 <= i < |q| ==> q[i].price < o.price)
  {
    hide Inv, Execute, Trades, Insert, Admission, Validate, PriorityOrdered;
    AdmittedIsValid(risk, e, o);
    StaticIsFirstFault(risk, e, o);
    QueueFacts(e, o);
    var x := Prospect(e, o);
    StopsOutOfReach(o, o.quantity, Opposite(e, o));
    CrossesIffAllowed(o);
    RestOrdered(e, o);
    if x.rest != [] {
      BeyondLimit(o, x.rest);
    }
  }

  lemma {:induction false} RestOrdered(e: Engine, o: Order)
    requires Inv(e) && o.ValidSide()
    ensures PriorityOrdered(OppositeSide(o.side), Prospect(e, o).rest)
  {
    hide Execute, PriorityOrdered, DistinctIds, Uncrossed, SuffixOf;
    var q := Opposite(e, o);
    LivePositive(OppositeSide(o.side), q, e);
    var k := RestIsSuffix(o, o.quantity, q);
    SuffixKeeps(OppositeSide(o.side), Prospect(e, o).rest, q, k, e);
  }

  // ---------------------------------------------------------------------
  // The counters

  /** How many of the reports answer this kind of command in this way. */
  ghost function Number(reports: seq<Report>, command: CommandKind, accepted: bool): nat {
    if reports == [] then 0
    else
      var n := |reports| - 1;
      Number(reports[..n], command, accepted)
      + (if reports[n].command == command && reports[n].Accepted() == accepted then 1 else 0)
  }

  lemma {:induction false} NumberSnoc(reports: seq<Report>, r: Report, command: CommandKind, accepted: bool)
    ensures Number(reports + [r], command, accepted)
         == Number(reports, command, accepted) + (if r.command == command && r.Accepted() == accepted then 1 else 0)
  {
    assert (reports + [r])[..|reports|] == reports;
  }

  lemma {:induction false} ApplyCounts(risk: RiskConfig, e: Engine, c: Command)
    requires Inv(e)
    ensures var out := Apply(risk, e, c);
            var e', r := out.engine, out.report;
            && r.command == (if c.NewOrder? then NewOrderCommand else CancelCommand)
            && e'.accepted == e.accepted + (if c.NewOrder? && r.Accepted() then 1 else 0)
            && e'.rejected == e.rejected + (if c.NewOrder? && !r.Accepted() then 1 else 0)
            && e'.canceled == e.canceled + (if c.Cancel? && r.Accepted() then 1 else 0)
  {
    hide Inv, ProcessOrder, CancelOrder, Prints, Leaves, Joins, Without, Faultless, FirstFault, Reach, Ids;
    match c
    case NewOrder(o) =>
      ProcessMeets(risk, e, o);
    case Cancel(id) =>
      CancelMeets(e, id);
  }

  /** The counters count the answers: orders accepted, orders rejected, and orders
      cancelled, which failed cancels do not touch. */
  ghost predicate Counted(e: Engine, reports: seq<Report>) {
    && e.accepted == Number(reports, NewOrderCommand, true)
    && e.rejected == Number(reports, NewOrderCommand, false)
    && e.canceled == Number(reports, CancelCommand, true)
  }

  lemma {:induction false} CountedOnce(risk: RiskConfig, e: Engine, reports: seq<Report>, c: Command)
    requires Inv(e) && Counted(e, reports)
    ensures Counted(Apply(risk, e, c).engine, reports + [Apply(risk, e, c).report])
  {
    hide Apply, Number, Inv;
    ApplyCounts(risk, e, c);
    var r := Apply(risk, e, c).report;
    NumberSnoc(reports, r, NewOrderCommand, true);
    NumberSnoc(reports, r, NewOrderCommand, false);
    NumberSnoc(reports, r, CancelCommand, true);
  }

  lemma {:induction false} RunCounts(risk: RiskConfig, commands: seq<Command>)
    ensures Counted(Run(risk, EMPTY, commands), Reports(risk, EMPTY, commands))
  {
    hide Apply, Counted, Inv;
    if commands == [] {
      NoneCounted();
    } else {
      var n := |commands| - 1;
      RunCounts(risk, commands[..n]);
      EmptyOk();
      RunKeepsInv(risk, EMPTY, commands[..n]);
      CountedOnce(risk, Run(risk, EMPTY, commands[..n]), Reports(risk, EMPTY, commands[..n]), commands[n]);
    }
  }

  lemma {:induction false} NoneCounted()
    ensures Counted(EMPTY, [])
  {
  }

  /** Reports and trades of a run are numbered from one. */
  lemma {:induction false} NumberedFromOne(risk: RiskConfig, commands: seq<Command>)
    ensures var reports, tape := Reports(risk, EMPTY, commands), Tape(risk, EMPTY, commands);
            && (forall i :: 0 <= i < |reports| ==> reports[i].sequence == i + 1)
            && (forall i :: 0 <= i < |tape| ==> tape[i].id == i + 1)
  {
    RunNumbers(risk, EMPTY, commands);
    ReportsNumbered(risk, commands);
  }

  lemma {:induction false} ReportsNumbered(risk: RiskConfig, commands: seq<Command>)
    ensures var reports := Reports(risk, EMPTY, commands);
            |reports| == |commands| && forall i :: 0 <= i < |reports| ==> reports[i].sequence == i + 1
  {
    hide Apply;
    if commands != [] {
      var n := |commands| - 1;
      ReportsNumbered(risk, commands[..n]);
      RunNumbers(risk, EMPTY, commands[..n]);
      ApplyNumbers(risk, Run(risk, EMPTY, commands[..n]), commands[n]);
    }
  }
}
