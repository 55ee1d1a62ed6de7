/** The reference engine: a value, and one function per command.

    It has no price levels, no cached totals, no index and no preflight. Where
    the implementation asks `executableQuantity` before it touches the book,
    the reference executes the order against the queue and looks at the
    outcome. That the implementation reaches the same decisions is proved in
    `MatchingEngines`. */
module Engine {
  import opened Types
  import opened Risk
  import opened Matching

  datatype Engine = Engine(bids: seq<Order>, asks: seq<Order>, seen: set<u64>, sequence: nat,
                           nextTrade: nat, accepted: nat, rejected: nat, canceled: nat)
  {
    function Queue(side: u8): seq<Order> { if side == BUY then bids else asks }

    function WithQueue(side: u8, q: seq<Order>): Engine {
      if side == BUY then this.(bids := q) else this.(asks := q)
    }

    function ActiveOrders(): nat { |bids| + |asks| }
  }

  const EMPTY: Engine := Engine([], [], {}, 0, 1, 0, 0, 0)

  datatype Outcome = Outcome(engine: Engine, report: Report, trades: seq<Trade>)

  function ValidateStatic(o: Order): Reason {
    if o.id == 0 then InvalidOrderId
    else if !o.ValidSide() then InvalidSide
    else if !o.ValidKind() then InvalidOrderType
    else if !o.ValidTif() then InvalidTimeInForce
    else if !o.KnownFlags() then InvalidOrderFlags
    else if o.quantity == 0 then InvalidQuantity
    else if o.kind == LIMIT && o.price <= 0 then InvalidLimitPrice
    else if o.kind == MARKET && o.tif == GTC then MarketOrderCannotBeGtc
    else if o.PostOnly() && (o.kind != LIMIT || o.tif != GTC) then PostOnlyRequiresGtcLimit
    else NoReason
  }

  /** The execution that `o` would get right now. */
  function Prospect(e: Engine, o: Order): Execution {
    Execute(o, o.quantity, e.Queue(OppositeSide(o.side)))
  }

  function Admission(risk: RiskConfig, e: Engine, o: Order): Reason {
    var malformed := ValidateStatic(o);
    if malformed != NoReason then malformed
    else if o.id in e.seen then DuplicateOrderId
    else
      var x := Prospect(e, o);
      var limit := Validate(risk, o, e.ActiveOrders(), o.MayRest() && x.left > 0);
      if limit != NoReason then limit
      else if o.PostOnly() && x.fills != [] then PostOnlyWouldTrade
      else if o.tif == FOK && x.left > 0 then FokNotFillable
      else NoReason
  }

  function RejectedReport(o: Order, sequence: nat, reason: Reason): Report {
    Report(o.id, sequence, NewOrderCommand, Rejected, reason, o.quantity, 0, o.quantity, 0)
  }

  function AcceptedReport(o: Order, sequence: nat, left: u32, tradeCount: nat): Report
    requires left <= o.quantity
  {
    var executed := o.quantity - left;
    var status :=
      if left == 0 then Status.Filled
      else if executed > 0 then PartiallyFilled
      else if o.MayRest() then Resting
      else Expired;
    Report(o.id, sequence, NewOrderCommand, status, NoReason, o.quantity, executed, left, tradeCount)
  }

  lemma {:induction false} ExecuteLeavesAtMost(taker: Order, qty: nat, q: seq<Order>)
    ensures Execute(taker, qty, q).left <= qty
    decreases |q|
  {
    if qty != 0 && q != [] && Crosses(taker, q[0].price) && q[0].quantity <= qty {
      ExecuteLeavesAtMost(taker, qty - q[0].quantity, q[1..]);
    }
  }

  function Accept(e: Engine, o: Order): Outcome {
    var x := Prospect(e, o);
    ExecuteLeavesAtMost(o, o.quantity, e.Queue(OppositeSide(o.side)));
    var sequence := e.sequence + 1;
    var own := e.Queue(o.side);
    var own' := if o.MayRest() && x.left > 0
                then Insert(o.side, own, o.(quantity := x.left, sequence := sequence))
                else own;
    var e' := e.WithQueue(OppositeSide(o.side), x.rest).WithQueue(o.side, own')
               .(seen := e.seen + {o.id}, sequence := sequence,
                 nextTrade := e.nextTrade + |x.fills|, accepted := e.accepted + 1);
    Outcome(e', AcceptedReport(o, sequence, x.left, |x.fills|),
            Trades(o, x.fills, e.nextTrade, sequence))
  }

  function ProcessOrder(risk: RiskConfig, e: Engine, o: Order): Outcome {
    var reason := Admission(risk, e, o);
    if reason != NoReason then
      Outcome(e.(sequence := e.sequence + 1, rejected := e.rejected + 1),
              RejectedReport(o, e.sequence + 1, reason), [])
    else
      Accept(e, o)
  }

  function CancelOrder(e: Engine, id: u64): Outcome {
    var e1 := e.(sequence := e.sequence + 1);
    var b := Find(e.bids, id);
    var a := Find(e.asks, id);
    if id == 0 || (b == |e.bids| && a == |e.asks|) then
      var reason := if id == 0 then InvalidOrderId else OrderNotFound;
      Outcome(e1, Report(id, e1.sequence, CancelCommand, Rejected, reason, 0, 0, 0, 0), [])
    else if b < |e.bids| then
      Outcome(e1.(bids := Remove(e.bids, id), canceled := e.canceled + 1),
              Report(id, e1.sequence, CancelCommand, Canceled, NoReason, e.bids[b].quantity, 0, 0, 0), [])
    else
      Outcome(e1.(asks := Remove(e.asks, id), canceled := e.canceled + 1),
              Report(id, e1.sequence, CancelCommand, Canceled, NoReason, e.asks[a].quantity, 0, 0, 0), [])
  }

  function Apply(risk: RiskConfig, e: Engine, c: Command): Outcome {
    match c
    case NewOrder(o) => ProcessOrder(risk, e, o)
    case Cancel(id) => CancelOrder(e, id)
  }

  /** The engine after a whole command list. */
  function Run(risk: RiskConfig, e: Engine, commands: seq<Command>): Engine {
    if commands == [] then e
    else
      var n := |commands| - 1;
      Apply(risk, Run(risk, e, commands[..n]), commands[n]).engine
  }

  /** Every trade a command list prints, in order. */
  function Tape(risk: RiskConfig, e: Engine, commands: seq<Command>): seq<Trade> {
    if commands == [] then []
    else
      var n := |commands| - 1;
      Tape(risk, e, commands[..n]) + Apply(risk, Run(risk, e, commands[..n]), commands[n]).trades
  }

  /** Every report a command list returns, in order. */
  function Reports(risk: RiskConfig, e: Engine, commands: seq<Command>): seq<Report> {
    if commands == [] then []
    else
      var n := |commands| - 1;
      Reports(risk, e, commands[..n]) + [Apply(risk, Run(risk, e, commands[..n]), commands[n]).report]
  }

  // ---------------------------------------------------------------------
  // The engine invariant

  /** Price priority, then arrival. */
  ghost predicate PriorityOrdered(side: u8, q: seq<Order>) {
    forall i, j :: 0 <= i < j < |q| ==>
      Better(side, q[i].price, q[j].price) || (q[i].price == q[j].price && q[i].sequence < q[j].sequence)
  }

  ghost predicate Live(side: u8, o: Order, e: Engine) {
    && o.id in e.seen
    && o.side == side
    && o.MayRest()
    && o.price > 0
    && o.quantity > 0
    && o.sequence <= e.sequence
  }

  ghost predicate AllLive(side: u8, q: seq<Order>, e: Engine) {
    forall i :: 0 <= i < |q| ==> Live(side, q[i], e)
  }

  ghost predicate DistinctIds(q: seq<Order>) {
    forall i, j :: 0 <= i < j < |q| ==> q[i].id != q[j].id
  }

  ghost predicate Uncrossed(bids: seq<Order>, asks: seq<Order>) {
    forall i, j :: 0 <= i < |bids| && 0 <= j < |asks| ==> bids[i].price < asks[j].price
  }

  ghost predicate Inv(e: Engine) {
    && 0 !in e.seen
    && PriorityOrdered(BUY, e.bids) && PriorityOrdered(SELL, e.asks)
    && AllLive(BUY, e.bids, e) && AllLive(SELL, e.asks, e)
    && DistinctIds(e.bids) && DistinctIds(e.asks)
    && Ids(e.bids) !! Ids(e.asks)
    && Uncrossed(e.bids, e.asks)
  }

  lemma {:induction false} AdmittedIsValid(risk: RiskConfig, e: Engine, o: Order)
    requires Admission(risk, e, o) == NoReason
    ensures ValidateStatic(o) == NoReason && o.id !in e.seen
  {
  }
}
