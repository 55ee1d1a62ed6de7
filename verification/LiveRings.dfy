/** The live process and its viewer on the bounded rings they really use.

    Publishing is a producer's walk through `try_push`, retried while the ring is
    full; taking is a consumer's walk through `try_pop`. Every step is a step of
    `Live` or invisible there. */
module LiveRings {
  import opened Types
  import opened Words
  import opened Codec
  import opened Journal
  import opened Live
  import Spsc
  import Engine

  datatype Rings = Rings(state: State, trades: Spsc.Ring<Trade>, reports: Spsc.Ring<Report>)

  datatype Move =
    | Engine(l: Label)                        // the engine, outside its output rings
    | TradeRing(t: Spsc.Label<Trade>)
    | ReportRing(r: Spsc.Label<Report>)
    | Done(flag: bool)                        // the viewer loads engine_done
    | TradesIdle(head: nat) | ReportsIdle(head: nat)  // and asks whether the rings are empty

  // ---------------------------------------------------------------------
  // Steps

  /** What a step inside the trade ring means to the engine and the viewer. */
  ghost predicate TradeEffect(s: State, ring: Spsc.Ring<Trade>, l: Spsc.Label<Trade>, s': State) {
    match l
    case StartPush(item) => s.phase.Publishing? && s.phase.trades != [] && item == s.phase.trades[0] && s' == s
    case PublishHead =>
      && s.phase.Publishing? && s.phase.trades != [] && ring.producer.Written?
      && s' == s.(phase := Publishing(s.phase.trades[1..], s.phase.report),
                  tradeQueue := s.tradeQueue + [ring.producer.item])
    case StartPop => s.viewer.Trades? && s' == s
    case ObserveHead(h) => s' == s.(tradeView := h)
    case Empty => s.viewer.Trades? && s' == s.(viewer := Viewer.Reports(s.viewer.any))
    case PublishTail =>
      && ring.consumer.Read? && ring.consumer.out.Whole?
      && s' == s.(viewer := Trades(true), seenTrades := s.seenTrades + [ring.consumer.out.item])
    case _ => s' == s
  }

  ghost predicate ReportEffect(s: State, ring: Spsc.Ring<Report>, l: Spsc.Label<Report>, s': State) {
    match l
    case StartPush(item) => s.phase.Publishing? && s.phase.trades == [] && item == s.phase.report && s' == s
    case PublishHead =>
      && ring.producer.Written?
      && s' == s.(phase := Polling, reportQueue := s.reportQueue + [ring.producer.item])
    case StartPop => s.viewer.Reports? && s' == s
    case ObserveHead(h) => s' == s.(reportView := h)
    case Empty =>
      s.viewer.Reports? && s' == s.(viewer := if s.viewer.any then Trades(false) else AskDone)
    case PublishTail =>
      && ring.consumer.Read? && ring.consumer.out.Whole?
      && s' == s.(viewer := Viewer.Reports(true), seenReports := s.seenReports + [ring.consumer.out.item])
    case _ => s' == s
  }

  /** Seeing engine_done set makes every earlier publication visible. */
  ghost function Caught<T>(ring: Spsc.Ring<T>): Spsc.Ring<T> { ring.(headSeen := |ring.pushed|) }

  ghost predicate RingsStep(k: Session, c: Rings, m: Move, c': Rings) {
    var s := c.state;
    match m
    case Engine(l) =>
      && EngineStep(k, s, l, c'.state) && !l.PublishTrade? && !l.PublishReport?
      && c'.trades == c.trades && c'.reports == c.reports
    case TradeRing(l) =>
      Spsc.Step(c.trades, l, c'.trades) && c'.reports == c.reports && TradeEffect(s, c.trades, l, c'.state)
    case ReportRing(l) =>
      Spsc.Step(c.reports, l, c'.reports) && c'.trades == c.trades && ReportEffect(s, c.reports, l, c'.state)
    case Done(flag) =>
      && s.viewer.AskDone? && (flag ==> s.done)
      && if flag then
           c' == Rings(s.(viewer := AskTrades, tradeView := |c.trades.pushed|, reportView := |c.reports.pushed|),
                       Caught(c.trades), Caught(c.reports))
         else c' == c.(state := s.(viewer := Trades(false)))
    case TradesIdle(h) =>
      && s.viewer.AskTrades? && c.trades.headSeen <= h <= |c.trades.pushed|
      && c' == c.(trades := c.trades.(headSeen := h),
                  state := s.(viewer := if h % WORD == c.trades.tail then AskReports else Trades(false),
                              tradeView := h))
    case ReportsIdle(h) =>
      && s.viewer.AskReports? && c.reports.headSeen <= h <= |c.reports.pushed|
      && c' == c.(reports := c.reports.(headSeen := h),
                  state := s.(viewer := if h % WORD == c.reports.tail then Exited else Trades(false), reportView := h))
  }

  ghost predicate RingsInit(k: Session, c: Rings) {
    Init(k, c.state) && Spsc.Init(c.trades) && Spsc.Init(c.reports)
  }

  // ---------------------------------------------------------------------
  // The coupling

  /** The ring carries exactly this history. */
  ghost predicate Carries<T>(ring: Spsc.Ring<T>, queue: seq<T>, seen: seq<T>, view: nat) {
    && Spsc.Inv(ring) && ring.pushed == queue && ring.headSeen == view
    && |ring.popped| == |seen| && forall i :: 0 <= i < |seen| ==> ring.popped[i] == Spsc.Whole(seen[i])
  }

  ghost predicate TradesWhere(s: State, ring: Spsc.Ring<Trade>) {
    && (!ring.producer.Idle? ==> s.phase.Publishing? && s.phase.trades != [] && ring.producer.item == s.phase.trades[0])
    && (!ring.consumer.Waiting? ==> s.viewer.Trades?)
  }

  ghost predicate ReportsWhere(s: State, ring: Spsc.Ring<Report>) {
    && (!ring.producer.Idle? ==> s.phase.Publishing? && s.phase.trades == [] && ring.producer.item == s.phase.report)
    && (!ring.consumer.Waiting? ==> s.viewer.Reports?)
  }

  ghost predicate Coupled(k: Session, c: Rings) {
    var s := c.state;
    && Inv(k, s)
    && Carries(c.trades, s.tradeQueue, s.seenTrades, s.tradeView)
    && Carries(c.reports, s.reportQueue, s.seenReports, s.reportView)
    && TradesWhere(s, c.trades) && ReportsWhere(s, c.reports)
  }

  ghost predicate StepOrStutter(k: Session, s: State, s': State) {
    s' == s || exists l :: Step(k, s, l, s')
  }

  // ---------------------------------------------------------------------
  // What a ring step means

  /** Only publication, observation and delivery change the history. */
  lemma {:induction false} RingMeans<T>(ring: Spsc.Ring<T>, l: Spsc.Label<T>, ring': Spsc.Ring<T>,
                                        queue: seq<T>, seen: seq<T>, view: nat)
    requires Carries(ring, queue, seen, view) && Spsc.Step(ring, l, ring')
    ensures Spsc.Inv(ring')
    ensures l.PublishHead? ==> ring.producer.Written? && Carries(ring', queue + [ring.producer.item], seen, view)
    ensures l.ObserveHead? ==> view <= l.head <= |queue| && Carries(ring', queue, seen, l.head)
    ensures l.PublishTail? ==> && |seen| < view <= |queue| && ring.consumer.Read?
                               && ring.consumer.out == Spsc.Whole(queue[|seen|])
                               && Carries(ring', queue, seen + [queue[|seen|]], view)
    ensures l.Empty? ==> view == |seen|
    ensures !l.PublishHead? && !l.ObserveHead? && !l.PublishTail? ==> Carries(ring', queue, seen, view)
  {
    hide Spsc.Contents, Spsc.ProducerOk, BitAnd, PowerOfTwo;
    RingKeeps(ring, l, ring');
    if l.Empty? {
      EmptyMeans(ring);
    }
  }

  lemma {:induction false} RingKeeps<T>(ring: Spsc.Ring<T>, l: Spsc.Label<T>, ring': Spsc.Ring<T>)
    requires Spsc.Inv(ring) && Spsc.Step(ring, l, ring')
    ensures Spsc.Inv(ring')
  {
    hide Spsc.Inv, Spsc.Step;
    Spsc.StepKeepsInv(ring, l, ring');
  }

  /** Equal wrapped counters are equal counters. */
  lemma {:induction false} SameCounter<T>(ring: Spsc.Ring<T>, h: nat)
    requires Spsc.Inv(ring) && ring.headSeen <= h <= |ring.pushed|
    ensures h % WORD == ring.tail <==> h == |ring.popped|
  {
    hide Spsc.Contents, Spsc.Delivered, Spsc.ProducerOk, Spsc.ConsumerOk, PowerOfTwo;
    Spsc.CapacityFits(ring.log);
    WrapDifference(h, |ring.popped|);
  }

  lemma {:induction false} EmptyMeans<T>(ring: Spsc.Ring<T>)
    requires Spsc.Inv(ring) && ring.consumer.TookHead? && ring.consumer.tail == ring.consumer.head
    ensures ring.headSeen == |ring.popped|
  {
    hide Spsc.Contents, Spsc.Delivered, Spsc.ProducerOk, PowerOfTwo;
    SameCounter(ring, ring.headSeen);
  }

  /** Observing outside `try_pop` changes only the view. */
  lemma {:induction false} Observes<T>(ring: Spsc.Ring<T>, h: nat, queue: seq<T>, seen: seq<T>, view: nat)
    requires Carries(ring, queue, seen, view) && ring.consumer.Waiting? && view <= h <= |queue|
    ensures Carries(ring.(headSeen := h), queue, seen, h)
  {
    hide PowerOfTwo;
  }

  // ---------------------------------------------------------------------
  // Steps keep the coupling and are steps of the abstract process

  /** Rings that hold what the state says, apart from `Live`'s own invariant. */
  ghost predicate RingsOk(c: Rings) {
    && Carries(c.trades, c.state.tradeQueue, c.state.seenTrades, c.state.tradeView)
    && Carries(c.reports, c.state.reportQueue, c.state.seenReports, c.state.reportView)
    && TradesWhere(c.state, c.trades) && ReportsWhere(c.state, c.reports)
  }

  lemma {:induction false} TradeStep(k: Session, c: Rings, l: Spsc.Label<Trade>, c': Rings)
    requires RingsOk(c) && RingsStep(k, c, TradeRing(l), c')
    ensures RingsOk(c') && StepOrStutter(k, c.state, c'.state)
  {
    hide Carries, EngineStep, Spsc.Step, BitAnd, PowerOfTwo;
    var s, s' := c.state, c'.state;
    RingMeans(c.trades, l, c'.trades, s.tradeQueue, s.seenTrades, s.tradeView);
    RingFacts(c.trades, s.tradeQueue, s.seenTrades, s.tradeView);
    TradePlaces(c, l, c');
    TradeBecomes(k, c, l, c');
  }

  /** Where engine and viewer are, after a step in the trade ring. */
  lemma {:induction false} TradePlaces(c: Rings, l: Spsc.Label<Trade>, c': Rings)
    requires TradesWhere(c.state, c.trades) && ReportsWhere(c.state, c.reports) && c'.reports == c.reports
    requires Spsc.Step(c.trades, l, c'.trades) && TradeEffect(c.state, c.trades, l, c'.state)
    ensures TradesWhere(c'.state, c'.trades) && ReportsWhere(c'.state, c'.reports)
    ensures l.PublishHead? ==> c.trades.producer.Written? && c.trades.producer.item == c.state.phase.trades[0]
    ensures l.ObserveHead? || l.Empty? || l.PublishTail? ==> c.state.viewer.Trades?
  {
    hide BitAnd, PowerOfTwo;
  }

  lemma {:induction false} TradeBecomes(k: Session, c: Rings, l: Spsc.Label<Trade>, c': Rings)
    requires TradeEffect(c.state, c.trades, l, c'.state)
    requires l.PublishHead? ==> c.trades.producer.Written? && c.trades.producer.item == c.state.phase.trades[0]
    requires l.ObserveHead? || l.Empty? || l.PublishTail? ==> c.state.viewer.Trades?
    requires var s := c.state;
             && (l.ObserveHead? ==> s.tradeView <= l.head <= |s.tradeQueue|)
             && (l.Empty? ==> s.tradeView == |s.seenTrades| <= |s.tradeQueue|)
             && (l.PublishTail? ==> && |s.seenTrades| < s.tradeView <= |s.tradeQueue| && c.trades.consumer.Read?
                                    && c.trades.consumer.out == Spsc.Whole(s.tradeQueue[|s.seenTrades|]))
    ensures StepOrStutter(k, c.state, c'.state)
  {
    var s, s' := c.state, c'.state;
    if l.PublishHead? {
      assert EngineStep(k, s, PublishTrade, s');
      assert Step(k, s, PublishTrade, s');
    } else if l.ObserveHead? {
      assert ViewerStep(s, SeeTrades(l.head), s');
      assert Step(k, s, SeeTrades(l.head), s');
    } else if l.Empty? || l.PublishTail? {
      assert ViewerStep(s, TakeTrade(s.tradeView), s');
      assert Step(k, s, TakeTrade(s.tradeView), s');
    }
  }

  lemma {:induction false} ReportStep(k: Session, c: Rings, l: Spsc.Label<Report>, c': Rings)
    requires RingsOk(c) && RingsStep(k, c, ReportRing(l), c')
    ensures RingsOk(c') && StepOrStutter(k, c.state, c'.state)
  {
    hide Carries, EngineStep, Spsc.Step, BitAnd, PowerOfTwo;
    var s, s' := c.state, c'.state;
    RingMeans(c.reports, l, c'.reports, s.reportQueue, s.seenReports, s.reportView);
    RingFacts(c.reports, s.reportQueue, s.seenReports, s.reportView);
    ReportPlaces(c, l, c');
    ReportBecomes(k, c, l, c');
  }

  lemma {:induction false} ReportPlaces(c: Rings, l: Spsc.Label<Report>, c': Rings)
    requires TradesWhere(c.state, c.trades) && ReportsWhere(c.state, c.reports) && c'.trades == c.trades
    requires Spsc.Step(c.reports, l, c'.reports) && ReportEffect(c.state, c.reports, l, c'.state)
    ensures TradesWhere(c'.state, c'.trades) && ReportsWhere(c'.state, c'.reports)
    ensures l.PublishHead? ==> && c.state.phase.Publishing? && c.state.phase.trades == []
                               && c.reports.producer.Written? && c.reports.producer.item == c.state.phase.report
    ensures l.ObserveHead? || l.Empty? || l.PublishTail? ==> c.state.viewer.Reports?
  {
    hide BitAnd, PowerOfTwo;
  }

  lemma {:induction false} ReportBecomes(k: Session, c: Rings, l: Spsc.Label<Report>, c': Rings)
    requires ReportEffect(c.state, c.reports, l, c'.state)
    requires l.PublishHead? ==> && c.state.phase.Publishing? && c.state.phase.trades == []
                                && c.reports.producer.Written? && c.reports.producer.item == c.state.phase.report
    requires l.ObserveHead? || l.Empty? || l.PublishTail? ==> c.state.viewer.Reports?
    requires var s := c.state;
             && (l.ObserveHead? ==> s.reportView <= l.head <= |s.reportQueue|)
             && (l.Empty? ==> s.reportView == |s.seenReports| <= |s.reportQueue|)
             && (l.PublishTail? ==> && |s.seenReports| < s.reportView <= |s.reportQueue| && c.reports.consumer.Read?
                                    && c.reports.consumer.out == Spsc.Whole(s.reportQueue[|s.seenReports|]))
    ensures StepOrStutter(k, c.state, c'.state)
  {
    var s, s' := c.state, c'.state;
    if l.PublishHead? {
      assert EngineStep(k, s, PublishReport, s');
      assert Step(k, s, PublishReport, s');
    } else if l.ObserveHead? {
      assert ViewerStep(s, SeeReports(l.head), s');
      assert Step(k, s, SeeReports(l.head), s');
    } else if l.Empty? || l.PublishTail? {
      assert ViewerStep(s, TakeReport(s.reportView), s');
      assert Step(k, s, TakeReport(s.reportView), s');
    }
  }

  lemma {:induction false} EngineOnly(k: Session, c: Rings, l: Label, c': Rings)
    requires RingsOk(c) && RingsStep(k, c, Move.Engine(l), c')
    ensures RingsOk(c') && StepOrStutter(k, c.state, c'.state)
  {
    hide Carries, Encode, Engine.Apply;
    assert Step(k, c.state, l, c'.state);
  }

  lemma {:induction false} ViewerAsks(k: Session, c: Rings, m: Move, c': Rings)
    requires RingsOk(c) && RingsStep(k, c, m, c') && (m.Done? || m.TradesIdle? || m.ReportsIdle?)
    ensures RingsOk(c') && StepOrStutter(k, c.state, c'.state)
  {
    hide Carries, EngineStep, Spsc.Inv;
    var s, s' := c.state, c'.state;
    RingFacts(c.trades, s.tradeQueue, s.seenTrades, s.tradeView);
    RingFacts(c.reports, s.reportQueue, s.seenReports, s.reportView);
    match m
    case Done(flag) =>
      if flag {
        Observes(c.trades, |s.tradeQueue|, s.tradeQueue, s.seenTrades, s.tradeView);
        Observes(c.reports, |s.reportQueue|, s.reportQueue, s.seenReports, s.reportView);
      }
      assert Step(k, s, LoadDone(flag), s');
    case TradesIdle(h) =>
      Observes(c.trades, h, s.tradeQueue, s.seenTrades, s.tradeView);
      SameCounter(c.trades, h);
      assert Step(k, s, TradesEmpty(h), s');
    case ReportsIdle(h) =>
      Observes(c.reports, h, s.reportQueue, s.seenReports, s.reportView);
      SameCounter(c.reports, h);
      assert Step(k, s, ReportsEmpty(h), s');
  }

  lemma {:induction false} RingFacts<T>(ring: Spsc.Ring<T>, queue: seq<T>, seen: seq<T>, view: nat)
    requires Carries(ring, queue, seen, view)
    ensures Spsc.Inv(ring) && ring.pushed == queue && ring.headSeen == view && |ring.popped| == |seen|
    ensures |seen| <= view <= |queue|
  {
    hide PowerOfTwo;
  }

  lemma {:induction false} RingsStepKeeps(k: Session, c: Rings, m: Move, c': Rings)
    requires Coupled(k, c) && RingsStep(k, c, m, c')
    ensures Coupled(k, c') && StepOrStutter(k, c.state, c'.state)
  {
    hide Inv, Carries, RingsStep, TradesWhere, ReportsWhere, Step;
    match m {
      case Engine(l) => EngineOnly(k, c, l, c');
      case TradeRing(l) => TradeStep(k, c, l, c');
      case ReportRing(l) => ReportStep(k, c, l, c');
      case Done(_) => ViewerAsks(k, c, m, c');
      case TradesIdle(_) => ViewerAsks(k, c, m, c');
      case ReportsIdle(_) => ViewerAsks(k, c, m, c');
    }
    if c'.state != c.state {
      var l :| Step(k, c.state, l, c'.state);
      StepKeepsInv(k, c.state, l, c'.state);
    }
  }

  // ---------------------------------------------------------------------
  // Whole runs

  ghost predicate RingsExecution(k: Session, run: seq<Rings>, moves: seq<Move>) {
    && |run| == |moves| + 1 && RingsInit(k, run[0])
    && forall n :: 0 <= n < |moves| ==> RingsStep(k, run[n], moves[n], run[n + 1])
  }

  lemma {:induction false} AlwaysCoupled(k: Session, run: seq<Rings>, moves: seq<Move>, n: nat)
    requires RingsExecution(k, run, moves) && n < |run|
    ensures Coupled(k, run[n])
  {
    hide Coupled, RingsStep, RingsInit;
    if n == 0 {
      RingsInitOk(k, run[0]);
    } else {
      AlwaysCoupled(k, run, moves, n - 1);
      RingsStepKeeps(k, run[n - 1], moves[n - 1], run[n]);
    }
  }

  lemma {:induction false} RingsInitOk(k: Session, c: Rings)
    requires RingsInit(k, c)
    ensures Coupled(k, c)
  {
    hide Inv, Spsc.Inv, WholeFile, Recovered;
    InitOk(k, c.state);
    Spsc.InitOk(c.trades);
    Spsc.InitOk(c.reports);
  }

  /** Every step on the rings is a step of `Live`, or nothing happens there. */
  lemma {:induction false} RefinesLive(k: Session, run: seq<Rings>, moves: seq<Move>, n: nat)
    requires RingsExecution(k, run, moves) && n < |moves|
    ensures StepOrStutter(k, run[n].state, run[n + 1].state)
  {
    hide Coupled, RingsStep, RingsInit, StepOrStutter;
    AlwaysCoupled(k, run, moves, n);
    RingsStepKeeps(k, run[n], moves[n], run[n + 1]);
  }

  /** On the real rings too the viewer leaves only after every trade and every report
      of every applied command came out of the rings, whole and in order. */
  lemma {:induction false} RingsLoseNothing(k: Session, run: seq<Rings>, moves: seq<Move>, n: nat)
    requires RingsExecution(k, run, moves) && n < |run| && run[n].state.viewer.Exited?
    ensures RECORD_SIZE * k.records <= |k.start|
    ensures var tape, reports := Engine.Tape(k.risk, Recovered(k), run[n].state.applied),
                                 Engine.Reports(k.risk, Recovered(k), run[n].state.applied);
            && |run[n].trades.popped| == |tape| && |run[n].reports.popped| == |reports|
            && (forall i :: 0 <= i < |tape| ==> run[n].trades.popped[i] == Spsc.Whole(tape[i]))
            && (forall i :: 0 <= i < |reports| ==> run[n].reports.popped[i] == Spsc.Whole(reports[i]))
  {
    hide RingsExecution, Recovered, Engine.Tape, Engine.Reports, Engine.Run, WriteAhead, ValidPrefix, Spsc.Inv;
    AlwaysCoupled(k, run, moves, n);
    ExitedHasAll(k, run[n].state);
  }
}
