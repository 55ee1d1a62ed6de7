/** The multi-instrument engine under any interleaving: producers, one owner
    thread per shard, and shutdown. Each atomic access or critical section of the
    program is one step. A shard's queue is a channel. */
module Partitioned {
  import opened Types
  import opened Risk
  import opened Words
  import opened Channels
  import Engine

  type Symbol = seq<char>

  /** `hash` stands for std::hash, of which nothing is known. */
  datatype Config = Config(shards: nat, capacity: nat, risk: RiskConfig, hash: Symbol -> u64)

  /** The constructor refuses other shard counts. */
  predicate Constructed(k: Config) {
    k.shards != 0 && BitAnd(k.shards, k.shards - 1) == 0
  }

  /** Masking picks a shard, the same one for the same symbol. */
  function ShardIndex(k: Config, y: Symbol): (i: nat)
    requires Constructed(k)
    ensures i < k.shards && i == k.hash(y) % k.shards
  {
    MaskInRange(k.hash(y), k.shards);
    BitAnd(k.hash(y), k.shards - 1)
  }

  lemma {:induction false} MaskInRange(x: nat, shards: nat)
    requires shards != 0 && BitAnd(shards, shards - 1) == 0
    ensures BitAnd(x, shards - 1) == x % shards
  {
    var n := PowerOfTwoTest(shards);
    MaskIsMod(x, n);
  }

  // ---------------------------------------------------------------------
  // The state

  /** enqueue, tryEnqueue, or submit and cancel, which hand out a future. */
  datatype Mode = Enqueue | TryEnqueue | Submit

  datatype Ticket = Ticket(id: nat, symbol: Symbol, command: Command)

  datatype Result = Result(report: Report, trades: seq<Trade>)

  /** Where the calling thread is. */
  datatype Caller =
    | Entered             // saw accepting_ set
    | Counted             // added itself to pending_; pushing
    | Pushed              // push returned true, before submitted_ is raised
    | Refused             // push returned false, before pending_ is lowered
    | Rejecting           // enqueueCommand returned false, before completeRejected
    | Returned(ok: bool)

  /** How far the owner thread has got with the command. */
  datatype Owner =
    | Absent              // not in a queue
    | Queued
    | Held                // popped
    | Applied(result: Result)     // left the state mutex
    | Processed(result: Result)   // raised processed_
    | Classified(result: Result)  // raised accepted_ or rejected_
    | Resolved(result: Result)    // set the promise, if there is one
    | Finished(result: Result)    // lowered pending_
  {
    predicate InHand() { Held? || Applied? || Processed? || Classified? || Resolved? }

    predicate HasResult() { Applied? || Processed? || Classified? || Resolved? || Finished? }
  }

  /** One ingress call. `answers` lists the values set on its promise. */
  datatype Call = Call(ticket: Ticket, mode: Mode, caller: Caller, owner: Owner, answers: seq<Result>)

  datatype Shard = Shard(channel: Channel<Ticket>, busy: bool, exited: bool, applied: nat,
                         engines: map<Symbol, Engine.Engine>)
  {
    /** The command in the owner's hand. */
    function Hand(): Ticket
      requires 0 < channel.popped <= |channel.log|
    {
      channel.log[channel.popped - 1]
    }
  }

  datatype System = System(accepting: bool, closing: nat, joined: nat, shards: seq<Shard>,
                           calls: map<nat, Call>, pending: int, submitted: nat, processed: nat,
                           accepted: nat, rejected: nat)

  function Kind(c: Command): CommandKind { if c.NewOrder? then NewOrderCommand else CancelCommand }

  function OrderId(c: Command): u64 { if c.NewOrder? then c.order.id else c.id }

  function Rejection(c: Command): Result {
    Result(Report(OrderId(c), 0, Kind(c), Rejected, EngineShuttingDown, 0, 0, 0, 0), [])
  }

  function EngineFor(engines: map<Symbol, Engine.Engine>, y: Symbol): Engine.Engine {
    if y in engines then engines[y] else Engine.EMPTY
  }

  // ---------------------------------------------------------------------
  // Steps

  datatype Label =
    | Begin(id: nat, symbol: Symbol, command: Command, mode: Mode)
    | Count(id: nat)
    | Push(id: nat)
    | Refuse(id: nat)
    | Submitted(id: nat)
    | Uncount(id: nat)
    | Reject(id: nat)
    | Pop(shard: nat)
    | Work(shard: nat)    // the owner's next step with the command in hand
    | Exit(shard: nat)
    | StopAccepting
    | CloseQueue
    | Join

  function GiveUp(c: Call): Call {
    c.(caller := if c.mode == Submit then Rejecting else Returned(false))
  }

  function Moved(s: System, c: Call): System { s.(calls := s.calls[c.ticket.id := c]) }

  ghost predicate At(s: System, id: nat, caller: Caller) {
    id in s.calls && s.calls[id].caller == caller
  }

  ghost predicate WellFormed(k: Config, s: System) {
    && Constructed(k) && |s.shards| == k.shards
    && forall i :: 0 <= i < |s.shards| ==> Traceable(s.calls, s.shards[i])
  }

  ghost predicate Traceable(calls: map<nat, Call>, sh: Shard) {
    && sh.channel.popped <= |sh.channel.log|
    && (sh.busy ==> sh.channel.popped > 0)
    && forall j :: 0 <= j < |sh.channel.log| ==> sh.channel.log[j].id in calls
  }

  /** What the owner does next with `c`, the command in its hand. */
  ghost predicate WorkStep(k: Config, s: System, i: nat, c: Call, s': System)
    requires i < |s.shards|
  {
    var sh := s.shards[i];
    match c.owner
    case Held =>
      var out := Engine.Apply(k.risk, EngineFor(sh.engines, c.ticket.symbol), c.ticket.command);
      s' == Moved(s, c.(owner := Applied(Result(out.report, out.trades))))
             .(shards := s.shards[i := sh.(applied := sh.applied + 1,
                                           engines := sh.engines[c.ticket.symbol := out.engine])])
    case Applied(r) =>
      s' == Moved(s, c.(owner := Processed(r))).(processed := s.processed + 1)
    case Processed(r) =>
      s' == Moved(s, c.(owner := Classified(r)))
             .(accepted := s.accepted + (if r.report.Accepted() then 1 else 0),
               rejected := s.rejected + (if r.report.Accepted() then 0 else 1))
    case Classified(r) =>
      s' == Moved(s, c.(owner := Resolved(r),
                        answers := if c.mode == Submit then c.answers + [r] else c.answers))
    case Resolved(r) =>
      s' == Moved(s, c.(owner := Finished(r)))
             .(pending := s.pending - 1, shards := s.shards[i := sh.(busy := false)])
    case _ => false
  }

  ghost predicate Step(k: Config, s: System, l: Label, s': System)
    requires WellFormed(k, s)
  {
    match l
    case Begin(id, symbol, command, mode) =>
      && id !in s.calls
      && var c := Call(Ticket(id, symbol, command), mode, Entered, Absent, []);
         s' == Moved(s, if s.accepting then c else GiveUp(c))
    case Count(id) =>
      At(s, id, Entered) && s' == Moved(s, s.calls[id].(caller := Counted)).(pending := s.pending + 1)
    case Push(id) =>
      && At(s, id, Counted)
      && var c := s.calls[id];
         var i := ShardIndex(k, c.ticket.symbol);
         var ch := s.shards[i].channel;
         && Happens(ch, Inserted(c.ticket), ch.(log := ch.log + [c.ticket]))
         && s' == Moved(s, c.(caller := Pushed, owner := Queued))
                   .(shards := s.shards[i := s.shards[i].(channel := ch.(log := ch.log + [c.ticket]))])
    case Refuse(id) =>
      && At(s, id, Counted)
      && var c := s.calls[id];
         var i := ShardIndex(k, c.ticket.symbol);
         && Happens(s.shards[i].channel, PushRefused(c.mode != TryEnqueue), s.shards[i].channel)
         && s' == Moved(s, c.(caller := Refused))
    case Submitted(id) =>
      At(s, id, Pushed) && s' == Moved(s, s.calls[id].(caller := Returned(true))).(submitted := s.submitted + 1)
    case Uncount(id) =>
      At(s, id, Refused) && s' == Moved(s, GiveUp(s.calls[id])).(pending := s.pending - 1)
    case Reject(id) =>
      && At(s, id, Rejecting)
      && var c := s.calls[id];
         s' == Moved(s, c.(caller := Returned(false), answers := c.answers + [Rejection(c.ticket.command)]))
    case Pop(i) =>
      && i < |s.shards| && !s.shards[i].busy && !s.shards[i].exited
      && var ch := s.shards[i].channel;
         && ch.popped < |ch.log|
         && Happens(ch, Taken(ch.log[ch.popped]), ch.(popped := ch.popped + 1))
         && s' == Moved(s, s.calls[ch.log[ch.popped].id].(owner := Held))
                   .(shards := s.shards[i := s.shards[i].(channel := ch.(popped := ch.popped + 1), busy := true)])
    case Work(i) =>
      i < |s.shards| && s.shards[i].busy && WorkStep(k, s, i, s.calls[s.shards[i].Hand().id], s')
    case Exit(i) =>
      && i < |s.shards| && !s.shards[i].busy && !s.shards[i].exited
      && Happens(s.shards[i].channel, PopRefused(true), s.shards[i].channel)
      && s' == s.(shards := s.shards[i := s.shards[i].(exited := true)])
    case StopAccepting =>
      s.accepting && s' == s.(accepting := false)
    case CloseQueue =>
      && !s.accepting && s.closing < |s.shards|
      && var sh := s.shards[s.closing];
         s' == s.(closing := s.closing + 1,
                  shards := s.shards[s.closing := sh.(channel := sh.channel.(closed := true))])
    case Join =>
      && s.closing == |s.shards| && s.joined < |s.shards| && s.shards[s.joined].exited
      && s' == s.(joined := s.joined + 1)
  }

  ghost predicate Init(k: Config, s: System) {
    && Constructed(k) && |s.shards| == k.shards
    && (forall i :: 0 <= i < |s.shards| ==>
          s.shards[i] == Shard(Channel(k.capacity, [], 0, false), false, false, 0, map[]))
    && s == System(true, 0, 0, s.shards, map[], 0, 0, 0, 0, 0)
  }

  // ---------------------------------------------------------------------
  // The invariant, call by call and shard by shard

  /** The only values a promise may have received so far. */
  ghost function Answers(c: Call): seq<Result> {
    if c.mode != Submit then []
    else if c.owner.Resolved? || c.owner.Finished? then [c.owner.result]
    else if c.caller == Returned(false) then [Rejection(c.ticket.command)]
    else []
  }

  predicate TurnedAway(c: Caller) { c.Refused? || c.Rejecting? || c == Returned(false) }

  ghost predicate CallOk(accepting: bool, id: nat, c: Call) {
    && c.ticket.id == id
    && (c.owner.Absent? <==> !c.caller.Pushed? && c.caller != Returned(true))
    && (c.caller.Rejecting? ==> c.mode == Submit)
    && c.answers == Answers(c)
    && (c.mode != TryEnqueue && TurnedAway(c.caller) ==> !accepting)
  }

  ghost predicate EntryOk(k: Config, calls: map<nat, Call>, i: nat, sh: Shard, j: nat)
    requires Constructed(k) && j < |sh.channel.log|
  {
    var t := sh.channel.log[j];
    && t.id in calls && calls[t.id].ticket == t && ShardIndex(k, t.symbol) == i
    && var o := calls[t.id].owner;
       if sh.busy && j == sh.channel.popped - 1 then o.InHand()
       else if j < sh.channel.popped then o.Finished?
       else o.Queued?
  }

  ghost predicate EntriesOk(k: Config, calls: map<nat, Call>, i: nat, sh: Shard)
    requires Constructed(k)
  {
    forall j :: 0 <= j < |sh.channel.log| ==> EntryOk(k, calls, i, sh, j)
  }

  /** The commands for one symbol, in queue order. */
  function CommandsOf(log: seq<Ticket>, y: Symbol): seq<Command> {
    if log == [] then []
    else
      var n := |log| - 1;
      CommandsOf(log[..n], y) + (if log[n].symbol == y then [log[n].command] else [])
  }

  /** What a lone engine for the symbol answers to the `j`th entry of the log. */
  function ResultAt(risk: RiskConfig, log: seq<Ticket>, j: nat): Result
    requires j < |log|
  {
    var before := Engine.Run(risk, Engine.EMPTY, CommandsOf(log[..j], log[j].symbol));
    var out := Engine.Apply(risk, before, log[j].command);
    Result(out.report, out.trades)
  }

  ghost predicate EnginesOk(risk: RiskConfig, sh: Shard)
    requires sh.applied <= |sh.channel.log|
  {
    forall y: Symbol :: EngineFor(sh.engines, y)
                     == Engine.Run(risk, Engine.EMPTY, CommandsOf(sh.channel.log[..sh.applied], y))
  }

  ghost predicate ResultOk(risk: RiskConfig, calls: map<nat, Call>, log: seq<Ticket>, j: nat)
    requires j < |log|
  {
    && log[j].id in calls && calls[log[j].id].owner.HasResult()
    && calls[log[j].id].owner.result == ResultAt(risk, log, j)
  }

  ghost predicate ResultsOk(risk: RiskConfig, calls: map<nat, Call>, log: seq<Ticket>, n: nat)
    requires n <= |log|
  {
    forall j :: 0 <= j < n ==> ResultOk(risk, calls, log, j)
  }

  ghost predicate DistinctIds(log: seq<Ticket>) {
    forall a, b :: 0 <= a < b < |log| ==> log[a].id != log[b].id
  }

  ghost predicate CursorOk(calls: map<nat, Call>, sh: Shard) {
    && Traceable(calls, sh)
    && sh.applied == sh.channel.popped - (if sh.busy && calls[sh.Hand().id].owner.Held? then 1 else 0)
    && DistinctIds(sh.channel.log)
    && (sh.exited ==> sh.channel.closed && sh.channel.Drained() && !sh.busy)
  }

  ghost predicate ShardOk(k: Config, calls: map<nat, Call>, i: nat, sh: Shard)
    requires Constructed(k)
  {
    && CursorOk(calls, sh)
    && EntriesOk(k, calls, i, sh)
    && EnginesOk(k.risk, sh)
    && ResultsOk(k.risk, calls, sh.channel.log, sh.applied)
  }

  ghost predicate Logged(k: Config, s: System, id: nat)
    requires Constructed(k) && |s.shards| == k.shards && id in s.calls
  {
    var t := s.calls[id].ticket;
    t in s.shards[ShardIndex(k, t.symbol)].channel.log
  }

  ghost predicate ShutdownOk(s: System) {
    && s.closing <= |s.shards| && s.joined <= |s.shards|
    && (s.closing > 0 ==> !s.accepting)
    && (s.joined > 0 ==> s.closing == |s.shards|)
    && (forall i :: 0 <= i < |s.shards| ==> (s.shards[i].channel.closed <==> i < s.closing))
    && (forall i :: 0 <= i < s.joined ==> s.shards[i].exited)
  }

  // ---------------------------------------------------------------------
  // Counting calls

  datatype Group = InFlight | AllSubmitted | AllProcessed | AllAccepted | AllRejected

  ghost predicate In(c: Call, g: Group) {
    match g
    case InFlight => c.caller.Counted? || c.caller.Refused? || (!c.owner.Absent? && !c.owner.Finished?)
    case AllSubmitted => c.caller == Returned(true)
    case AllProcessed => c.owner.HasResult() && !c.owner.Applied?
    case AllAccepted => Judged(c) && c.owner.result.report.Accepted()
    case AllRejected => Judged(c) && !c.owner.result.report.Accepted()
  }

  ghost predicate Judged(c: Call) { c.owner.Classified? || c.owner.Resolved? || c.owner.Finished? }

  ghost function Those(calls: map<nat, Call>, g: Group): set<nat> {
    set id | id in calls && In(calls[id], g)
  }

  ghost function Size(calls: map<nat, Call>, g: Group): nat { |Those(calls, g)| }

  ghost function One(b: bool): nat { if b then 1 else 0 }

  lemma {:induction false} Recount(calls: map<nat, Call>, id: nat, c: Call, g: Group)
    ensures Size(calls[id := c], g) == Size(calls, g) - One(id in calls && In(calls[id], g)) + One(In(c, g))
  {
    hide In, Those;
    ThoseMove(calls, id, c, g);
    SwapSize(Those(calls, g), id, In(c, g));
  }

  lemma {:induction false} ThoseMove(calls: map<nat, Call>, id: nat, c: Call, g: Group)
    ensures Those(calls[id := c], g) == (Those(calls, g) - {id}) + (if In(c, g) then {id} else {})
    ensures id in Those(calls, g) <==> id in calls && In(calls[id], g)
  {
    hide In;
  }

  lemma {:induction false} SwapSize(a: set<nat>, id: nat, add: bool)
    ensures |(a - {id}) + (if add then {id} else {})| == |a| - One(id in a) + One(add)
  {
  }

  lemma {:induction false} RecountAll(calls: map<nat, Call>, id: nat, c: Call)
    ensures forall g :: Size(calls[id := c], g)
                     == Size(calls, g) - One(id in calls && In(calls[id], g)) + One(In(c, g))
  {
    hide In, Size;
    forall g
      ensures Size(calls[id := c], g) == Size(calls, g) - One(id in calls && In(calls[id], g)) + One(In(c, g))
    {
      Recount(calls, id, c, g);
    }
  }

  ghost predicate CountersOk(s: System) {
    && s.pending == Size(s.calls, InFlight)
    && s.submitted == Size(s.calls, AllSubmitted)
    && s.processed == Size(s.calls, AllProcessed)
    && s.accepted == Size(s.calls, AllAccepted)
    && s.rejected == Size(s.calls, AllRejected)
  }

  ghost predicate Inv(k: Config, s: System) {
    && Constructed(k) && |s.shards| == k.shards
    && (forall id :: id in s.calls ==> CallOk(s.accepting, id, s.calls[id]))
    && (forall id :: id in s.calls && !s.calls[id].owner.Absent? ==> Logged(k, s, id))
    && (forall i :: 0 <= i < |s.shards| ==> ShardOk(k, s.calls, i, s.shards[i]))
    && ShutdownOk(s)
    && CountersOk(s)
  }
}
