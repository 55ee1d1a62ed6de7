/** When `waitUntilIdle` can be stranded.

    A notification that falls between the waiter's test and its sleep is lost. From
    any reachable state with a waiter about to test, the engine has a run that loses
    it and comes to rest, exactly when some command is pending or can still come. */
module PartitionedStrand {
  import opened Types
  import opened Channels
  import opened Partitioned
  import opened PartitionedLaws
  import opened PartitionedWait

  // ---------------------------------------------------------------------
  // Being stranded

  /** Moves that the program makes on its own: no new call, no decision to shut down,
      and no wakeup for no reason. */
  ghost predicate OwnMove(m: Move) {
    match m
    case Engine(l) => !l.Begin? && !l.StopAccepting?
    case CallWait => false
    case Wake => false
    case _ => true
  }

  /** The waiter sleeps, and nothing in the program will ever happen by itself. */
  ghost predicate Stranded(k: Config, j: Joint) {
    j.waiter == Asleep && forall m, j' :: OwnMove(m) ==> !JointStep(k, j, m, j')
  }

  /** `j'` comes after `j` in `n` moves, none of them a spurious wakeup or a second wait. */
  ghost predicate Reaches(k: Config, j: Joint, n: nat, j': Joint)
    decreases n
  {
    if n == 0 then j' == j
    else exists m: Move, j1: Joint :: !m.CallWait? && !m.Wake? && JointStep(k, j, m, j1) && Reaches(k, j1, n - 1, j')
  }

  ghost predicate Leads(k: Config, j: Joint, j': Joint) {
    exists n: nat :: Reaches(k, j, n, j')
  }

  ghost predicate MayStrand(k: Config, j: Joint) {
    exists j': Joint :: Leads(k, j, j') && Stranded(k, j')
  }

  /** Some command is pending, is on its way in, or could still come. */
  ghost predicate MoreWork(s: System) {
    s.pending > 0 || s.accepting || exists id :: id in s.calls && s.calls[id].caller == Entered
  }

  /** What holds in every state of a joint execution. */
  ghost predicate Good(k: Config, j: Joint) {
    && Inv(k, j.system)
    && (forall i :: 0 <= i < |j.system.shards| ==> j.system.shards[i].channel.capacity == k.capacity)
    && (j.announced ==> !j.system.accepting && j.system.joined == |j.system.shards|)
    && (forall id :: CallerOf(id) in j.notifying ==> PastEntry(j.system, id))
  }

  ghost predicate PastEntry(s: System, id: nat) {
    id in s.calls && s.calls[id].caller != Entered
  }

  // ---------------------------------------------------------------------
  // Paths

  lemma {:induction false} LeadsSelf(k: Config, j: Joint)
    ensures Leads(k, j, j)
  {
    assert Reaches(k, j, 0, j);
  }

  lemma {:induction false} LeadsStep(k: Config, j: Joint, m: Move, j1: Joint, j': Joint)
    requires !m.CallWait? && !m.Wake? && JointStep(k, j, m, j1) && Leads(k, j1, j')
    ensures Leads(k, j, j')
  {
    hide JointStep;
    var n: nat :| Reaches(k, j1, n, j');
    assert Reaches(k, j, n + 1, j');
  }

  // ---------------------------------------------------------------------
  // Steps keep the good states

  lemma {:induction false} StepKeepsRoom(k: Config, s: System, l: Label, s': System, i: nat)
    requires WellFormed(k, s) && Step(k, s, l, s') && i < |s.shards|
    ensures |s'.shards| == |s.shards| && s'.shards[i].channel.capacity == s.shards[i].channel.capacity
    ensures !s.accepting ==> !s'.accepting
    ensures s.joined == |s.shards| ==> s'.joined == s.joined
  {
    hide ShardIndex, Happens, WorkStep, GiveUp;
    if l.Work? {
      WorkKeepsLogs(k, s, l.shard, s.calls[s.shards[l.shard].Hand().id], s', i);
      WorkKeepsShutdown(k, s, l.shard, s.calls[s.shards[l.shard].Hand().id], s');
    }
  }

  lemma {:induction false} WorkKeepsShutdown(k: Config, s: System, i: nat, c: Call, s': System)
    requires i < |s.shards| && WorkStep(k, s, i, c, s')
    ensures s'.accepting == s.accepting && s'.joined == s.joined
  {
    hide EngineFor;
  }

  lemma {:induction false} GoodStep(k: Config, j: Joint, m: Move, j': Joint)
    requires Good(k, j) && JointStep(k, j, m, j')
    ensures Good(k, j')
  {
    hide Inv, Step, WellFormed;
    if m.Engine? {
      StepKeepsInv(k, j.system, m.l, j'.system);
      ShutdownNow(k, j.system);
      SameShards(k, j.system, m.l, j'.system);
      forall id | CallerOf(id) in j'.notifying
        ensures PastEntry(j'.system, id)
      {
        NeverEntersAgain(k, j.system, m.l, j'.system, id);
      }
    }
  }

  lemma {:induction false} NeverEntersAgain(k: Config, s: System, l: Label, s': System, id: nat)
    requires Inv(k, s) && WellFormed(k, s) && Step(k, s, l, s')
    ensures PastEntry(s, id) || CallerOf(id) in ActorOf(l) ==> PastEntry(s', id)
  {
    hide Inv, ShardIndex, Happens, WorkStep, Answers;
    if l.Work? {
      EntryCall(k, s, l.shard, s.shards[l.shard].channel.popped - 1);
      var c := s.calls[s.shards[l.shard].Hand().id];
      WorkShape(k, s, l.shard, c, s');
      WorkKeepsCaller(k, s.shards[l.shard], c);
    } else if l.Pop? {
      EntryCall(k, s, l.shard, s.shards[l.shard].channel.popped);
    } else if CallerLabel(l) || l.Push? {
      CallTicket(k, s, l.id);
    }
  }

  lemma {:induction false} WorkKeepsCaller(k: Config, sh: Shard, c: Call)
    requires c.owner.InHand()
    ensures WorkCall(k, sh, c).caller == c.caller
  {
    hide EngineFor;
  }

  lemma {:induction false} SameShards(k: Config, s: System, l: Label, s': System)
    requires Inv(k, s) && WellFormed(k, s) && Step(k, s, l, s')
    ensures |s'.shards| == |s.shards| > 0
    ensures forall i :: 0 <= i < |s.shards| ==> s'.shards[i].channel.capacity == s.shards[i].channel.capacity
    ensures !s.accepting ==> !s'.accepting
    ensures s.joined == |s.shards| ==> s'.joined == s.joined
  {
    hide Inv, Step, WellFormed;
    ShutdownNow(k, s);
    forall i | 0 <= i < |s.shards|
      ensures |s'.shards| == |s.shards| && s'.shards[i].channel.capacity == s.shards[i].channel.capacity
    {
      StepKeepsRoom(k, s, l, s', i);
    }
    StepKeepsRoom(k, s, l, s', 0);
  }

  lemma {:induction false} AlwaysGood(k: Config, run: seq<Joint>, moves: seq<Move>, n: nat)
    requires JointExecution(k, run, moves) && n < |run|
    ensures Good(k, run[n])
  {
    hide Good, JointStep;
    if n == 0 {
      InitGood(k, run[0]);
    } else {
      AlwaysGood(k, run, moves, n - 1);
      GoodStep(k, run[n - 1], moves[n - 1], run[n]);
    }
  }

  lemma {:induction false} InitGood(k: Config, j: Joint)
    requires Init(k, j.system) && !j.announced && j.notifying == {}
    ensures Good(k, j)
  {
    hide Inv;
    InitOk(k, j.system);
  }

  // ---------------------------------------------------------------------
  // How much is left to do for the calls

  function CallerRank(c: Caller): nat {
    match c
    case Entered => 9
    case Counted => 8
    case Refused => 2
    case Pushed => 1
    case Rejecting => 1
    case Returned(_) => 0
  }

  function OwnerRank(o: Owner): nat {
    match o
    case Absent => 0
    case Queued => 6
    case Held => 5
    case Applied(_) => 4
    case Processed(_) => 3
    case Classified(_) => 2
    case Resolved(_) => 1
    case Finished(_) => 0
  }

  /** Steps left for the call, at most. */
  function Rank(c: Call): nat { CallerRank(c.caller) + OwnerRank(c.owner) }

  ghost function AtLeast(calls: map<nat, Call>, r: nat): set<nat> {
    set id | id in calls && Rank(calls[id]) >= r
  }

  /** The ranks added up, each counted up to `top`. */
  ghost function Effort(calls: map<nat, Call>, top: nat): nat {
    if top == 0 then 0 else |AtLeast(calls, top)| + Effort(calls, top - 1)
  }

  const TOP: nat := 16

  lemma {:induction false} AtLeastMoves(calls: map<nat, Call>, id: nat, c: Call, r: nat)
    requires id in calls
    ensures |AtLeast(calls[id := c], r)| == |AtLeast(calls, r)| - One(Rank(calls[id]) >= r) + One(Rank(c) >= r)
  {
    hide Rank;
    assert AtLeast(calls[id := c], r) == (AtLeast(calls, r) - {id}) + (if Rank(c) >= r then {id} else {});
    SwapSize(AtLeast(calls, r), id, Rank(c) >= r);
  }

  lemma {:induction false} EffortMoves(calls: map<nat, Call>, id: nat, c: Call, top: nat)
    requires id in calls
    ensures Effort(calls[id := c], top) == Effort(calls, top) - Min(Rank(calls[id]), top) + Min(Rank(c), top)
  {
    hide Rank, AtLeast;
    if top > 0 {
      AtLeastMoves(calls, id, c, top);
      EffortMoves(calls, id, c, top - 1);
    }
  }

  lemma {:induction false} RankBounded(c: Call)
    ensures Rank(c) <= TOP
  {
  }

  /** Moving one call down makes progress. */
  lemma {:induction false} EffortDrops(calls: map<nat, Call>, id: nat, c: Call)
    requires id in calls && Rank(c) < Rank(calls[id])
    ensures Effort(calls[id := c], TOP) < Effort(calls, TOP)
  {
    hide Rank;
    RankBounded(calls[id]);
    RankBounded(c);
    EffortMoves(calls, id, c, TOP);
  }

  // ---------------------------------------------------------------------
  // The engine can always finish what it has

  /** No caller inside a call, no command in a queue or in an owner's hand. */
  ghost predicate CallsAtRest(s: System) {
    && (forall id :: id in s.calls ==> s.calls[id].caller.Returned?)
    && (forall i :: 0 <= i < |s.shards| ==> !s.shards[i].busy && s.shards[i].channel.Drained())
  }

  /** A step that brings a call closer to its end and leaves shutdown alone. */
  ghost predicate Progress(k: Config, s: System, l: Label, s': System) {
    && WellFormed(k, s) && Step(k, s, l, s')
    && !l.Begin? && !l.StopAccepting? && !l.Exit? && !l.CloseQueue? && !l.Join?
    && Effort(s'.calls, TOP) < Effort(s.calls, TOP)
  }

  lemma {:induction false} WorkRank(k: Config, sh: Shard, c: Call)
    requires c.owner.InHand()
    ensures Rank(WorkCall(k, sh, c)) < Rank(c)
  {
    hide EngineFor;
  }

  lemma {:induction false} WorkProgress(k: Config, s: System, i: nat) returns (s': System)
    requires Inv(k, s) && WellFormed(k, s) && i < |s.shards| && s.shards[i].busy
    ensures Progress(k, s, Work(i), s')
  {
    hide Inv, ShardIndex, WorkStep, CallOk, Effort, Rank, WorkCall;
    s' := WorkMoves(k, s, i);
    EntryCall(k, s, i, s.shards[i].channel.popped - 1);
    var c := s.calls[s.shards[i].Hand().id];
    WorkShape(k, s, i, c, s');
    WorkRank(k, s.shards[i], c);
    EffortDrops(s.calls, c.ticket.id, WorkCall(k, s.shards[i], c));
  }

  lemma {:induction false} PopProgress(k: Config, s: System, i: nat) returns (s': System)
    requires Inv(k, s) && WellFormed(k, s) && i < |s.shards| && !s.shards[i].busy && !s.shards[i].channel.Drained()
    ensures Progress(k, s, Pop(i), s')
  {
    hide Inv, ShardIndex, CallOk, Effort, ShardOk;
    ShardsSound(k, s, i);
    var sh := s.shards[i];
    var ch := sh.channel;
    EntryCall(k, s, i, ch.popped);
    var c := s.calls[ch.log[ch.popped].id];
    s' := Moved(s, c.(owner := Held))
           .(shards := s.shards[i := sh.(channel := ch.(popped := ch.popped + 1), busy := true)]);
    EffortDrops(s.calls, c.ticket.id, c.(owner := Held));
  }

  /** A caller inside its call can go on once its shard's queue is drained. */
  lemma {:induction false} CallerProgress(k: Config, s: System, id: nat) returns (l: Label, s': System)
    requires Inv(k, s) && WellFormed(k, s) && id in s.calls && !s.calls[id].caller.Returned?
    requires var ch := s.shards[ShardIndex(k, s.calls[id].ticket.symbol)].channel; ch.Drained() && ch.capacity > 0
    ensures Progress(k, s, l, s') && ActorOf(l) == {CallerOf(id)}
  {
    hide Inv, ShardIndex, Effort, Traceable, Answers;
    CallTicket(k, s, id);
    var c := s.calls[id];
    if c.caller.Counted? {
      l, s' := PushProgress(k, s, id);
    } else {
      var c';
      if c.caller.Entered? {
        c' := c.(caller := Counted);
        l, s' := Count(id), Moved(s, c').(pending := s.pending + 1);
      } else if c.caller.Pushed? {
        c' := c.(caller := Returned(true));
        l, s' := Submitted(id), Moved(s, c').(submitted := s.submitted + 1);
      } else if c.caller.Refused? {
        c' := GiveUp(c);
        l, s' := Uncount(id), Moved(s, c').(pending := s.pending - 1);
      } else {
        c' := c.(caller := Returned(false), answers := c.answers + [Rejection(c.ticket.command)]);
        l, s' := Reject(id), Moved(s, c');
      }
      EffortDrops(s.calls, id, c');
    }
  }

  lemma {:induction false} PushProgress(k: Config, s: System, id: nat) returns (l: Label, s': System)
    requires Inv(k, s) && WellFormed(k, s) && id in s.calls && s.calls[id].caller.Counted?
    requires var ch := s.shards[ShardIndex(k, s.calls[id].ticket.symbol)].channel; ch.Drained() && ch.capacity > 0
    ensures Progress(k, s, l, s') && ActorOf(l) == {CallerOf(id)}
  {
    hide Inv, ShardIndex, Effort, Traceable, Answers;
    CallTicket(k, s, id);
    var c := s.calls[id];
    var i := ShardIndex(k, c.ticket.symbol);
    var ch := s.shards[i].channel;
    if ch.closed {
      var c' := c.(caller := Refused);
      l, s' := Refuse(id), Moved(s, c');
      EffortDrops(s.calls, id, c');
    } else {
      var c' := c.(caller := Pushed, owner := Queued);
      l := Push(id);
      s' := Moved(s, c').(shards := s.shards[i := s.shards[i].(channel := ch.(log := ch.log + [c.ticket]))]);
      EffortDrops(s.calls, id, c');
    }
  }

  /** Unless the calls are at rest, some step makes progress. */
  lemma {:induction false} SomeProgress(k: Config, s: System) returns (l: Label, s': System)
    requires Inv(k, s) && WellFormed(k, s) && !CallsAtRest(s)
    requires forall i :: 0 <= i < |s.shards| ==> s.shards[i].channel.capacity > 0
    ensures Progress(k, s, l, s')
  {
    hide Inv, ShardIndex, Progress, Traceable;
    if i: nat :| i < |s.shards| && s.shards[i].busy {
      l := Work(i);
      s' := WorkProgress(k, s, i);
    } else if i: nat :| i < |s.shards| && !s.shards[i].channel.Drained() {
      l := Pop(i);
      s' := PopProgress(k, s, i);
    } else {
      var id :| id in s.calls && !s.calls[id].caller.Returned?;
      l, s' := CallerProgress(k, s, id);
    }
  }

  /** The engine steps; the waiter stays between its test and its sleep. */
  lemma {:induction false} EngineMove(k: Config, j: Joint, l: Label, s': System) returns (j': Joint)
    requires Good(k, j) && j.waiter == Tested && j.notifying == {} && WellFormed(k, j.system)
    requires Step(k, j.system, l, s')
    ensures JointStep(k, j, Engine(l), j') && Good(k, j') && j'.waiter == Tested
    ensures j'.system == s' && j'.announced == j.announced
  {
    hide Inv, Step, WellFormed, Good;
    j' := j.(system := s', notifying := Crossing(j, l, s'));
    assert ActorOf(l) !! j.notifying;
    GoodStep(k, j, Engine(l), j');
  }

  /** Whoever is about to notify does so while the waiter is still awake. */
  lemma {:induction false} NotifyMove(k: Config, j: Joint) returns (x: Actor, j': Joint)
    requires Good(k, j) && j.waiter == Tested && j.notifying != {}
    ensures JointStep(k, j, Notify(x), j') && Good(k, j') && j'.waiter == Tested
    ensures j'.system == j.system && j'.announced == j.announced && |j'.notifying| < |j.notifying|
  {
    hide Inv, Good;
    x :| x in j.notifying;
    j' := j.(notifying := j.notifying - {x});
    GoodStep(k, j, Notify(x), j');
  }

  /** Every call gets to its end, and every notification is sent. */
  lemma {:induction false} Finish(k: Config, j: Joint) returns (j': Joint)
    requires Good(k, j) && k.capacity > 0 && j.waiter == Tested
    ensures Leads(k, j, j') && Good(k, j') && j'.waiter == Tested && j'.notifying == {}
    ensures CallsAtRest(j'.system) && SameShutdown(j, j')
    decreases Effort(j.system.calls, TOP), |j.notifying|
  {
    hide Inv, Step, JointStep, Effort, Leads, CallsAtRest, WellFormed;
    if j.notifying != {} {
      var x, j1 := NotifyMove(k, j);
      j' := Finish(k, j1);
      LeadsStep(k, j, Notify(x), j1, j');
    } else if !CallsAtRest(j.system) {
      InvIsWellFormed(k, j.system);
      var l, s' := SomeProgress(k, j.system);
      ProgressIs(k, j.system, l, s');
      var j1 := EngineMove(k, j, l, s');
      j' := Finish(k, j1);
      LeadsStep(k, j, Engine(l), j1, j');
    } else {
      j' := j;
      LeadsSelf(k, j);
    }
  }

  ghost predicate SameShutdown(j: Joint, j': Joint) {
    && j'.system.accepting == j.system.accepting && j'.system.closing == j.system.closing
    && j'.system.joined == j.system.joined && j'.announced == j.announced
  }

  lemma {:induction false} ProgressIs(k: Config, s: System, l: Label, s': System)
    requires Progress(k, s, l, s')
    ensures Step(k, s, l, s') && WellFormed(k, s) && Effort(s'.calls, TOP) < Effort(s.calls, TOP)
    ensures s'.accepting == s.accepting && s'.closing == s.closing && s'.joined == s.joined
  {
    hide ShardIndex, Happens, WorkStep, GiveUp, Effort;
    if l.Work? {
      var c := s.calls[s.shards[l.shard].Hand().id];
      WorkLeavesShutdown(k, s, l.shard, c, s');
    }
  }

  lemma {:induction false} WorkLeavesShutdown(k: Config, s: System, i: nat, c: Call, s': System)
    requires i < |s.shards| && WorkStep(k, s, i, c, s')
    ensures s'.accepting == s.accepting && s'.closing == s.closing && s'.joined == s.joined
  {
    hide EngineFor;
  }

  // ---------------------------------------------------------------------
  // Shutdown, if it began, can always end

  lemma {:induction false} LeadsTrans(k: Config, j: Joint, n: nat, j1: Joint, j': Joint)
    requires Reaches(k, j, n, j1) && Leads(k, j1, j')
    ensures Leads(k, j, j')
    decreases n
  {
    hide JointStep, Leads;
    if n > 0 {
      var m: Move, j2: Joint :| !m.CallWait? && !m.Wake? && JointStep(k, j, m, j2) && Reaches(k, j2, n - 1, j1);
      LeadsTrans(k, j2, n - 1, j1, j');
      LeadsStep(k, j, m, j2, j');
    }
  }

  lemma {:induction false} LeadsOn(k: Config, j: Joint, j1: Joint, j': Joint)
    requires Leads(k, j, j1) && Leads(k, j1, j')
    ensures Leads(k, j, j')
  {
    hide Reaches;
    var n: nat :| Reaches(k, j, n, j1);
    LeadsTrans(k, j, n, j1, j');
  }

  /** The calls rest, the waiter is about to sleep, nobody is about to notify. */
  ghost predicate Poised(k: Config, j: Joint) {
    Good(k, j) && j.waiter == Tested && j.notifying == {} && CallsAtRest(j.system) && j.system.pending == 0
  }

  lemma {:induction false} RestIsZero(k: Config, s: System)
    requires Inv(k, s) && CallsAtRest(s)
    ensures s.pending == 0
  {
    hide Inv, ShardIndex;
    InvIsWellFormed(k, s);
    forall id | id in s.calls
      ensures !In(s.calls[id], InFlight)
    {
      DrainedCall(k, s, id);
    }
    NothingInFlight(k, s);
  }

  /** A step of shutdown, which no call notices. */
  lemma {:induction false} ShutdownMove(k: Config, j: Joint, l: Label, s': System) returns (j': Joint)
    requires Poised(k, j) && WellFormed(k, j.system) && Step(k, j.system, l, s')
    requires l.CloseQueue? || l.Exit? || l.Join?
    ensures JointStep(k, j, Engine(l), j') && Poised(k, j') && j'.system == s' && j'.announced == j.announced
  {
    hide Inv, Step, WellFormed, Good, CallsAtRest;
    QuietStep(k, j.system, l, s');
    j' := EngineMove(k, j, l, s');
  }

  lemma {:induction false} QuietStep(k: Config, s: System, l: Label, s': System)
    requires WellFormed(k, s) && Step(k, s, l, s') && CallsAtRest(s) && (l.CloseQueue? || l.Exit? || l.Join?)
    ensures CallsAtRest(s') && s'.pending == s.pending && s'.accepting == s.accepting
  {
    hide Traceable, ShardIndex;
  }

  lemma {:induction false} CloseRest(k: Config, j: Joint) returns (j': Joint)
    requires Poised(k, j) && !j.system.accepting
    ensures Leads(k, j, j') && Poised(k, j') && !j'.system.accepting && j'.system.closing == |j'.system.shards|
    decreases |j.system.shards| - j.system.closing
  {
    hide Inv, JointStep, Leads, Good, CallsAtRest, Traceable;
    var s := j.system;
    GoodInv(k, j);
    if s.closing < |s.shards| {
      var sh := s.shards[s.closing];
      var s' := s.(closing := s.closing + 1,
                   shards := s.shards[s.closing := sh.(channel := sh.channel.(closed := true))]);
      assert Step(k, s, CloseQueue, s');
      var j1 := ShutdownMove(k, j, CloseQueue, s');
      j' := CloseRest(k, j1);
      LeadsStep(k, j, Engine(CloseQueue), j1, j');
    } else {
      j' := j;
      LeadsSelf(k, j);
    }
  }

  lemma {:induction false} GoodInv(k: Config, j: Joint)
    requires Good(k, j)
    ensures Inv(k, j.system) && WellFormed(k, j.system) && ShutdownOk(j.system)
  {
    hide Inv, WellFormed;
    InvIsWellFormed(k, j.system);
    ShutdownNow(k, j.system);
  }

  /** Owners leave their loops one after the other. */
  lemma {:induction false} ExitRest(k: Config, j: Joint, i: nat) returns (j': Joint)
    requires Poised(k, j) && !j.system.accepting && j.system.closing == |j.system.shards| && i <= |j.system.shards|
    requires forall m :: 0 <= m < i ==> j.system.shards[m].exited
    ensures Leads(k, j, j') && Poised(k, j') && !j'.system.accepting && j'.system.closing == |j'.system.shards|
    ensures forall m :: 0 <= m < |j'.system.shards| ==> j'.system.shards[m].exited
    decreases |j.system.shards| - i
  {
    hide Inv, JointStep, Leads, Good, Traceable;
    var s := j.system;
    GoodInv(k, j);
    if i == |s.shards| {
      j' := j;
      LeadsSelf(k, j);
    } else if s.shards[i].exited {
      j' := ExitRest(k, j, i + 1);
    } else {
      var s' := s.(shards := s.shards[i := s.shards[i].(exited := true)]);
      assert Step(k, s, Exit(i), s');
      var j1 := ShutdownMove(k, j, Exit(i), s');
      j' := ExitRest(k, j1, i + 1);
      LeadsStep(k, j, Engine(Exit(i)), j1, j');
    }
  }

  lemma {:induction false} JoinRest(k: Config, j: Joint) returns (j': Joint)
    requires Poised(k, j) && !j.system.accepting && j.system.closing == |j.system.shards|
    requires forall m :: 0 <= m < |j.system.shards| ==> j.system.shards[m].exited
    ensures Leads(k, j, j') && Poised(k, j') && !j'.system.accepting && j'.system.closing == |j'.system.shards|
    ensures forall m :: 0 <= m < |j'.system.shards| ==> j'.system.shards[m].exited
    ensures j'.system.joined == |j'.system.shards|
    decreases |j.system.shards| - j.system.joined
  {
    hide Inv, JointStep, Leads, Good, CallsAtRest, Traceable;
    var s := j.system;
    GoodInv(k, j);
    if s.joined < |s.shards| {
      var s' := s.(joined := s.joined + 1);
      assert Step(k, s, Join, s');
      var j1 := ShutdownMove(k, j, Join, s');
      j' := JoinRest(k, j1);
      LeadsStep(k, j, Engine(Join), j1, j');
    } else {
      j' := j;
      LeadsSelf(k, j);
    }
  }

  /** The last notification, too, comes before the sleep. */
  lemma {:induction false} AnnounceRest(k: Config, j: Joint) returns (j': Joint)
    requires Poised(k, j) && !j.system.accepting && j.system.joined == |j.system.shards|
    ensures Leads(k, j, j') && Poised(k, j') && j'.announced && j'.system == j.system
  {
    hide Inv, Leads, Good, CallsAtRest;
    if j.announced {
      j' := j;
      LeadsSelf(k, j);
    } else {
      j' := j.(announced := true);
      assert JointStep(k, j, Announce, j');
      GoodStep(k, j, Announce, j');
      LeadsSelf(k, j');
      LeadsStep(k, j, Announce, j', j');
    }
  }

  /** Whatever shutdown has begun is over. */
  ghost predicate ShutdownAtRest(j: Joint) {
    var s := j.system;
    !s.accepting ==> && s.closing == s.joined == |s.shards| && j.announced
                     && forall m :: 0 <= m < |s.shards| ==> s.shards[m].exited
  }

  lemma {:induction false} EndShutdown(k: Config, j: Joint) returns (j': Joint)
    requires Poised(k, j)
    ensures Leads(k, j, j') && Poised(k, j') && ShutdownAtRest(j')
  {
    hide Poised, Leads;
    if j.system.accepting {
      j' := j;
      LeadsSelf(k, j);
    } else {
      var j1 := CloseRest(k, j);
      var j2 := ExitRest(k, j1, 0);
      var j3 := JoinRest(k, j2);
      j' := AnnounceRest(k, j3);
      LeadsOn(k, j, j1, j2);
      LeadsOn(k, j, j2, j3);
      LeadsOn(k, j, j3, j');
    }
  }

  // ---------------------------------------------------------------------
  // Then the waiter sleeps for ever

  lemma {:induction false} RestStrands(k: Config, j: Joint)
    requires Poised(k, j) && ShutdownAtRest(j)
    ensures Stranded(k, j.(waiter := Asleep))
  {
    hide Inv, WorkStep, ShardIndex, Traceable;
    var z := j.(waiter := Asleep);
    GoodInv(k, j);
    forall m, j' | OwnMove(m)
      ensures !JointStep(k, z, m, j')
    {
      if m.Engine? {
        NothingEnabled(k, j, m.l, j'.system);
      }
    }
  }

  lemma {:induction false} NothingEnabled(k: Config, j: Joint, l: Label, s': System)
    requires Poised(k, j) && ShutdownAtRest(j) && !l.Begin? && !l.StopAccepting?
    ensures !(WellFormed(k, j.system) && Step(k, j.system, l, s'))
  {
    hide Inv, WorkStep, ShardIndex, Traceable, GiveUp;
    GoodInv(k, j);
  }

  /** From a test that saw a pending command there is a way to be stranded. */
  lemma {:induction false} TestedStrands(k: Config, j: Joint)
    requires Good(k, j) && k.capacity > 0 && j.waiter == Tested
    ensures MayStrand(k, j)
  {
    hide Inv, Good, Leads, Stranded, CallsAtRest;
    var j1 := Finish(k, j);
    GoodInv(k, j1);
    RestIsZero(k, j1.system);
    var j2 := EndShutdown(k, j1);
    var z := j2.(waiter := Asleep);
    RestStrands(k, j2);
    LeadsSelf(k, z);
    LeadsStep(k, j2, Sleep, z, z);
    LeadsOn(k, j, j1, j2);
    LeadsOn(k, j, j2, z);
  }

  lemma {:induction false} StrandsVia(k: Config, j: Joint, m: Move, j1: Joint)
    requires !m.CallWait? && !m.Wake? && JointStep(k, j, m, j1) && MayStrand(k, j1)
    ensures MayStrand(k, j)
  {
    hide JointStep, Leads, Stranded;
    var z: Joint :| Leads(k, j1, z) && Stranded(k, z);
    LeadsStep(k, j, m, j1, z);
  }

  lemma {:induction false} PendingStrands(k: Config, j: Joint)
    requires Good(k, j) && k.capacity > 0 && j.waiter == Testing && j.system.pending > 0
    ensures MayStrand(k, j)
  {
    hide Good, MayStrand;
    var j1 := j.(waiter := Tested);
    assert JointStep(k, j, Test, j1);
    GoodStep(k, j, Test, j1);
    TestedStrands(k, j1);
    StrandsVia(k, j, Test, j1);
  }

  /** A call on its way in can be counted before the test. */
  lemma {:induction false} EnteredStrands(k: Config, j: Joint, id: nat)
    requires Good(k, j) && k.capacity > 0 && j.waiter == Testing && j.system.pending >= 0
    requires At(j.system, id, Entered)
    ensures MayStrand(k, j)
  {
    hide Inv, Good, MayStrand, Traceable, ShardIndex;
    GoodInv(k, j);
    EnteredIsFree(k, j, id);
    var s := j.system;
    CallTicket(k, s, id);
    var s' := Moved(s, s.calls[id].(caller := Counted)).(pending := s.pending + 1);
    var j1 := j.(system := s');
    assert JointStep(k, j, Engine(Count(id)), j1);
    GoodStep(k, j, Engine(Count(id)), j1);
    PendingStrands(k, j1);
    StrandsVia(k, j, Engine(Count(id)), j1);
  }

  lemma {:induction false} EnteredIsFree(k: Config, j: Joint, id: nat)
    requires Good(k, j) && At(j.system, id, Entered)
    ensures CallerOf(id) !in j.notifying
  {
    hide Inv;
  }

  lemma {:induction false} Bound(ids: set<nat>) returns (b: nat)
    ensures forall x :: x in ids ==> x < b
  {
    if ids == {} {
      b := 0;
    } else {
      var y :| y in ids;
      var rest := ids - {y};
      var b' := Bound(rest);
      b := if b' <= y then y + 1 else b';
      assert forall x :: x in ids ==> x == y || x in rest;
    }
  }

  /** While the engine accepts, a new call can come. */
  lemma {:induction false} AcceptingStrands(k: Config, j: Joint, y: Symbol, c: Command)
    requires Good(k, j) && k.capacity > 0 && j.waiter == Testing && j.system.pending >= 0 && j.system.accepting
    ensures MayStrand(k, j)
  {
    hide Inv, Good, MayStrand, Traceable, ShardIndex;
    GoodInv(k, j);
    var s := j.system;
    var b := Bound(s.calls.Keys);
    var l := Begin(b, y, c, Enqueue);
    var j1 := j.(system := Moved(s, Call(Ticket(b, y, c), Enqueue, Entered, Absent, [])));
    assert b !in s.calls.Keys;
    assert JointStep(k, j, Engine(l), j1);
    GoodStep(k, j, Engine(l), j1);
    EnteredStrands(k, j1, b);
    StrandsVia(k, j, Engine(l), j1);
  }

  // ---------------------------------------------------------------------
  // Without more work the wait is sure to end

  lemma {:induction false} NoMoreWorkStays(k: Config, s: System, l: Label, s': System)
    requires Inv(k, s) && Inv(k, s') && WellFormed(k, s) && Step(k, s, l, s') && !MoreWork(s)
    ensures !MoreWork(s')
  {
    hide Inv, Step, WellFormed;
    ZeroAtLeast(k, s);
    ZeroAtLeast(k, s');
    ShutdownNow(k, s);
    StepKeepsRoom(k, s, l, s', 0);
    CountRaised(k, s, l, s');
    forall id | id in s'.calls && s'.calls[id].caller == Entered
      ensures id in s.calls && s.calls[id].caller == Entered
    {
      NewlyEntered(k, s, l, s', id);
    }
  }

  /** Only a call that had entered raises the count. */
  lemma {:induction false} CountRaised(k: Config, s: System, l: Label, s': System)
    requires Inv(k, s) && WellFormed(k, s) && Step(k, s, l, s')
    ensures s'.pending <= s.pending || (l.Count? && At(s, l.id, Entered))
  {
    hide Inv, ShardIndex, Happens, WorkStep, CallOk;
    if l.Work? {
      EntryCall(k, s, l.shard, s.shards[l.shard].channel.popped - 1);
      WorkTallies(k, s, l.shard, s.calls[s.shards[l.shard].Hand().id], s');
    }
  }

  /** Only a new call enters, and only while the engine accepts. */
  lemma {:induction false} NewlyEntered(k: Config, s: System, l: Label, s': System, id: nat)
    requires Inv(k, s) && WellFormed(k, s) && Step(k, s, l, s') && At(s', id, Entered)
    ensures At(s, id, Entered) || s.accepting
  {
    hide Inv, Step, WellFormed;
    if id in s.calls {
      NeverEntersAgain(k, s, l, s', id);
    } else {
      WasBegun(k, s, l, s', id);
    }
  }

  lemma {:induction false} WasBegun(k: Config, s: System, l: Label, s': System, id: nat)
    requires Inv(k, s) && WellFormed(k, s) && Step(k, s, l, s') && id !in s.calls && At(s', id, Entered)
    ensures s.accepting
  {
    hide Inv, ShardIndex, Happens, WorkStep, CallOk;
    if l.Work? {
      EntryCall(k, s, l.shard, s.shards[l.shard].channel.popped - 1);
      WorkShape(k, s, l.shard, s.calls[s.shards[l.shard].Hand().id], s');
    } else if l.Pop? {
      EntryCall(k, s, l.shard, s.shards[l.shard].channel.popped);
    } else if !l.Begin? && (CallerLabel(l) || l.Push?) {
      CallTicket(k, s, l.id);
    }
  }

  /** The count reads zero for good, so the test succeeds and the waiter never sleeps. */
  lemma {:induction false} IdleNeverSleeps(k: Config, j: Joint, n: nat, z: Joint)
    requires Good(k, j) && !MoreWork(j.system) && (j.waiter == Testing || j.waiter == Away) && Reaches(k, j, n, z)
    ensures z.waiter == Testing || z.waiter == Away
    decreases n
  {
    hide Inv, Step, WellFormed, MoreWork;
    if n > 0 {
      var m: Move, j1: Joint :| !m.CallWait? && !m.Wake? && JointStep(k, j, m, j1) && Reaches(k, j1, n - 1, z);
      GoodStep(k, j, m, j1);
      if m.Engine? {
        NoMoreWorkStays(k, j.system, m.l, j1.system);
      }
      ZeroAtLeast(k, j.system);
      IdleNeverSleeps(k, j1, n - 1, z);
    }
  }

  lemma {:induction false} ZeroAtLeast(k: Config, s: System)
    requires Inv(k, s)
    ensures s.pending >= 0 && (!MoreWork(s) ==> s.pending == 0)
  {
    hide Inv;
    CountsExact(k, s);
  }

  /** A waiter about to test can be stranded exactly when there is more work. */
  lemma {:induction false} StrandIffMoreWork(k: Config, j: Joint)
    requires Good(k, j) && k.capacity > 0 && j.waiter == Testing
    ensures MayStrand(k, j) <==> MoreWork(j.system)
  {
    hide Inv, Good, Reaches, Stranded;
    GoodInv(k, j);
    ZeroAtLeast(k, j.system);
    if j.system.pending > 0 {
      PendingStrands(k, j);
    } else if j.system.accepting {
      AcceptingStrands(k, j, [], Cancel(0));
    } else if id :| id in j.system.calls && j.system.calls[id].caller == Entered {
      EnteredStrands(k, j, id);
    } else {
      forall z | Leads(k, j, z)
        ensures z.waiter != Asleep
      {
        var n: nat :| Reaches(k, j, n, z);
        IdleNeverSleeps(k, j, n, z);
      }
      AwakeIsNotStranded(k);
    }
  }

  lemma {:induction false} AwakeIsNotStranded(k: Config)
    ensures forall z :: Stranded(k, z) ==> z.waiter == Asleep
  {
  }

  /** In every execution of the engine with a waiter: a wait that is about to test can
      be stranded if and only if some command is pending, is on its way in, or can
      still come because the engine accepts. */
  lemma {:induction false} WaitMayStrandIff(k: Config, run: seq<Joint>, moves: seq<Move>, n: nat)
    requires JointExecution(k, run, moves) && n < |run| && k.capacity > 0 && run[n].waiter == Testing
    ensures MayStrand(k, run[n]) <==> MoreWork(run[n].system)
  {
    hide JointExecution, Good, MayStrand, MoreWork;
    AlwaysGood(k, run, moves, n);
    StrandIffMoreWork(k, run[n]);
  }

  /** So a waiter on a fresh engine can be stranded. */
  lemma {:induction false} FreshEngineStrands(k: Config, s: System)
    requires Init(k, s) && k.capacity > 0
    ensures MayStrand(k, Joint(s, Testing, {}, false))
  {
    hide Good, MayStrand;
    InitGood(k, Joint(s, Testing, {}, false));
    StrandIffMoreWork(k, Joint(s, Testing, {}, false));
  }

  /** What being stranded means: the waiter sleeps although every call has returned,
      every accepted command is finished and nothing is pending. */
  lemma {:induction false} StrandedMeansIdle(k: Config, run: seq<Joint>, moves: seq<Move>, n: nat)
    requires JointExecution(k, run, moves) && n < |run| && k.capacity > 0 && Stranded(k, run[n])
    ensures run[n].system.pending == 0 && AllDone(run[n].system) && CallsAtRest(run[n].system)
    ensures run[n].notifying == {}
  {
    hide JointExecution, Good, Stranded, AllDone, CallsAtRest;
    AlwaysGood(k, run, moves, n);
    NothingMoves(k, run[n]);
  }

  lemma {:induction false} NothingMoves(k: Config, j: Joint)
    requires Good(k, j) && k.capacity > 0 && Stranded(k, j)
    ensures j.system.pending == 0 && AllDone(j.system) && CallsAtRest(j.system) && j.notifying == {}
  {
    hide Inv, Good, AllDone, CallsAtRest, Progress, Step, WellFormed;
    GoodInv(k, j);
    if j.notifying != {} {
      NotifierMoves(k, j);
    }
    if !CallsAtRest(j.system) {
      GoodRoom(k, j);
      var l, s' := SomeProgress(k, j.system);
      ProgressMoves(k, j, l, s');
    }
    RestIsZero(k, j.system);
    ZeroMeansDone(k, j.system);
  }

  lemma {:induction false} NotifierMoves(k: Config, j: Joint)
    requires j.notifying != {}
    ensures !Stranded(k, j)
  {
    var x :| x in j.notifying;
    var j' := j.(notifying := j.notifying - {x}, waiter := Woken(j.waiter));
    assert OwnMove(Notify(x)) && JointStep(k, j, Notify(x), j');
  }

  lemma {:induction false} GoodRoom(k: Config, j: Joint)
    requires Good(k, j) && k.capacity > 0
    ensures forall i :: 0 <= i < |j.system.shards| ==> j.system.shards[i].channel.capacity > 0
  {
    hide Inv;
  }

  lemma {:induction false} ProgressMoves(k: Config, j: Joint, l: Label, s': System)
    requires Progress(k, j.system, l, s') && j.notifying == {}
    ensures OwnMove(Engine(l)) && JointStep(k, j, Engine(l), j.(system := s', notifying := Crossing(j, l, s')))
  {
    hide Step, WellFormed, Effort;
  }
}
