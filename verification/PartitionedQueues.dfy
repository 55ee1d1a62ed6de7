/** The partitioned engine on the queues it really uses.

    Each shard's channel is replaced by the locking queue of `Mpmc`: callers and
    owners sleep in it, are notified and look again. Every step is a step of
    `Partitioned` or invisible there, so its results carry over, and no
    interleaving deadlocks. */
module PartitionedQueues {
  import opened Channels
  import opened Partitioned
  import opened PartitionedLaws
  import Mpmc

  type Queue = Mpmc.Queue<Ticket>

  /** Every step keeps the channels inside `system` equal to what the queues did; an
      owner finds the ticket that it popped there. */
  datatype Concrete = Concrete(system: System, queues: seq<Queue>)

  const OWNER: nat := 0
  const SHUTDOWN: nat := 1

  function Tid(id: nat): nat { id + 2 }

  datatype Move =
    | Local(l: Label)                          // outside the queues
    | InQueue(shard: nat, q: Mpmc.Label<Ticket>)  // one step inside a queue

  // ---------------------------------------------------------------------
  // Steps

  ghost function Mirror(s: System, i: nat, ch: Channel<Ticket>): System
    requires i < |s.shards|
  {
    s.(shards := s.shards[i := s.shards[i].(channel := ch)])
  }

  /** What the caller does with the outcome of its push, if there is one yet. */
  ghost function AfterPush(s: System, i: nat, ch: Channel<Ticket>, id: nat, e: Effect<Ticket>): System
    requires i < |s.shards| && id in s.calls
  {
    var c := s.calls[id];
    match e
    case Inserted(_) => Mirror(Moved(s, c.(caller := Pushed, owner := Queued)), i, ch)
    case PushRefused(_) => Mirror(Moved(s, c.(caller := Refused)), i, ch)
    case _ => Mirror(s, i, ch)
  }

  /** What the owner does with the outcome of its pop. */
  ghost function AfterPop(s: System, i: nat, ch: Channel<Ticket>, e: Effect<Ticket>): System
    requires i < |s.shards| && (e.Taken? ==> e.item.id in s.calls)
  {
    match e
    case Taken(t) =>
      var s1 := Mirror(Moved(s, s.calls[t.id].(owner := Held)), i, ch);
      s1.(shards := s1.shards[i := s1.shards[i].(busy := true)])
    case PopRefused(_) =>
      var s1 := Mirror(s, i, ch);
      s1.(shards := s1.shards[i := s1.shards[i].(exited := true)])
    case _ => Mirror(s, i, ch)
  }

  /** Call `id` is inside push with this ticket. */
  ghost predicate Pushing(k: Config, s: System, i: nat, id: nat, item: Ticket)
    requires Constructed(k)
  {
    At(s, id, Counted) && s.calls[id].ticket == item && ShardIndex(k, item.symbol) == i
  }

  ghost predicate Popping(s: System, i: nat)
    requires i < |s.shards|
  {
    !s.shards[i].busy && !s.shards[i].exited
  }

  /** The rest of the system after queue step `l` of shard `i`. */
  ghost predicate QueueEffect(k: Config, s: System, i: nat, q: Queue, l: Mpmc.Label<Ticket>, q': Queue, s': System)
    requires Constructed(k) && i < |s.shards|
  {
    var ch, e := Mpmc.View(q'), Mpmc.EffectOf(q, l);
    match l
    case Push(t, item) =>
      && t >= Tid(0) && Pushing(k, s, i, t - 2, item) && s.calls[t - 2].mode != TryEnqueue
      && s' == AfterPush(s, i, ch, t - 2, e)
    case TryPush(t, item) =>
      && t >= Tid(0) && Pushing(k, s, i, t - 2, item) && s.calls[t - 2].mode == TryEnqueue
      && s' == AfterPush(s, i, ch, t - 2, e)
    case RetryPush(t) => t >= Tid(0) && t - 2 in s.calls && s' == AfterPush(s, i, ch, t - 2, e)
    case Pop(t) => t == OWNER && Popping(s, i) && (e.Taken? ==> e.item.id in s.calls) && s' == AfterPop(s, i, ch, e)
    case TryPop(t) => false
    case RetryPop(t) => (e.Taken? ==> e.item.id in s.calls) && s' == AfterPop(s, i, ch, e)
    case Close(t) =>
      && t == SHUTDOWN && !s.accepting && s.closing == i
      && s' == Mirror(s, i, ch).(closing := s.closing + 1)
    case _ => s' == Mirror(s, i, ch)
  }

  /** The thread is inside none of the queues. */
  ghost predicate Outside(queues: seq<Queue>, t: nat) {
    forall i :: 0 <= i < |queues| ==> t !in queues[i].threads
  }

  /** Steps of the program outside its queues. A thread inside a queue has not
      returned from it yet. */
  ghost predicate LocalStep(k: Config, c: Concrete, l: Label, c': Concrete)
    requires WellFormed(k, c.system) && |c.queues| == |c.system.shards|
  {
    && c'.queues == c.queues && Step(k, c.system, l, c'.system)
    && !l.Push? && !l.Refuse? && !l.Pop? && !l.Exit? && !l.CloseQueue?
    && (l.Submitted? ==> Outside(c.queues, Tid(l.id)))
    && (l.Join? ==> Outside(c.queues, SHUTDOWN))
    && (l.Work? && l.shard < |c.queues| ==> OWNER !in c.queues[l.shard].threads)
  }

  ghost predicate ConcreteStep(k: Config, c: Concrete, m: Move, c': Concrete)
    requires WellFormed(k, c.system) && |c.queues| == |c.system.shards|
  {
    match m
    case Local(l) => LocalStep(k, c, l, c')
    case InQueue(i, l) =>
      && i < |c.queues| && |c'.queues| == |c.queues| && c'.queues == c.queues[i := c'.queues[i]]
      && Mpmc.Step(c.queues[i], l, c'.queues[i]) && (l.Close? ==> Outside(c.queues, SHUTDOWN))
      && QueueEffect(k, c.system, i, c.queues[i], l, c'.queues[i], c'.system)
  }

  ghost predicate ConcreteInit(k: Config, c: Concrete) {
    && Init(k, c.system) && |c.queues| == k.shards
    && forall i :: 0 <= i < |c.queues| ==> Mpmc.Init(c.queues[i]) && c.queues[i].capacity == k.capacity
  }

  // ---------------------------------------------------------------------
  // Who is where in a queue

  ghost predicate ThreadOk(k: Config, s: System, i: nat, t: nat, th: Mpmc.Thread<Ticket>)
    requires Constructed(k) && i < |s.shards|
  {
    match th
    case PushAsleep(item) => t >= Tid(0) && Pushing(k, s, i, t - 2, item) && s.calls[t - 2].mode != TryEnqueue
    case PushAwake(item) => t >= Tid(0) && Pushing(k, s, i, t - 2, item) && s.calls[t - 2].mode != TryEnqueue
    case PopAsleep => t == OWNER && Popping(s, i)
    case PopAwake => t == OWNER && Popping(s, i)
    case WillNotifyPop => t >= Tid(0) && At(s, t - 2, Pushed)
    case WillNotifyPush => t == OWNER && s.shards[i].busy
    case _ => t == SHUTDOWN
  }

  ghost predicate ThreadsOk(k: Config, s: System, i: nat, threads: map<nat, Mpmc.Thread<Ticket>>)
    requires Constructed(k) && i < |s.shards|
  {
    forall t :: t in threads ==> ThreadOk(k, s, i, t, threads[t])
  }

  ghost predicate QueueOk(k: Config, s: System, i: nat, q: Queue)
    requires Constructed(k) && i < |s.shards|
  {
    Mpmc.Inv(q) && Mpmc.View(q) == s.shards[i].channel && ThreadsOk(k, s, i, q.threads)
  }

  ghost predicate Coupled(k: Config, c: Concrete) {
    && Inv(k, c.system) && |c.queues| == |c.system.shards|
    && forall i :: 0 <= i < |c.queues| ==> QueueOk(k, c.system, i, c.queues[i])
  }

  // ---------------------------------------------------------------------
  // Each queue step is an abstract step or invisible

  ghost predicate StepOrStutter(k: Config, s: System, s': System)
    requires WellFormed(k, s)
  {
    s' == s || exists l :: Step(k, s, l, s')
  }

  lemma {:induction false} MirrorSame(s: System, i: nat)
    requires i < |s.shards|
    ensures Mirror(s, i, s.shards[i].channel) == s
  {
    assert s.shards[i := s.shards[i]] == s.shards;
  }

  lemma {:induction false} PushBecomes(k: Config, s: System, i: nat, ch: Channel<Ticket>, id: nat, e: Effect<Ticket>)
    requires Inv(k, s) && WellFormed(k, s) && i < |s.shards| && id in s.calls
    requires Pushing(k, s, i, id, s.calls[id].ticket) && Happens(s.shards[i].channel, e, ch)
    requires e == Inserted(s.calls[id].ticket) || e == PushRefused(s.calls[id].mode != TryEnqueue) || e == Silent
    ensures StepOrStutter(k, s, AfterPush(s, i, ch, id, e))
  {
    hide Inv, ShardIndex, Traceable;
    CallTicket(k, s, id);
    MirrorSame(s, i);
    if e.Inserted? {
      assert Step(k, s, Push(id), AfterPush(s, i, ch, id, e));
    } else if e.PushRefused? {
      MirrorSame(Moved(s, s.calls[id].(caller := Refused)), i);
      assert Step(k, s, Refuse(id), AfterPush(s, i, ch, id, e));
    }
  }

  lemma {:induction false} PopBecomes(k: Config, s: System, i: nat, ch: Channel<Ticket>, e: Effect<Ticket>)
    requires Inv(k, s) && WellFormed(k, s) && i < |s.shards| && Popping(s, i)
    requires Happens(s.shards[i].channel, e, ch)
    requires e.Taken? || e == PopRefused(true) || e == Silent
    requires e.Taken? ==> e.item.id in s.calls
    ensures StepOrStutter(k, s, AfterPop(s, i, ch, e))
  {
    hide Inv, ShardIndex;
    MirrorSame(s, i);
    if e.Taken? {
      EntryCall(k, s, i, s.shards[i].channel.popped);
      assert Step(k, s, Pop(i), AfterPop(s, i, ch, e));
    } else if e.PopRefused? {
      assert Step(k, s, Exit(i), AfterPop(s, i, ch, e));
    }
  }

  lemma {:induction false} CloseBecomes(k: Config, s: System, i: nat, ch: Channel<Ticket>)
    requires WellFormed(k, s) && i < |s.shards| && !s.accepting && s.closing == i
    requires Happens(s.shards[i].channel, Closing, ch)
    ensures StepOrStutter(k, s, Mirror(s, i, ch).(closing := s.closing + 1))
  {
    hide Traceable;
    assert Step(k, s, CloseQueue, Mirror(s, i, ch).(closing := s.closing + 1));
  }

  ghost predicate PusherLabel(l: Mpmc.Label<Ticket>) { l.Push? || l.TryPush? || l.RetryPush? }

  ghost predicate PopperLabel(l: Mpmc.Label<Ticket>) { l.Pop? || l.RetryPop? }

  /** The premises of a queue step, shard by shard. */
  ghost predicate InShard(k: Config, s: System, i: nat, q: Queue, l: Mpmc.Label<Ticket>, q': Queue, s': System)
    requires WellFormed(k, s) && i < |s.shards|
  {
    QueueOk(k, s, i, q) && Mpmc.Step(q, l, q') && QueueEffect(k, s, i, q, l, q', s')
  }

  /** Whoever pushes is a call inside push, with its own ticket. */
  lemma {:induction false} PusherIs(k: Config, s: System, i: nat, q: Queue, l: Mpmc.Label<Ticket>, q': Queue,
                                    s': System)
    requires WellFormed(k, s) && i < |s.shards| && InShard(k, s, i, q, l, q', s') && PusherLabel(l)
    ensures l.t >= Tid(0) && l.t - 2 in s.calls
    ensures var c := s.calls[l.t - 2];
            && Pushing(k, s, i, l.t - 2, c.ticket)
            && Mpmc.EffectOf(q, l) == Mpmc.EffectOfPush(q, c.ticket, c.mode != TryEnqueue)
            && q' == Mpmc.AttemptPush(q, l.t, c.ticket, c.mode != TryEnqueue)
            && s' == AfterPush(s, i, Mpmc.View(q'), l.t - 2, Mpmc.EffectOf(q, l))
            && (l.t in q.threads ==> Mpmc.Is(q, l.t, Mpmc.KPushAwake))
  {
    hide Traceable, ShardIndex, Mpmc.Inv, AfterPush, Mpmc.EffectOfPush, Mpmc.AttemptPush;
    if l.RetryPush? {
      assert ThreadOk(k, s, i, l.t, q.threads[l.t]);
    }
  }

  /** Whoever pops is the owner, ready for a command. */
  lemma {:induction false} PopperIs(k: Config, s: System, i: nat, q: Queue, l: Mpmc.Label<Ticket>, q': Queue,
                                    s': System)
    requires WellFormed(k, s) && i < |s.shards| && InShard(k, s, i, q, l, q', s') && PopperLabel(l)
    ensures l.t == OWNER && Popping(s, i)
    ensures var e := Mpmc.EffectOf(q, l);
            && e == Mpmc.EffectOfPop(q, true) && (e.Taken? ==> e.item.id in s.calls)
            && q' == Mpmc.AttemptPop(q, l.t, true)
            && s' == AfterPop(s, i, Mpmc.View(q'), e)
            && (l.t in q.threads ==> Mpmc.Is(q, l.t, Mpmc.KPopAwake))
  {
    hide Traceable, ShardIndex, Mpmc.Inv, AfterPop, Mpmc.EffectOfPop, Mpmc.AttemptPop;
    if l.RetryPop? {
      assert ThreadOk(k, s, i, l.t, q.threads[l.t]);
    }
  }

  lemma {:induction false} OtherIs(k: Config, s: System, i: nat, q: Queue, l: Mpmc.Label<Ticket>, q': Queue, s': System)
    requires WellFormed(k, s) && i < |s.shards| && InShard(k, s, i, q, l, q', s') && !PusherLabel(l) && !PopperLabel(l)
    ensures if l.Close? then Mpmc.EffectOf(q, l) == Closing && l.t == SHUTDOWN && !s.accepting && s.closing == i
                           && s' == Mirror(s, i, Mpmc.View(q')).(closing := s.closing + 1)
            else Mpmc.EffectOf(q, l) == Silent && s' == Mirror(s, i, Mpmc.View(q'))
  {
    hide Traceable, ShardIndex, Mpmc.Inv, Mpmc.Step;
  }

  lemma {:induction false} QueueBecomes(k: Config, s: System, i: nat, q: Queue, l: Mpmc.Label<Ticket>, q': Queue,
                                        s': System)
    requires Inv(k, s) && WellFormed(k, s) && i < |s.shards| && InShard(k, s, i, q, l, q', s')
    ensures StepOrStutter(k, s, s')
  {
    hide Inv, ShardIndex, Traceable, Mpmc.Step, Mpmc.NoLostWakeup, StepOrStutter, AfterPush, AfterPop, Happens;
    hide QueueEffect;
    hide Mpmc.EffectOf, Mpmc.AttemptPush, Mpmc.AttemptPop, Pushing, Popping, ThreadOk;
    Mpmc.StepRefines(q, l, q');
    var ch, e := Mpmc.View(q'), Mpmc.EffectOf(q, l);
    if PusherLabel(l) {
      PusherIs(k, s, i, q, l, q', s');
      PushBecomes(k, s, i, ch, l.t - 2, e);
    } else if PopperLabel(l) {
      PopperIs(k, s, i, q, l, q', s');
      PopBecomes(k, s, i, ch, e);
    } else {
      OtherIs(k, s, i, q, l, q', s');
      if l.Close? {
        CloseBecomes(k, s, i, ch);
      } else {
        SilentKeeps(s.shards[i].channel, ch);
        MirrorSame(s, i);
        Stutters(k, s);
      }
    }
  }

  lemma {:induction false} SilentKeeps(ch: Channel<Ticket>, ch': Channel<Ticket>)
    ensures Happens(ch, Silent, ch') ==> ch' == ch
  {
  }

  lemma {:induction false} Stutters(k: Config, s: System)
    requires WellFormed(k, s)
    ensures StepOrStutter(k, s, s)
  {
  }

  // ---------------------------------------------------------------------
  // Threads stay where they belong

  ghost predicate SameCaller(c: Call, c': Call) {
    c'.caller == c.caller && c'.ticket == c.ticket && c'.mode == c.mode
  }

  ghost predicate SameOwner(sh: Shard, sh': Shard) {
    sh'.busy == sh.busy && sh'.exited == sh.exited
  }

  lemma {:induction false} ThreadStays(k: Config, s: System, s': System, i: nat, t: nat, th: Mpmc.Thread<Ticket>)
    requires Constructed(k) && i < |s.shards| == |s'.shards| && ThreadOk(k, s, i, t, th)
    requires t == OWNER ==> SameOwner(s.shards[i], s'.shards[i])
    requires t >= Tid(0) && t - 2 in s.calls ==> t - 2 in s'.calls && SameCaller(s.calls[t - 2], s'.calls[t - 2])
    ensures ThreadOk(k, s', i, t, th)
  {
    hide ShardIndex;
  }

  lemma {:induction false} AwakenStays(k: Config, s: System, i: nat, t: nat, th: Mpmc.Thread<Ticket>)
    requires Constructed(k) && i < |s.shards| && ThreadOk(k, s, i, t, th)
    ensures ThreadOk(k, s, i, t, Mpmc.Awaken(th))
  {
    hide ShardIndex;
  }

  /** A pushing call is in no other queue. */
  lemma {:induction false} NotElsewhere(k: Config, s: System, i: nat, j: nat, id: nat, threads: map<nat,
                                        Mpmc.Thread<Ticket>>)
    requires Constructed(k) && j < |s.shards| && i != j && id in s.calls
    requires Pushing(k, s, i, id, s.calls[id].ticket) && ThreadsOk(k, s, j, threads)
    ensures Tid(id) !in threads
  {
    hide ShardIndex;
    if Tid(id) in threads {
      assert false;
    }
  }

  /** Only the call in question changes, apart from its shard. */
  lemma {:induction false} PushFrame(s: System, i: nat, ch: Channel<Ticket>, id: nat, e: Effect<Ticket>)
    requires i < |s.shards| && id in s.calls && s.calls[id].ticket.id == id
    ensures var s' := AfterPush(s, i, ch, id, e);
            && |s'.shards| == |s.shards| && s'.shards[i].channel == ch
            && (forall j :: 0 <= j < |s.shards| ==> SameOwner(s.shards[j], s'.shards[j]))
            && (forall j :: 0 <= j < |s.shards| && j != i ==> s'.shards[j] == s.shards[j])
            && (forall d :: d in s.calls ==> d in s'.calls)
            && (forall d :: d in s.calls && d != id ==> s'.calls[d] == s.calls[d])
            && s'.calls[id].ticket == s.calls[id].ticket && s'.calls[id].mode == s.calls[id].mode
            && s'.calls[id].caller
               == (if e.Inserted? then Pushed else if e.PushRefused? then Refused else s.calls[id].caller)
  {
  }

  lemma {:induction false} PopFrame(s: System, i: nat, ch: Channel<Ticket>, e: Effect<Ticket>)
    requires i < |s.shards| && (e.Taken? ==> e.item.id in s.calls && s.calls[e.item.id].ticket.id == e.item.id)
    ensures var s' := AfterPop(s, i, ch, e);
            && |s'.shards| == |s.shards| && s'.shards[i].channel == ch
            && s'.shards[i].busy == (s.shards[i].busy || e.Taken?)
            && s'.shards[i].exited == (s.shards[i].exited || e.PopRefused?)
            && (forall j :: 0 <= j < |s.shards| && j != i ==> s'.shards[j] == s.shards[j])
            && (forall d :: d in s.calls ==> d in s'.calls && SameCaller(s.calls[d], s'.calls[d]))
  {
  }

  lemma {:induction false} PushThreads(k: Config, s: System, i: nat, q: Queue, id: nat, s': System)
    requires Constructed(k) && i < |s.shards| && id in s.calls && s.calls[id].ticket.id == id
    requires ThreadsOk(k, s, i, q.threads) && Pushing(k, s, i, id, s.calls[id].ticket)
    requires var c := s.calls[id];
             var q' := Mpmc.AttemptPush(q, Tid(id), c.ticket, c.mode != TryEnqueue);
             s' == AfterPush(s, i, Mpmc.View(q'), id, Mpmc.EffectOfPush(q, c.ticket, c.mode != TryEnqueue))
    ensures |s'.shards| == |s.shards|
    ensures var c := s.calls[id];
            ThreadsOk(k, s', i, Mpmc.AttemptPush(q, Tid(id), c.ticket, c.mode != TryEnqueue).threads)
  {
    hide ShardIndex, AfterPush;
    var c := s.calls[id];
    var q' := Mpmc.AttemptPush(q, Tid(id), c.ticket, c.mode != TryEnqueue);
    PushFrame(s, i, Mpmc.View(q'), id, Mpmc.EffectOfPush(q, c.ticket, c.mode != TryEnqueue));
    forall t | t in q'.threads
      ensures ThreadOk(k, s', i, t, q'.threads[t])
    {
      if t != Tid(id) {
        assert ThreadOk(k, s, i, t, q.threads[t]);
        ThreadStays(k, s, s', i, t, q.threads[t]);
      }
    }
  }

  lemma {:induction false} PushElsewhere(k: Config, s: System, i: nat, j: nat, ch: Channel<Ticket>, id: nat,
                                         e: Effect<Ticket>,
                                         threads: map<nat, Mpmc.Thread<Ticket>>)
    requires Constructed(k) && i < |s.shards| && j < |s.shards| && i != j && id in s.calls
    requires s.calls[id].ticket.id == id
    requires Pushing(k, s, i, id, s.calls[id].ticket) && ThreadsOk(k, s, j, threads)
    ensures |AfterPush(s, i, ch, id, e).shards| == |s.shards| && ThreadsOk(k, AfterPush(s, i, ch, id, e), j, threads)
  {
    hide ShardIndex, AfterPush, Pushing, ThreadOk;
    var s' := AfterPush(s, i, ch, id, e);
    PushFrame(s, i, ch, id, e);
    NotElsewhere(k, s, i, j, id, threads);
    forall t | t in threads
      ensures ThreadOk(k, s', j, t, threads[t])
    {
      ThreadStays(k, s, s', j, t, threads[t]);
    }
  }

  lemma {:induction false} PopThreads(k: Config, s: System, i: nat, q: Queue, s': System)
    requires Constructed(k) && i < |s.shards| && ThreadsOk(k, s, i, q.threads) && Popping(s, i)
    requires var e := Mpmc.EffectOfPop(q, true);
             && (e.Taken? ==> e.item.id in s.calls && s.calls[e.item.id].ticket.id == e.item.id)
             && s' == AfterPop(s, i, Mpmc.View(Mpmc.AttemptPop(q, OWNER, true)), e)
    ensures |s'.shards| == |s.shards| && ThreadsOk(k, s', i, Mpmc.AttemptPop(q, OWNER, true).threads)
  {
    hide ShardIndex, AfterPop;
    var q' := Mpmc.AttemptPop(q, OWNER, true);
    PopFrame(s, i, Mpmc.View(q'), Mpmc.EffectOfPop(q, true));
    forall t | t in q'.threads
      ensures ThreadOk(k, s', i, t, q'.threads[t])
    {
      if t != OWNER {
        assert ThreadOk(k, s, i, t, q.threads[t]);
        ThreadStays(k, s, s', i, t, q.threads[t]);
      }
    }
  }

  lemma {:induction false} PopElsewhere(k: Config, s: System, i: nat, j: nat, ch: Channel<Ticket>, e: Effect<Ticket>,
                                        threads: map<nat, Mpmc.Thread<Ticket>>)
    requires Constructed(k) && i < |s.shards| && j < |s.shards| && i != j && ThreadsOk(k, s, j, threads)
    requires e.Taken? ==> e.item.id in s.calls && s.calls[e.item.id].ticket.id == e.item.id
    ensures |AfterPop(s, i, ch, e).shards| == |s.shards| && ThreadsOk(k, AfterPop(s, i, ch, e), j, threads)
  {
    hide ShardIndex, AfterPop, ThreadOk;
    var s' := AfterPop(s, i, ch, e);
    PopFrame(s, i, ch, e);
    forall t | t in threads
      ensures ThreadOk(k, s', j, t, threads[t])
    {
      ThreadStays(k, s, s', j, t, threads[t]);
    }
  }

  /** Notifications, wakeups and close move nobody but closers to a new place. */
  lemma {:induction false} OtherThreads(q: Queue, l: Mpmc.Label<Ticket>, q': Queue, t: nat)
    requires Mpmc.Step(q, l, q') && !PusherLabel(l) && !PopperLabel(l) && !l.TryPop? && t in q'.threads
    ensures || (t in q.threads && (q'.threads[t] == q.threads[t] || q'.threads[t] == Mpmc.Awaken(q.threads[t])))
            || (q'.threads[t].WillWakePoppers? && l.Close? && t == l.t)
            || (q'.threads[t].WillWakePushers? && t in q.threads && q.threads[t].WillWakePoppers?)
  {
  }

  lemma {:induction false} OtherThreadsOk(k: Config, s: System, i: nat, q: Queue, l: Mpmc.Label<Ticket>, q': Queue)
    requires Constructed(k) && i < |s.shards| && ThreadsOk(k, s, i, q.threads)
    requires Mpmc.Step(q, l, q') && !PusherLabel(l) && !PopperLabel(l) && !l.TryPop? && (l.Close? ==> l.t == SHUTDOWN)
    ensures ThreadsOk(k, s, i, q'.threads)
  {
    hide ShardIndex, Mpmc.Step, Pushing, Popping;
    forall t | t in q'.threads
      ensures ThreadOk(k, s, i, t, q'.threads[t])
    {
      OtherThreads(q, l, q', t);
      if t in q.threads {
        assert ThreadOk(k, s, i, t, q.threads[t]);
        AwakenStays(k, s, i, t, q.threads[t]);
      }
    }
  }

  // ---------------------------------------------------------------------
  // Steps keep the coupling

  lemma {:induction false} AbstractKeeps(k: Config, s: System, s': System)
    requires Inv(k, s) && WellFormed(k, s) && StepOrStutter(k, s, s')
    ensures Inv(k, s')
  {
    hide Inv, WellFormed, Step;
    if s' != s {
      var l :| Step(k, s, l, s');
      StepKeepsInv(k, s, l, s');
    }
  }

  /** What a pop takes is the ticket of a call. */
  lemma {:induction false} TakenIsCall(k: Config, s: System, i: nat, e: Effect<Ticket>, ch: Channel<Ticket>)
    requires Inv(k, s) && i < |s.shards| && Happens(s.shards[i].channel, e, ch)
    ensures e.Taken? ==> e.item.id in s.calls && s.calls[e.item.id].ticket == e.item
  {
    hide Inv, ShardIndex, CallOk;
    InvIsWellFormed(k, s);
    if e.Taken? {
      EntryCall(k, s, i, s.shards[i].channel.popped);
    }
  }

  /** The step's own queue. */
  lemma {:induction false} OwnQueueKeeps(k: Config, s: System, i: nat, q: Queue, l: Mpmc.Label<Ticket>, q': Queue,
                                         s': System)
    requires Inv(k, s) && WellFormed(k, s) && i < |s.shards| && InShard(k, s, i, q, l, q', s')
    ensures |s'.shards| == |s.shards| && QueueOk(k, s', i, q')
  {
    hide Inv, ShardIndex, Traceable, Mpmc.Step, Mpmc.Inv, AfterPush, AfterPop, Happens, QueueEffect;
    hide Mpmc.EffectOf, ThreadsOk;
    hide Mpmc.AttemptPush, Mpmc.AttemptPop, Pushing, Popping, Mpmc.EffectOfPush, Mpmc.EffectOfPop;
    Mpmc.StepKeepsInv(q, l, q');
    Refines(q, l, q');
    var ch, e := Mpmc.View(q'), Mpmc.EffectOf(q, l);
    if PusherLabel(l) {
      PusherIs(k, s, i, q, l, q', s');
      CallTicket(k, s, l.t - 2);
      PushFrame(s, i, ch, l.t - 2, e);
      PushThreads(k, s, i, q, l.t - 2, s');
    } else if PopperLabel(l) {
      PopperIs(k, s, i, q, l, q', s');
      TakenIsCall(k, s, i, e, ch);
      PopFrame(s, i, ch, e);
      PopThreads(k, s, i, q, s');
    } else {
      OtherIs(k, s, i, q, l, q', s');
      NoTryPop(k, s, i, q, l, q', s');
      OtherThreadsOk(k, s, i, q, l, q');
      ThreadsSee(k, s, s', i, q'.threads);
    }
  }

  lemma {:induction false} Refines(q: Queue, l: Mpmc.Label<Ticket>, q': Queue)
    requires Mpmc.Inv(q) && Mpmc.Step(q, l, q')
    ensures Happens(Mpmc.View(q), Mpmc.EffectOf(q, l), Mpmc.View(q'))
  {
    hide Mpmc.NoLostWakeup, Mpmc.Step, Happens, Mpmc.EffectOf;
    Mpmc.StepRefines(q, l, q');
  }

  lemma {:induction false} NoTryPop(k: Config, s: System, i: nat, q: Queue, l: Mpmc.Label<Ticket>, q': Queue,
                                    s': System)
    requires WellFormed(k, s) && i < |s.shards| && InShard(k, s, i, q, l, q', s')
    ensures !l.TryPop?
  {
    hide Traceable, Mpmc.Step;
  }

  /** Threads care only about callers and owners. */
  lemma {:induction false} ThreadsSee(k: Config, s: System, s': System, j: nat, threads: map<nat, Mpmc.Thread<Ticket>>)
    requires Constructed(k) && j < |s.shards| == |s'.shards| && ThreadsOk(k, s, j, threads)
    requires SameOwner(s.shards[j], s'.shards[j]) && s'.calls == s.calls
    ensures ThreadsOk(k, s', j, threads)
  {
    hide ThreadOk;
    forall t | t in threads
      ensures ThreadOk(k, s', j, t, threads[t])
    {
      ThreadStays(k, s, s', j, t, threads[t]);
    }
  }

  /** Another shard's queue. */
  lemma {:induction false} OtherQueueKeeps(k: Config, s: System, i: nat, q: Queue, l: Mpmc.Label<Ticket>, q': Queue,
                                           s': System,
                                           j: nat, r: Queue)
    requires Inv(k, s) && WellFormed(k, s) && i < |s.shards| && InShard(k, s, i, q, l, q', s')
    requires j < |s.shards| && j != i && QueueOk(k, s, j, r)
    ensures |s'.shards| == |s.shards| && QueueOk(k, s', j, r)
  {
    hide Inv, ShardIndex, Traceable, Mpmc.Step, Mpmc.Inv, AfterPush, AfterPop, Happens, QueueEffect;
    hide Mpmc.EffectOf, ThreadsOk;
    hide Mpmc.AttemptPush, Mpmc.AttemptPop, Pushing, Popping, Mpmc.EffectOfPush, Mpmc.EffectOfPop;
    Refines(q, l, q');
    var ch, e := Mpmc.View(q'), Mpmc.EffectOf(q, l);
    if PusherLabel(l) {
      PusherIs(k, s, i, q, l, q', s');
      CallTicket(k, s, l.t - 2);
      PushFrame(s, i, ch, l.t - 2, e);
      PushElsewhere(k, s, i, j, ch, l.t - 2, e, r.threads);
    } else if PopperLabel(l) {
      PopperIs(k, s, i, q, l, q', s');
      TakenIsCall(k, s, i, e, ch);
      PopFrame(s, i, ch, e);
      PopElsewhere(k, s, i, j, ch, e, r.threads);
    } else {
      OtherIs(k, s, i, q, l, q', s');
      ThreadsSee(k, s, s', j, r.threads);
    }
  }

  lemma {:induction false} QueueStepKeeps(k: Config, c: Concrete, i: nat, l: Mpmc.Label<Ticket>, c': Concrete)
    requires Coupled(k, c) && WellFormed(k, c.system) && ConcreteStep(k, c, InQueue(i, l), c')
    ensures Coupled(k, c')
  {
    hide Inv, Traceable, Mpmc.Step, QueueEffect, QueueOk;
    var s, s', q, q' := c.system, c'.system, c.queues[i], c'.queues[i];
    assert QueueOk(k, s, i, q);
    QueueBecomes(k, s, i, q, l, q', s');
    AbstractKeeps(k, s, s');
    OwnQueueKeeps(k, s, i, q, l, q', s');
    forall j | 0 <= j < |c'.queues|
      ensures QueueOk(k, s', j, c'.queues[j])
    {
      if j != i {
        OtherQueueKeeps(k, s, i, q, l, q', s', j, c.queues[j]);
      }
    }
  }

  // ---------------------------------------------------------------------
  // Local steps

  ghost predicate LocalLabel(l: Label) { !l.Push? && !l.Refuse? && !l.Pop? && !l.Exit? && !l.CloseQueue? }

  /** A local step moves at most one call, and at most the owner of one shard. */
  lemma {:induction false} LocalFrame(k: Config, s: System, l: Label, s': System)
    requires Inv(k, s) && WellFormed(k, s) && Step(k, s, l, s') && LocalLabel(l)
    ensures |s'.shards| == |s.shards|
    ensures forall j :: 0 <= j < |s.shards| ==> s'.shards[j].channel == s.shards[j].channel
    ensures forall j :: 0 <= j < |s.shards| && !(l.Work? && l.shard == j) ==> SameOwner(s.shards[j], s'.shards[j])
    ensures forall d :: d in s.calls ==> d in s'.calls
    ensures forall d :: d in s.calls && !(CallerLabel(l) && l.id == d) ==> SameCaller(s.calls[d], s'.calls[d])
    ensures CallerLabel(l) && l.id in s.calls ==> s.calls[l.id].caller != Counted
    ensures CallerLabel(l) && l.id in s.calls && s.calls[l.id].caller == Pushed ==> l.Submitted?
  {
    hide Inv, ShardIndex, Happens, WorkStep;
    if l.Work? {
      EntryCall(k, s, l.shard, s.shards[l.shard].channel.popped - 1);
      var c := s.calls[s.shards[l.shard].Hand().id];
      WorkShape(k, s, l.shard, c, s');
      WorkSameCaller(k, s.shards[l.shard], c);
    } else if CallerLabel(l) {
      CallTicket(k, s, l.id);
    }
  }

  lemma {:induction false} WorkSameCaller(k: Config, sh: Shard, c: Call)
    requires c.owner.InHand()
    ensures SameCaller(c, WorkCall(k, sh, c))
  {
  }

  lemma {:induction false} LocalThreads(k: Config, c: Concrete, l: Label, c': Concrete, j: nat)
    requires Coupled(k, c) && WellFormed(k, c.system) && LocalStep(k, c, l, c') && j < |c.queues|
    ensures |c'.system.shards| == |c.system.shards| && QueueOk(k, c'.system, j, c.queues[j])
  {
    hide Inv, ShardIndex, Traceable, Step, Mpmc.Inv;
    var s, s', threads := c.system, c'.system, c.queues[j].threads;
    assert QueueOk(k, s, j, c.queues[j]);
    LocalFrame(k, s, l, s');
    forall t | t in threads
      ensures ThreadOk(k, s', j, t, threads[t])
    {
      assert ThreadOk(k, s, j, t, threads[t]);
      ThreadStays(k, s, s', j, t, threads[t]);
    }
  }

  lemma {:induction false} LocalKeeps(k: Config, c: Concrete, l: Label, c': Concrete)
    requires Coupled(k, c) && WellFormed(k, c.system) && LocalStep(k, c, l, c')
    ensures Coupled(k, c')
  {
    hide Inv, Step, QueueOk, Traceable;
    StepKeepsInv(k, c.system, l, c'.system);
    LocalLength(k, c.system, l, c'.system);
    forall j | 0 <= j < |c'.queues|
      ensures QueueOk(k, c'.system, j, c'.queues[j])
    {
      LocalThreads(k, c, l, c', j);
    }
  }

  lemma {:induction false} LocalLength(k: Config, s: System, l: Label, s': System)
    requires Inv(k, s) && WellFormed(k, s) && Step(k, s, l, s') && LocalLabel(l)
    ensures |s'.shards| == |s.shards|
  {
    hide Inv, Step, WellFormed;
    LocalFrame(k, s, l, s');
  }

  lemma {:induction false} ConcreteStepKeeps(k: Config, c: Concrete, m: Move, c': Concrete)
    requires Coupled(k, c) && WellFormed(k, c.system) && ConcreteStep(k, c, m, c')
    ensures Coupled(k, c')
  {
    hide Coupled, LocalStep, QueueEffect, WellFormed;
    CoupledLength(k, c);
    match m
    case Local(l) => LocalKeeps(k, c, l, c');
    case InQueue(i, l) => QueueStepKeeps(k, c, i, l, c');
  }

  lemma {:induction false} CoupledLength(k: Config, c: Concrete)
    requires Coupled(k, c)
    ensures Inv(k, c.system) && WellFormed(k, c.system) && |c.queues| == |c.system.shards|
  {
    hide Inv, QueueOk;
    InvIsWellFormed(k, c.system);
  }

  // ---------------------------------------------------------------------
  // Whole runs

  ghost predicate ConcreteExecution(k: Config, run: seq<Concrete>, moves: seq<Move>) {
    && |run| == |moves| + 1 && ConcreteInit(k, run[0])
    && forall n :: 0 <= n < |moves| ==>
         && WellFormed(k, run[n].system) && |run[n].queues| == |run[n].system.shards|
         && ConcreteStep(k, run[n], moves[n], run[n + 1])
  }

  lemma {:induction false} ConcreteInitOk(k: Config, c: Concrete)
    requires ConcreteInit(k, c)
    ensures Coupled(k, c)
  {
    hide Inv, Mpmc.Inv;
    InitOk(k, c.system);
    forall i | 0 <= i < |c.queues|
      ensures QueueOk(k, c.system, i, c.queues[i])
    {
      Mpmc.InitOk(c.queues[i]);
    }
  }

  lemma {:induction false} AlwaysCoupled(k: Config, run: seq<Concrete>, moves: seq<Move>, n: nat)
    requires ConcreteExecution(k, run, moves) && n < |run|
    ensures Coupled(k, run[n])
  {
    hide Coupled, ConcreteStep, WellFormed, ConcreteInit;
    if n == 0 {
      ConcreteInitOk(k, run[0]);
    } else {
      AlwaysCoupled(k, run, moves, n - 1);
      ConcreteStepKeeps(k, run[n - 1], moves[n - 1], run[n]);
    }
  }

  /** Every step of the engine on its real queues is a step of `Partitioned`, or
      nothing happens there. */
  lemma {:induction false} RefinesPartitioned(k: Config, run: seq<Concrete>, moves: seq<Move>, n: nat)
    requires ConcreteExecution(k, run, moves) && n < |moves|
    ensures WellFormed(k, run[n].system) && StepOrStutter(k, run[n].system, run[n + 1].system)
  {
    hide Inv, Step, Traceable, QueueEffect, Mpmc.Step, QueueOk, ConcreteInit;
    AlwaysCoupled(k, run, moves, n);
    var c, c' := run[n], run[n + 1];
    if moves[n].InQueue? {
      var i, l := moves[n].shard, moves[n].q;
      assert QueueOk(k, c.system, i, c.queues[i]);
      QueueBecomes(k, c.system, i, c.queues[i], l, c'.queues[i], c'.system);
    } else {
      assert Step(k, c.system, moves[n].l, c'.system);
    }
  }

  lemma {:induction false} ConcreteInv(k: Config, run: seq<Concrete>, moves: seq<Move>, n: nat)
    requires ConcreteExecution(k, run, moves) && n < |run|
    ensures Inv(k, run[n].system) && WellFormed(k, run[n].system)
  {
    hide ConcreteExecution, Coupled, Inv, WellFormed;
    AlwaysCoupled(k, run, moves, n);
    CoupledLength(k, run[n]);
  }

  // ---------------------------------------------------------------------
  // The results of `PartitionedLaws` on the real queues

  /** Each symbol acts alone. */
  lemma {:induction false} SequentialOnQueues(k: Config, run: seq<Concrete>, moves: seq<Move>, n: nat, y: Symbol)
    requires ConcreteExecution(k, run, moves) && n < |run|
    ensures WellFormed(k, run[n].system) && ActsAlone(k, run[n].system, y)
  {
    hide ConcreteExecution, Inv, WellFormed, ActsAlone;
    ConcreteInv(k, run, moves, n);
    ShardActsAlone(k, run[n].system, y);
  }

  /** Every promise is set at most once, and with the right answer. */
  lemma {:induction false} PromisesOnQueues(k: Config, run: seq<Concrete>, moves: seq<Move>, n: nat, id: nat)
    requires ConcreteExecution(k, run, moves) && n < |run| && id in run[n].system.calls
    ensures WellFormed(k, run[n].system) && PromiseOk(k, run[n].system, id)
  {
    hide ConcreteExecution, Inv, PromiseOk;
    ConcreteInv(k, run, moves, n);
    PromiseNow(k, run[n].system, id);
  }

  /** A zero count means that everything accepted is done, a quiet engine has matching
      statistics, and a finished shutdown has drained it. */
  lemma {:induction false} CountsOnQueues(k: Config, run: seq<Concrete>, moves: seq<Move>, n: nat)
    requires ConcreteExecution(k, run, moves) && n < |run|
    ensures var s := run[n].system;
            && s.pending == Size(s.calls, InFlight) >= 0
            && (s.pending == 0 ==> AllDone(s))
            && (Quiescent(s) ==> StatisticsAgree(s))
            && (s.joined == |s.shards| ==> ShutDown(s))
  {
    hide ConcreteExecution, Inv, AllDone, Quiescent, StatisticsAgree, ShutDown, Size;
    ConcreteInv(k, run, moves, n);
    var s := run[n].system;
    CountsExact(k, s);
    if s.pending == 0 {
      ZeroMeansDone(k, s);
    }
    if Quiescent(s) {
      QuiescentNow(k, s);
    }
    if s.joined == |s.shards| {
      JoinedNow(k, s);
    }
  }

  lemma {:induction false} QueuesGrow(k: Config, run: seq<Concrete>, moves: seq<Move>, m: nat, n: nat, i: nat)
    requires ConcreteExecution(k, run, moves) && m <= n < |run| && i < |run[m].system.shards|
    ensures |run[n].system.shards| == |run[m].system.shards|
    ensures run[m].system.shards[i].channel.log <= run[n].system.shards[i].channel.log
    decreases n
  {
    hide ConcreteExecution, Step, WellFormed;
    if m < n {
      ExecutionLength(k, run, moves);
      QueuesGrow(k, run, moves, m, n - 1, i);
      RefinesPartitioned(k, run, moves, n - 1);
      var s, s' := run[n - 1].system, run[n].system;
      if s' != s {
        var l :| Step(k, s, l, s');
        StepGrows(k, s, l, s', i);
      }
    }
  }

  lemma {:induction false} ExecutionLength(k: Config, run: seq<Concrete>, moves: seq<Move>)
    requires ConcreteExecution(k, run, moves)
    ensures |run| == |moves| + 1
  {
  }

  /** A call that returned true before another for the same symbol began stays ahead. */
  lemma {:induction false} OrderOnQueues(k: Config, run: seq<Concrete>, moves: seq<Move>, m: nat, n: nat, a: nat,
                                         b: nat)
    requires ConcreteExecution(k, run, moves) && m <= n < |run|
    requires var s := run[m].system; a in s.calls && s.calls[a].caller == Returned(true) && b !in s.calls
    ensures WellFormed(k, run[n].system) && Ahead(k, run[m].system, run[n].system, a, b)
  {
    hide ConcreteExecution, Inv, Ahead, ShardIndex, Traceable;
    ConcreteInv(k, run, moves, m);
    ConcreteInv(k, run, moves, n);
    QueuesGrow(k, run, moves, m, n, ShardIndex(k, run[m].system.calls[a].ticket.symbol));
    AheadLater(k, run[m].system, run[n].system, a, b);
  }

  // ---------------------------------------------------------------------
  // No deadlock

  /** Moves that the program makes on its own: not a new call, not the decision to
      shut down, not a wakeup for no reason. */
  ghost predicate OwnMove(m: Move) {
    match m
    case Local(l) => !l.Begin? && !l.StopAccepting?
    case InQueue(_, l) => !l.Spurious?
  }

  ghost predicate CanMove(k: Config, c: Concrete)
    requires WellFormed(k, c.system) && |c.queues| == |c.system.shards|
  {
    exists m, c' :: OwnMove(m) && ConcreteStep(k, c, m, c')
  }

  lemma {:induction false} QueueMoves(k: Config, c: Concrete, i: nat, l: Mpmc.Label<Ticket>, q': Queue, s': System)
    requires WellFormed(k, c.system) && i < |c.queues| == |c.system.shards| && !l.Spurious?
    requires l.Close? ==> Outside(c.queues, SHUTDOWN)
    requires Mpmc.Step(c.queues[i], l, q') && QueueEffect(k, c.system, i, c.queues[i], l, q', s')
    ensures CanMove(k, c)
  {
    hide Mpmc.Step, QueueEffect, Traceable;
    var c' := Concrete(s', c.queues[i := q']);
    assert ConcreteStep(k, c, InQueue(i, l), c');
  }

  lemma {:induction false} LocalMoves(k: Config, c: Concrete, l: Label, s': System)
    requires WellFormed(k, c.system) && |c.queues| == |c.system.shards| && LocalLabel(l) && !l.Begin?
    requires !l.StopAccepting?
    requires Step(k, c.system, l, s')
    requires l.Submitted? ==> Outside(c.queues, Tid(l.id))
    requires l.Join? ==> Outside(c.queues, SHUTDOWN)
    requires l.Work? && l.shard < |c.queues| ==> OWNER !in c.queues[l.shard].threads
    ensures CanMove(k, c)
  {
    hide Step, Traceable;
    assert ConcreteStep(k, c, Local(l), Concrete(s', c.queues));
  }

  /** A thread that is awake inside a queue can move. */
  lemma {:induction false} AwakeMoves(k: Config, c: Concrete, i: nat, t: nat)
    requires Coupled(k, c) && WellFormed(k, c.system) && i < |c.queues| && t in c.queues[i].threads
    requires !c.queues[i].threads[t].PushAsleep? && !c.queues[i].threads[t].PopAsleep?
    ensures CanMove(k, c)
  {
    hide Inv, ShardIndex, Traceable, CanMove, Mpmc.Inv, AfterPush, AfterPop, Mpmc.AttemptPush, Mpmc.AttemptPop;
    var s, q := c.system, c.queues[i];
    assert QueueOk(k, s, i, q) && ThreadOk(k, s, i, t, q.threads[t]);
    var th := q.threads[t];
    if th.PushAwake? {
      var q' := Mpmc.AttemptPush(q, t, th.item, true);
      var l := Mpmc.RetryPush(t);
      QueueMoves(k, c, i, l, q', AfterPush(s, i, Mpmc.View(q'), t - 2, Mpmc.EffectOf(q, l)));
    } else if th.PopAwake? {
      var q' := Mpmc.AttemptPop(q, t, true);
      PopEffectOk(k, c, i, t, Mpmc.RetryPop(t), q');
      QueueMoves(k, c, i, Mpmc.RetryPop(t), q', AfterPop(s, i, Mpmc.View(q'), Mpmc.EffectOf(q, Mpmc.RetryPop(t))));
    } else {
      NotifierMoves(k, c, i, t);
    }
  }

  lemma {:induction false} PopEffectOk(k: Config, c: Concrete, i: nat, t: nat, l: Mpmc.Label<Ticket>, q': Queue)
    requires Coupled(k, c) && WellFormed(k, c.system) && i < |c.queues| && Mpmc.Step(c.queues[i], l, q')
    requires PopperLabel(l)
    ensures var e := Mpmc.EffectOf(c.queues[i], l); e.Taken? ==> e.item.id in c.system.calls
  {
    hide Inv, ShardIndex, Traceable, Mpmc.Inv, Mpmc.Step, Mpmc.EffectOf, Happens;
    assert QueueOk(k, c.system, i, c.queues[i]);
    Refines(c.queues[i], l, q');
    TakenIsCall(k, c.system, i, Mpmc.EffectOf(c.queues[i], l), Mpmc.View(q'));
  }

  /** A thread about to notify can do so. */
  lemma {:induction false} NotifierMoves(k: Config, c: Concrete, i: nat, t: nat)
    requires WellFormed(k, c.system) && i < |c.queues| == |c.system.shards| && t in c.queues[i].threads
    requires var th := c.queues[i].threads[t];
             th.WillNotifyPop? || th.WillNotifyPush? || th.WillWakePoppers? || th.WillWakePushers?
    ensures CanMove(k, c)
  {
    hide Traceable, CanMove;
    var th := c.queues[i].threads[t];
    if th.WillNotifyPop? || th.WillNotifyPush? {
      NotifyOneMoves(k, c, i, t);
    } else {
      CloserMoves(k, c, i, t);
    }
  }

  lemma {:induction false} NotifyOneMoves(k: Config, c: Concrete, i: nat, t: nat)
    requires WellFormed(k, c.system) && i < |c.queues| == |c.system.shards| && t in c.queues[i].threads
    requires c.queues[i].threads[t].WillNotifyPop? || c.queues[i].threads[t].WillNotifyPush?
    ensures CanMove(k, c)
  {
    hide Traceable, CanMove, Mpmc.Notifies;
    var s, q := c.system, c.queues[i];
    if q.threads[t].WillNotifyPop? {
      var w, q' := SomeNotified(q, t, Mpmc.KPopAsleep);
      QueueMoves(k, c, i, Mpmc.NotifyPop(t, w), q', Mirror(s, i, Mpmc.View(q')));
    } else {
      var w, q' := SomeNotified(q, t, Mpmc.KPushAsleep);
      QueueMoves(k, c, i, Mpmc.NotifyPush(t, w), q', Mirror(s, i, Mpmc.View(q')));
    }
  }

  lemma {:induction false} CloserMoves(k: Config, c: Concrete, i: nat, t: nat)
    requires WellFormed(k, c.system) && i < |c.queues| == |c.system.shards| && t in c.queues[i].threads
    requires c.queues[i].threads[t].WillWakePoppers? || c.queues[i].threads[t].WillWakePushers?
    ensures CanMove(k, c)
  {
    hide Traceable, CanMove, Mpmc.WakeAll;
    var s, q := c.system, c.queues[i];
    if q.threads[t].WillWakePoppers? {
      var q' := q.(threads := Mpmc.WakeAll(q.threads, Mpmc.KPopAsleep)[t := Mpmc.WillWakePushers]);
      QueueMoves(k, c, i, Mpmc.WakePoppers(t), q', Mirror(s, i, Mpmc.View(q')));
    } else {
      var q' := q.(threads := Mpmc.WakeAll(q.threads, Mpmc.KPushAsleep) - {t});
      QueueMoves(k, c, i, Mpmc.WakePushers(t), q', Mirror(s, i, Mpmc.View(q')));
    }
  }

  lemma {:induction false} SomeNotified(q: Queue, t: nat, kind: Mpmc.Kind) returns (w: nat, q': Queue)
    ensures Mpmc.Notifies(q, t, kind, w, q')
  {
    if Mpmc.Count(q.threads, kind) > 0 {
      assert Mpmc.Those(q.threads, kind) != {};
      w :| w in Mpmc.Those(q.threads, kind);
      q' := q.(threads := q.threads[w := Mpmc.Awaken(q.threads[w])] - {t});
    } else {
      w := 0;
      q' := q.(threads := q.threads - {t});
    }
  }

  /** A caller can move unless it is back or asleep on a full queue. */
  lemma {:induction false} CallerMoves(k: Config, c: Concrete, id: nat)
    requires Coupled(k, c) && WellFormed(k, c.system) && id in c.system.calls && !c.system.calls[id].caller.Returned?
    requires !CanMove(k, c)
    ensures var i := ShardIndex(k, c.system.calls[id].ticket.symbol);
            Tid(id) in c.queues[i].threads && c.queues[i].threads[Tid(id)].PushAsleep?
  {
    hide Inv, ShardIndex, Traceable, CanMove, Mpmc.Inv, AfterPush, Mpmc.AttemptPush, ThreadOk, Mpmc.EffectOfPush;
    var s := c.system;
    var call := s.calls[id];
    var i := ShardIndex(k, call.ticket.symbol);
    if call.caller.Entered? {
      LocalMoves(k, c, Count(id), Moved(s, call.(caller := Counted)).(pending := s.pending + 1));
    } else if call.caller.Refused? {
      LocalMoves(k, c, Uncount(id), Moved(s, GiveUp(call)).(pending := s.pending - 1));
    } else if call.caller.Rejecting? {
      var answers := call.answers + [Rejection(call.ticket.command)];
      LocalMoves(k, c, Reject(id), Moved(s, call.(caller := Returned(false), answers := answers)));
    } else if call.caller.Pushed? {
      PushedMoves(k, c, id);
    } else {
      CountedMoves(k, c, id, i);
    }
  }

  lemma {:induction false} PushedMoves(k: Config, c: Concrete, id: nat)
    requires Coupled(k, c) && WellFormed(k, c.system) && id in c.system.calls && c.system.calls[id].caller.Pushed?
    ensures CanMove(k, c)
  {
    hide Inv, ShardIndex, Traceable, CanMove, Mpmc.Inv;
    var s := c.system;
    if j :| 0 <= j < |c.queues| && Tid(id) in c.queues[j].threads {
      assert QueueOk(k, s, j, c.queues[j]) && ThreadOk(k, s, j, Tid(id), c.queues[j].threads[Tid(id)]);
      AwakeMoves(k, c, j, Tid(id));
    } else {
      LocalMoves(k, c, Submitted(id), Moved(s, s.calls[id].(caller := Returned(true))).(submitted := s.submitted + 1));
    }
  }

  lemma {:induction false} CountedMoves(k: Config, c: Concrete, id: nat, i: nat)
    requires Coupled(k, c) && WellFormed(k, c.system) && id in c.system.calls && c.system.calls[id].caller.Counted?
    requires i == ShardIndex(k, c.system.calls[id].ticket.symbol) && !CanMove(k, c)
    ensures Tid(id) in c.queues[i].threads && c.queues[i].threads[Tid(id)].PushAsleep?
  {
    hide Inv, ShardIndex, Traceable, CanMove, Mpmc.Inv, AfterPush, Mpmc.AttemptPush, Mpmc.EffectOfPush;
    var s, q, t := c.system, c.queues[i], Tid(id);
    var call := s.calls[id];
    if t in q.threads {
      assert QueueOk(k, s, i, q) && ThreadOk(k, s, i, t, q.threads[t]);
      if !q.threads[t].PushAsleep? {
        AwakeMoves(k, c, i, t);
      }
    } else if call.mode == TryEnqueue {
      var l := Mpmc.TryPush(t, call.ticket);
      var q' := Mpmc.AttemptPush(q, t, call.ticket, false);
      QueueMoves(k, c, i, l, q', AfterPush(s, i, Mpmc.View(q'), id, Mpmc.EffectOf(q, l)));
    } else {
      var l := Mpmc.Push(t, call.ticket);
      var q' := Mpmc.AttemptPush(q, t, call.ticket, true);
      QueueMoves(k, c, i, l, q', AfterPush(s, i, Mpmc.View(q'), id, Mpmc.EffectOf(q, l)));
    }
  }

  /** An owner can move unless it has left its loop or sleeps on its queue. */
  lemma {:induction false} OwnerMoves(k: Config, c: Concrete, i: nat)
    requires Coupled(k, c) && WellFormed(k, c.system) && i < |c.queues| && !CanMove(k, c)
    ensures !c.system.shards[i].busy
    ensures c.system.shards[i].exited || (OWNER in c.queues[i].threads && c.queues[i].threads[OWNER].PopAsleep?)
  {
    hide Inv, ShardIndex, CanMove, Mpmc.Inv, AfterPop, Mpmc.AttemptPop, Mpmc.EffectOfPop;
    var s, q := c.system, c.queues[i];
    assert QueueOk(k, s, i, q);
    if OWNER in q.threads {
      assert ThreadOk(k, s, i, OWNER, q.threads[OWNER]);
      if !q.threads[OWNER].PopAsleep? {
        AwakeMoves(k, c, i, OWNER);
      }
    } else if s.shards[i].busy {
      var s' := WorkMoves(k, s, i);
      LocalMoves(k, c, Work(i), s');
    } else if !s.shards[i].exited {
      var q' := Mpmc.AttemptPop(q, OWNER, true);
      PopEffectOk(k, c, i, OWNER, Mpmc.Pop(OWNER), q');
      QueueMoves(k, c, i, Mpmc.Pop(OWNER), q', AfterPop(s, i, Mpmc.View(q'), Mpmc.EffectOf(q, Mpmc.Pop(OWNER))));
    }
  }

  lemma {:induction false} OnlySleepers(k: Config, c: Concrete, i: nat)
    requires Coupled(k, c) && WellFormed(k, c.system) && i < |c.queues| && !CanMove(k, c)
    ensures Mpmc.Quiet(c.queues[i])
  {
    hide Coupled, WellFormed, CanMove;
    CoupledLength(k, c);
    forall t | t in c.queues[i].threads
      ensures var kind := Mpmc.KindOf(c.queues[i].threads[t]); kind == Mpmc.KPopAsleep || kind == Mpmc.KPushAsleep
    {
      if !c.queues[i].threads[t].PushAsleep? && !c.queues[i].threads[t].PopAsleep? {
        AwakeMoves(k, c, i, t);
      }
    }
  }

  /** When nobody can move, no queue holds a sleeping producer and every queue is
      drained. */
  lemma {:induction false} DrainedAtRest(k: Config, c: Concrete, i: nat)
    requires Coupled(k, c) && WellFormed(k, c.system) && i < |c.queues| && !CanMove(k, c)
    ensures c.system.shards[i].channel.Drained() && !c.system.shards[i].busy
    ensures forall t :: t in c.queues[i].threads ==> !c.queues[i].threads[t].PushAsleep?
  {
    hide Inv, CanMove, Traceable, ThreadsOk, Mpmc.NoLostWakeup;
    var q := c.queues[i];
    assert QueueOk(k, c.system, i, q);
    OnlySleepers(k, c, i);
    OwnerMoves(k, c, i);
    QuietQueue(q);
    ExitedIsDrained(k, c.system, i);
  }

  lemma {:induction false} ExitedIsDrained(k: Config, s: System, i: nat)
    requires Inv(k, s) && i < |s.shards|
    ensures s.shards[i].exited ==> s.shards[i].channel.closed && s.shards[i].channel.Drained()
  {
    hide Inv, ShardOk;
    ShardsSound(k, s, i);
  }

  lemma {:induction false} QuietQueue(q: Queue)
    requires Mpmc.Inv(q) && Mpmc.Quiet(q)
    ensures q.closed ==> q.threads == map[]
    ensures OWNER in q.threads && q.threads[OWNER].PopAsleep? ==> q.buffer == []
    ensures q.buffer == [] ==> forall t :: t in q.threads ==> !q.threads[t].PushAsleep?
    ensures q.buffer == [] <==> Mpmc.View(q).Drained()
  {
    hide Mpmc.NoLostWakeup, Mpmc.Count;
    Mpmc.QuietSleep(q);
    assert |q.accepted| == |q.delivered| + |q.buffer|;
    forall t | t in q.threads
      ensures Mpmc.Count(q.threads, Mpmc.KindOf(q.threads[t])) > 0
    {
      Mpmc.CountPositive(q.threads, t);
    }
  }

  // Shutdown, too, gets to its end.

  /** At rest the shutdown thread is in no queue. */
  lemma {:induction false} ShutdownOutside(k: Config, c: Concrete)
    requires Coupled(k, c) && WellFormed(k, c.system) && !CanMove(k, c)
    ensures Outside(c.queues, SHUTDOWN)
  {
    hide Inv, ShardIndex, Traceable, CanMove, Mpmc.Inv;
    forall i | 0 <= i < |c.queues|
      ensures SHUTDOWN !in c.queues[i].threads
    {
      if SHUTDOWN in c.queues[i].threads {
        ShutdownIsCloser(k, c, i);
        AwakeMoves(k, c, i, SHUTDOWN);
      }
    }
  }

  lemma {:induction false} ShutdownIsCloser(k: Config, c: Concrete, i: nat)
    requires Coupled(k, c) && WellFormed(k, c.system) && i < |c.queues| && SHUTDOWN in c.queues[i].threads
    ensures c.queues[i].threads[SHUTDOWN].WillWakePoppers? || c.queues[i].threads[SHUTDOWN].WillWakePushers?
  {
    hide Inv, ShardIndex, Traceable, Mpmc.Inv;
    assert QueueOk(k, c.system, i, c.queues[i]);
    assert ThreadOk(k, c.system, i, SHUTDOWN, c.queues[i].threads[SHUTDOWN]);
  }

  /** At rest a shutdown that began has closed every queue. */
  lemma {:induction false} ClosedAtRest(k: Config, c: Concrete)
    requires Coupled(k, c) && WellFormed(k, c.system) && !CanMove(k, c) && !c.system.accepting
    ensures c.system.closing == |c.system.shards|
  {
    hide Inv, ShardIndex, Traceable, CanMove, QueueOk;
    var s := c.system;
    ShutdownOutside(k, c);
    ShutdownNow(k, s);
    if s.closing < |s.shards| {
      var i := s.closing;
      var q := c.queues[i];
      var q' := q.(closed := true, threads := q.threads[SHUTDOWN := Mpmc.WillWakePoppers]);
      QueueMoves(k, c, i, Mpmc.Close(SHUTDOWN), q', Mirror(s, i, Mpmc.View(q')).(closing := i + 1));
    }
  }

  /** Then every owner has left its loop. */
  lemma {:induction false} ExitedAtRest(k: Config, c: Concrete, i: nat)
    requires Coupled(k, c) && WellFormed(k, c.system) && !CanMove(k, c) && !c.system.accepting && i < |c.queues|
    ensures c.system.shards[i].exited
  {
    hide Inv, ShardIndex, Traceable, CanMove, Mpmc.Inv, ThreadsOk;
    assert QueueOk(k, c.system, i, c.queues[i]);
    ClosedAtRest(k, c);
    ShutdownNow(k, c.system);
    OnlySleepers(k, c, i);
    OwnerMoves(k, c, i);
    QuietQueue(c.queues[i]);
  }

  /** Then shutdown has joined them all. */
  lemma {:induction false} JoinedAtRest(k: Config, c: Concrete)
    requires Coupled(k, c) && WellFormed(k, c.system) && !CanMove(k, c) && !c.system.accepting
    ensures c.system.joined == |c.system.shards|
  {
    hide Inv, ShardIndex, Traceable, CanMove, QueueOk;
    var s := c.system;
    ShutdownOutside(k, c);
    ClosedAtRest(k, c);
    ShutdownNow(k, s);
    if s.joined < |s.shards| {
      ExitedAtRest(k, c, s.joined);
      LocalMoves(k, c, Join, s.(joined := s.joined + 1));
    }
  }

  /** Every call has returned, every accepted command is finished, nothing is pending,
      and a shutdown that began is over. */
  ghost predicate AtRest(s: System) {
    && s.pending == 0 && AllDone(s)
    && (forall id :: id in s.calls ==> s.calls[id].caller.Returned?)
    && (!s.accepting ==> s.joined == |s.shards|)
  }

  /** No interleaving deadlocks: in every reachable state either some thread can move
      on its own, or callers, owners and shutdown have all got to the end of what they
      were doing. */
  lemma {:induction false} NoDeadlock(k: Config, run: seq<Concrete>, moves: seq<Move>, n: nat)
    requires ConcreteExecution(k, run, moves) && n < |run|
    ensures var s := run[n].system;
            WellFormed(k, s) && |run[n].queues| == |s.shards| && (CanMove(k, run[n]) || AtRest(s))
  {
    hide ConcreteExecution, Coupled, CanMove, Inv, WellFormed, AllDone;
    AlwaysCoupled(k, run, moves, n);
    var c := run[n];
    CoupledLength(k, c);
    if !CanMove(k, c) {
      forall id | id in c.system.calls
        ensures c.system.calls[id].caller.Returned? && !In(c.system.calls[id], InFlight)
      {
        RestingCall(k, c, id);
      }
      NothingInFlight(k, c.system);
      if !c.system.accepting {
        JoinedAtRest(k, c);
      }
    }
  }

  lemma {:induction false} RestingCall(k: Config, c: Concrete, id: nat)
    requires Coupled(k, c) && WellFormed(k, c.system) && id in c.system.calls && !CanMove(k, c)
    ensures c.system.calls[id].caller.Returned? && !In(c.system.calls[id], InFlight)
  {
    hide Coupled, CanMove, Inv, ShardIndex, Traceable;
    CoupledLength(k, c);
    var s := c.system;
    var i := ShardIndex(k, s.calls[id].ticket.symbol);
    DrainedAtRest(k, c, i);
    if !s.calls[id].caller.Returned? {
      CallerMoves(k, c, id);
      assert false;
    }
    DrainedCall(k, s, id);
  }
}
