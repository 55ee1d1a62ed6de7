/** The bounded mutex-and-condition-variable queue under any interleaving.

    A critical section is one step, since the mutex makes it so. Waiting releases
    the mutex and sleeps in the same step; a notification is a step of its own,
    after the mutex was released; sleepers may also wake for no reason. */
module Mpmc {
  import opened Channels

  type Tid = nat

  /** A thread inside a queue operation. Threads that are not inside one are
      not in the map. */
  datatype Thread<T> =
    | PushAsleep(item: T)   // waiting on not_full_, not yet notified
    | PushAwake(item: T)    // notified, about to take the mutex and look again
    | PopAsleep             // waiting on not_empty_
    | PopAwake
    | WillNotifyPop         // pushed and unlocked, before not_empty_.notify_one()
    | WillNotifyPush        // popped and unlocked, before not_full_.notify_one()
    | WillWakePoppers       // inside close(), before not_empty_.notify_all()
    | WillWakePushers       // inside close(), before not_full_.notify_all()

  datatype Kind =
    | KPushAsleep | KPushAwake | KPopAsleep | KPopAwake
    | KNotifyPop | KNotifyPush | KWakePoppers | KWakePushers

  function KindOf<T>(t: Thread<T>): Kind {
    match t
    case PushAsleep(_) => KPushAsleep
    case PushAwake(_) => KPushAwake
    case PopAsleep => KPopAsleep
    case PopAwake => KPopAwake
    case WillNotifyPop => KNotifyPop
    case WillNotifyPush => KNotifyPush
    case WillWakePoppers => KWakePoppers
    case WillWakePushers => KWakePushers
  }

  /** `accepted` and `delivered` record all items pushed and popped so far. */
  datatype Queue<T> = Queue(capacity: nat, buffer: seq<T>, closed: bool, highWatermark: nat,
                            threads: map<Tid, Thread<T>>, accepted: seq<T>, delivered: seq<T>)

  function Max(a: nat, b: nat): nat { if a >= b then a else b }

  /** The body of push once the mutex is held; `blocking` is false for try_push. */
  function AttemptPush<T>(s: Queue<T>, t: Tid, item: T, blocking: bool): Queue<T> {
    if s.closed then s.(threads := s.threads - {t})
    else if |s.buffer| < s.capacity then
      s.(buffer := s.buffer + [item], accepted := s.accepted + [item],
         highWatermark := Max(s.highWatermark, |s.buffer| + 1),
         threads := s.threads[t := WillNotifyPop])
    else if blocking then s.(threads := s.threads[t := PushAsleep(item)])
    else s.(threads := s.threads - {t})
  }

  function AttemptPop<T>(s: Queue<T>, t: Tid, blocking: bool): Queue<T> {
    if s.buffer != [] then
      s.(buffer := s.buffer[1..], delivered := s.delivered + [s.buffer[0]],
         threads := s.threads[t := WillNotifyPush])
    else if s.closed || !blocking then s.(threads := s.threads - {t})
    else s.(threads := s.threads[t := PopAsleep])
  }

  function Awaken<T>(t: Thread<T>): Thread<T> {
    match t
    case PushAsleep(item) => PushAwake(item)
    case PopAsleep => PopAwake
    case _ => t
  }

  function WakeAll<T>(threads: map<Tid, Thread<T>>, kind: Kind): map<Tid, Thread<T>> {
    map t | t in threads :: if KindOf(threads[t]) == kind then Awaken(threads[t]) else threads[t]
  }

  datatype Label<T> =
    | Push(t: Tid, item: T) | TryPush(t: Tid, item: T) | RetryPush(t: Tid)
    | Pop(t: Tid) | TryPop(t: Tid) | RetryPop(t: Tid)
    | NotifyPop(t: Tid, woken: Tid) | NotifyPush(t: Tid, woken: Tid)
    | Close(t: Tid) | WakePoppers(t: Tid) | WakePushers(t: Tid)
    | Spurious(t: Tid)

  predicate Is<T>(s: Queue<T>, t: Tid, kind: Kind) { t in s.threads && KindOf(s.threads[t]) == kind }

  /** `notify_one` wakes one sleeper of the given kind if there is one. */
  ghost predicate Notifies<T>(s: Queue<T>, t: Tid, sleeping: Kind, woken: Tid, s': Queue<T>) {
    if Count(s.threads, sleeping) > 0
    then Is(s, woken, sleeping) && s' == s.(threads := s.threads[woken := Awaken(s.threads[woken])] - {t})
    else s' == s.(threads := s.threads - {t})
  }

  ghost predicate Step<T>(s: Queue<T>, l: Label<T>, s': Queue<T>) {
    match l
    case Push(t, item) => t !in s.threads && s' == AttemptPush(s, t, item, true)
    case TryPush(t, item) => t !in s.threads && s' == AttemptPush(s, t, item, false)
    case RetryPush(t) => Is(s, t, KPushAwake) && s' == AttemptPush(s, t, s.threads[t].item, true)
    case Pop(t) => t !in s.threads && s' == AttemptPop(s, t, true)
    case TryPop(t) => t !in s.threads && s' == AttemptPop(s, t, false)
    case RetryPop(t) => Is(s, t, KPopAwake) && s' == AttemptPop(s, t, true)
    case NotifyPop(t, w) => Is(s, t, KNotifyPop) && Notifies(s, t, KPopAsleep, w, s')
    case NotifyPush(t, w) => Is(s, t, KNotifyPush) && Notifies(s, t, KPushAsleep, w, s')
    case Close(t) => t !in s.threads && s' == s.(closed := true, threads := s.threads[t := WillWakePoppers])
    case WakePoppers(t) =>
      Is(s, t, KWakePoppers) && s' == s.(threads := WakeAll(s.threads, KPopAsleep)[t := WillWakePushers])
    case WakePushers(t) =>
      Is(s, t, KWakePushers) && s' == s.(threads := WakeAll(s.threads, KPushAsleep) - {t})
    case Spurious(t) =>
      (Is(s, t, KPopAsleep) || Is(s, t, KPushAsleep)) && s' == s.(threads := s.threads[t := Awaken(s.threads[t])])
  }

  ghost predicate Init<T>(s: Queue<T>) {
    s.capacity > 0 && s == Queue(s.capacity, [], false, 0, map[], [], [])
  }

  // ---------------------------------------------------------------------
  // Counting threads

  ghost function Those<T>(threads: map<Tid, Thread<T>>, kind: Kind): set<Tid> {
    set t | t in threads && KindOf(threads[t]) == kind
  }

  ghost function Count<T>(threads: map<Tid, Thread<T>>, kind: Kind): nat { |Those(threads, kind)| }

  ghost function One(b: bool): nat { if b then 1 else 0 }

  lemma {:induction false} CountUpdate<T>(m: map<Tid, Thread<T>>, t: Tid, v: Thread<T>, kind: Kind)
    ensures Count(m[t := v], kind)
         == Count(m, kind) - One(t in m && KindOf(m[t]) == kind) + One(KindOf(v) == kind)
  {
    var before, after := Those(m, kind), Those(m[t := v], kind);
    assert after == (before - {t}) + (if KindOf(v) == kind then {t} else {});
  }

  lemma {:induction false} CountRemove<T>(m: map<Tid, Thread<T>>, t: Tid, kind: Kind)
    ensures Count(m - {t}, kind) == Count(m, kind) - One(t in m && KindOf(m[t]) == kind)
  {
    assert Those(m - {t}, kind) == Those(m, kind) - {t};
  }

  lemma {:induction false} CountPositive<T>(m: map<Tid, Thread<T>>, t: Tid)
    requires t in m
    ensures Count(m, KindOf(m[t])) > 0
  {
    assert t in Those(m, KindOf(m[t]));
  }

  lemma {:induction false} EmptyIffNoCount<T>(m: map<Tid, Thread<T>>)
    ensures m == map[] <==> forall kind :: Count(m, kind) == 0
  {
    if m.Keys != {} {
      var t :| t in m.Keys;
      CountPositive(m, t);
    } else {
      assert forall kind :: Those(m, kind) == {};
    }
  }

  lemma {:induction false} WakeAllCounts<T>(m: map<Tid, Thread<T>>, kind: Kind)
    requires kind == KPopAsleep || kind == KPushAsleep
    ensures Count(WakeAll(m, kind), kind) == 0
    ensures Count(WakeAll(m, kind), KWakePoppers) == Count(m, KWakePoppers)
    ensures Count(WakeAll(m, kind), KWakePushers) == Count(m, KWakePushers)
    ensures kind != KPopAsleep ==> Count(WakeAll(m, kind), KPopAsleep) == Count(m, KPopAsleep)
  {
    assert Those(WakeAll(m, kind), kind) == {};
    assert Those(WakeAll(m, kind), KWakePoppers) == Those(m, KWakePoppers);
    assert Those(WakeAll(m, kind), KWakePushers) == Those(m, KWakePushers);
    if kind != KPopAsleep {
      assert Those(WakeAll(m, kind), KPopAsleep) == Those(m, KPopAsleep);
    }
  }

  // ---------------------------------------------------------------------
  // The invariant

  /** FIFO and bounds. */
  ghost predicate Fifo<T>(s: Queue<T>) {
    && s.accepted == s.delivered + s.buffer
    && |s.buffer| <= s.highWatermark <= s.capacity && s.capacity > 0
  }

  /** While open, sleepers are outnumbered by what is on its way to wake them or
      to take the items they wait for; once closed, sleepers await a closer. */
  ghost predicate NoLostWakeup<T>(s: Queue<T>)
    requires |s.buffer| <= s.capacity
  {
    var m := s.threads;
    if !s.closed then
      && (Count(m, KPopAsleep) > 0 ==> |s.buffer| <= Count(m, KNotifyPop) + Count(m, KPopAwake))
      && (Count(m, KPushAsleep) > 0 ==> s.capacity - |s.buffer| <= Count(m, KNotifyPush) + Count(m, KPushAwake))
      && Count(m, KWakePoppers) == 0 && Count(m, KWakePushers) == 0
    else
      && (Count(m, KPopAsleep) > 0 ==> Count(m, KWakePoppers) > 0)
      && (Count(m, KPushAsleep) > 0 ==> Count(m, KWakePoppers) + Count(m, KWakePushers) > 0)
  }

  ghost predicate Inv<T>(s: Queue<T>) { Fifo(s) && NoLostWakeup(s) }

  /** All the counts an update of one thread changes. */
  lemma {:induction false} Recount<T>(m: map<Tid, Thread<T>>, t: Tid, v: Thread<T>)
    ensures forall kind :: Count(m[t := v], kind)
              == Count(m, kind) - One(t in m && KindOf(m[t]) == kind) + One(KindOf(v) == kind)
    ensures forall kind :: Count(m - {t}, kind) == Count(m, kind) - One(t in m && KindOf(m[t]) == kind)
  {
    forall kind
      ensures Count(m[t := v], kind) == Count(m, kind) - One(t in m && KindOf(m[t]) == kind) + One(KindOf(v) == kind)
      ensures Count(m - {t}, kind) == Count(m, kind) - One(t in m && KindOf(m[t]) == kind)
    {
      CountUpdate(m, t, v, kind);
      CountRemove(m, t, kind);
    }
  }

  lemma {:induction false} PushKeeps<T>(s: Queue<T>, t: Tid, item: T, blocking: bool)
    requires Inv(s) && (t in s.threads ==> Is(s, t, KPushAwake))
    ensures Inv(AttemptPush(s, t, item, blocking))
  {
    hide Count;
    Recount(s.threads, t, WillNotifyPop);
    Recount(s.threads, t, PushAsleep(item));
    assert s.delivered + (s.buffer + [item]) == s.accepted + [item];
  }

  lemma {:induction false} PopKeeps<T>(s: Queue<T>, t: Tid, blocking: bool)
    requires Inv(s) && (t in s.threads ==> Is(s, t, KPopAwake))
    ensures Inv(AttemptPop(s, t, blocking))
  {
    hide Count;
    Recount(s.threads, t, WillNotifyPush);
    Recount(s.threads, t, PopAsleep);
    if s.buffer != [] {
      assert s.buffer == [s.buffer[0]] + s.buffer[1..];
      assert s.delivered + [s.buffer[0]] + s.buffer[1..] == s.delivered + s.buffer;
    }
  }

  lemma {:induction false} NotifyKeeps<T>(s: Queue<T>, t: Tid, sleeping: Kind, woken: Tid, s': Queue<T>)
    requires Inv(s) && Notifies(s, t, sleeping, woken, s')
    requires (sleeping == KPopAsleep && Is(s, t, KNotifyPop)) || (sleeping == KPushAsleep && Is(s, t, KNotifyPush))
    ensures Inv(s')
  {
    hide Count;
    if Count(s.threads, sleeping) > 0 {
      Recount(s.threads, woken, Awaken(s.threads[woken]));
      var m := s.threads[woken := Awaken(s.threads[woken])];
      Recount(m, t, m[t]);
    } else {
      Recount(s.threads, t, s.threads[t]);
    }
  }

  lemma {:induction false} CloseKeeps<T>(s: Queue<T>, t: Tid)
    requires Inv(s) && t !in s.threads
    ensures Inv(s.(closed := true, threads := s.threads[t := WillWakePoppers]))
  {
    hide Count;
    Recount(s.threads, t, WillWakePoppers);
  }

  /** Closers only exist once the queue is closed. */
  lemma {:induction false} ClosersClosed<T>(s: Queue<T>, t: Tid)
    requires Inv(s) && (Is(s, t, KWakePoppers) || Is(s, t, KWakePushers))
    ensures s.closed
  {
    hide Count;
    CountPositive(s.threads, t);
  }

  lemma {:induction false} WakePoppersKeeps<T>(s: Queue<T>, t: Tid)
    requires Inv(s) && Is(s, t, KWakePoppers)
    ensures Inv(s.(threads := WakeAll(s.threads, KPopAsleep)[t := WillWakePushers]))
  {
    hide Count;
    ClosersClosed(s, t);
    WakeAllCounts(s.threads, KPopAsleep);
    var m := WakeAll(s.threads, KPopAsleep);
    Recount(m, t, WillWakePushers);
  }

  lemma {:induction false} WakePushersKeeps<T>(s: Queue<T>, t: Tid)
    requires Inv(s) && Is(s, t, KWakePushers)
    ensures Inv(s.(threads := WakeAll(s.threads, KPushAsleep) - {t}))
  {
    hide Count;
    ClosersClosed(s, t);
    WakeAllCounts(s.threads, KPushAsleep);
    var m := WakeAll(s.threads, KPushAsleep);
    Recount(m, t, m[t]);
  }

  lemma {:induction false} SpuriousKeeps<T>(s: Queue<T>, t: Tid)
    requires Inv(s) && (Is(s, t, KPopAsleep) || Is(s, t, KPushAsleep))
    ensures Inv(s.(threads := s.threads[t := Awaken(s.threads[t])]))
  {
    hide Count;
    Recount(s.threads, t, Awaken(s.threads[t]));
  }

  lemma {:induction false} StepKeepsInv<T>(s: Queue<T>, l: Label<T>, s': Queue<T>)
    requires Inv(s) && Step(s, l, s')
    ensures Inv(s')
  {
    hide Inv, AttemptPush, AttemptPop, Notifies, WakeAll;
    match l
    case Push(t, item) => PushKeeps(s, t, item, true);
    case TryPush(t, item) => PushKeeps(s, t, item, false);
    case RetryPush(t) => PushKeeps(s, t, s.threads[t].item, true);
    case Pop(t) => PopKeeps(s, t, true);
    case TryPop(t) => PopKeeps(s, t, false);
    case RetryPop(t) => PopKeeps(s, t, true);
    case NotifyPop(t, w) => NotifyKeeps(s, t, KPopAsleep, w, s');
    case NotifyPush(t, w) => NotifyKeeps(s, t, KPushAsleep, w, s');
    case Close(t) => CloseKeeps(s, t);
    case WakePoppers(t) => WakePoppersKeeps(s, t);
    case WakePushers(t) => WakePushersKeeps(s, t);
    case Spurious(t) => SpuriousKeeps(s, t);
  }

  // ---------------------------------------------------------------------
  // Whole runs

  ghost predicate Execution<T>(run: seq<Queue<T>>, labels: seq<Label<T>>) {
    && |run| == |labels| + 1 && Init(run[0])
    && forall i :: 0 <= i < |labels| ==> Step(run[i], labels[i], run[i + 1])
  }

  lemma {:induction false} InitOk<T>(s: Queue<T>)
    requires Init(s)
    ensures Inv(s)
  {
    assert forall kind :: Those(s.threads, kind) == {};
  }

  lemma {:induction false} AlwaysInv<T>(run: seq<Queue<T>>, labels: seq<Label<T>>, n: nat)
    requires Execution(run, labels) && n < |run|
    ensures Inv(run[n])
  {
    hide Step, Inv, Init;
    if n == 0 {
      InitOk(run[0]);
    } else {
      AlwaysInv(run, labels, n - 1);
      StepKeepsInv(run[n - 1], labels[n - 1], run[n]);
    }
  }

  /** No thread is on its way to look at the queue or to notify another. */
  ghost predicate Quiet<T>(s: Queue<T>) {
    forall t :: t in s.threads ==> KindOf(s.threads[t]) == KPopAsleep || KindOf(s.threads[t]) == KPushAsleep
  }

  /** Consumers sleep only on an empty queue, producers only on a full one, and
      nobody sleeps on a closed one. */
  ghost predicate SleepJustified<T>(s: Queue<T>) {
    if s.closed then s.threads == map[]
    else && (Count(s.threads, KPopAsleep) > 0 ==> s.buffer == [])
         && (Count(s.threads, KPushAsleep) > 0 ==> |s.buffer| == s.capacity)
  }

  lemma {:induction false} QuietSleep<T>(s: Queue<T>)
    requires Inv(s) && Quiet(s)
    ensures SleepJustified(s)
  {
    assert forall kind :: kind != KPopAsleep && kind != KPushAsleep ==> Those(s.threads, kind) == {};
    EmptyIffNoCount(s.threads);
  }

  /** No run strands a sleeper: when only sleepers remain, their sleep is justified. */
  lemma {:induction false} NobodyStranded<T>(run: seq<Queue<T>>, labels: seq<Label<T>>, n: nat)
    requires Execution(run, labels) && n < |run| && Quiet(run[n])
    ensures SleepJustified(run[n])
  {
    hide Execution, Inv, Quiet, SleepJustified;
    AlwaysInv(run, labels, n);
    QuietSleep(run[n]);
  }

  /** Items come out once each, in the order they were accepted, and the queue
      never exceeds its watermark nor the watermark its capacity. */
  lemma {:induction false} AlwaysFifo<T>(run: seq<Queue<T>>, labels: seq<Label<T>>, n: nat)
    requires Execution(run, labels) && n < |run|
    ensures Fifo(run[n]) && run[n].delivered <= run[n].accepted
  {
    hide Execution, NoLostWakeup;
    AlwaysInv(run, labels, n);
  }

  lemma {:induction false} StepPeaks<T>(s: Queue<T>, l: Label<T>, s': Queue<T>)
    requires Fifo(s) && Step(s, l, s')
    ensures s'.highWatermark == Max(s.highWatermark, |s'.buffer|)
  {
    hide Count, Those, KindOf, WakeAll;
  }

  /** The watermark is the largest size the queue ever had, and was that size once. */
  lemma {:induction false} WatermarkIsPeak<T>(run: seq<Queue<T>>, labels: seq<Label<T>>, n: nat) returns (m: nat)
    requires Execution(run, labels) && n < |run|
    ensures m <= n && |run[m].buffer| == run[n].highWatermark
    ensures forall i :: 0 <= i <= n ==> |run[i].buffer| <= run[n].highWatermark
  {
    hide Step;
    if n == 0 {
      m := 0;
    } else {
      m := WatermarkIsPeak(run, labels, n - 1);
      AlwaysFifo(run, labels, n - 1);
      StepPeaks(run[n - 1], labels[n - 1], run[n]);
      if run[n].highWatermark != run[n - 1].highWatermark {
        m := n;
      }
    }
  }

  lemma {:induction false} StepFrozen<T>(s: Queue<T>, l: Label<T>, s': Queue<T>)
    requires s.closed && Step(s, l, s')
    ensures s'.closed && s'.accepted == s.accepted
  {
  }

  /** Nothing is accepted after close, whoever pushes. */
  lemma {:induction false} ClosedFreezes<T>(run: seq<Queue<T>>, labels: seq<Label<T>>, m: nat, n: nat)
    requires Execution(run, labels) && m <= n < |run| && run[m].closed
    ensures run[n].closed && run[n].accepted == run[m].accepted
  {
    hide Step;
    if m < n {
      ClosedFreezes(run, labels, m, n - 1);
      StepFrozen(run[n - 1], labels[n - 1], run[n]);
    }
  }

  /** The calling thread leaves the operation in this step without having pushed or
      popped anything. */
  ghost predicate Fails<T>(l: Label<T>, s': Queue<T>) {
    (l.Push? || l.TryPush? || l.RetryPush? || l.Pop? || l.TryPop? || l.RetryPop?) && l.t !in s'.threads
  }

  /** When each operation fails: a push exactly on a closed queue, a push that does not
      wait also on a full one, a pop exactly on a closed and empty queue, and a pop that
      does not wait on an empty one. */
  lemma {:induction false} FailsExactlyWhen<T>(s: Queue<T>, l: Label<T>, s': Queue<T>)
    requires Step(s, l, s')
    ensures l.Push? || l.RetryPush? ==> (Fails(l, s') <==> s.closed)
    ensures l.TryPush? ==> (Fails(l, s') <==> s.closed || |s.buffer| >= s.capacity)
    ensures l.Pop? || l.RetryPop? ==> (Fails(l, s') <==> s.closed && s.buffer == [])
    ensures l.TryPop? ==> (Fails(l, s') <==> s.buffer == [])
    ensures Fails(l, s') ==> s'.accepted == s.accepted && s'.delivered == s.delivered
  {
  }

  /** When pop fails, every item ever accepted, then or later, was delivered. */
  lemma {:induction false} PopFailsOnlyWhenDrained<T>(run: seq<Queue<T>>, labels: seq<Label<T>>, m: nat, n: nat)
    requires Execution(run, labels) && m < |labels| && m <= n < |run|
    requires (labels[m].Pop? || labels[m].RetryPop?) && Fails(labels[m], run[m + 1])
    ensures run[m].closed && run[m].delivered == run[m].accepted == run[n].accepted
  {
    hide NoLostWakeup;
    FailsExactlyWhen(run[m], labels[m], run[m + 1]);
    AlwaysInv(run, labels, m);
    ClosedFreezes(run, labels, m, n);
    assert run[m].delivered + [] == run[m].delivered;
  }

  // ---------------------------------------------------------------------
  // The queue is a channel

  ghost function View<T>(s: Queue<T>): Channel<T> {
    Channel(s.capacity, s.accepted, |s.delivered|, s.closed)
  }

  /** What the caller of the step observes. */
  function EffectOfPush<T>(s: Queue<T>, item: T, blocking: bool): Effect<T> {
    if s.closed then PushRefused(blocking)
    else if |s.buffer| < s.capacity then Inserted(item)
    else if blocking then Silent
    else PushRefused(blocking)
  }

  function EffectOfPop<T>(s: Queue<T>, blocking: bool): Effect<T> {
    if s.buffer != [] then Taken(s.buffer[0])
    else if s.closed || !blocking then PopRefused(blocking)
    else Silent
  }

  ghost function EffectOf<T>(s: Queue<T>, l: Label<T>): Effect<T> {
    match l
    case Push(_, item) => EffectOfPush(s, item, true)
    case TryPush(_, item) => EffectOfPush(s, item, false)
    case RetryPush(t) => if Is(s, t, KPushAwake) then EffectOfPush(s, s.threads[t].item, true) else Silent
    case Pop(_) => EffectOfPop(s, true)
    case TryPop(_) => EffectOfPop(s, false)
    case RetryPop(_) => EffectOfPop(s, true)
    case Close(_) => Closing
    case _ => Silent
  }

  /** Every step of the locking queue is one instantaneous channel event. */
  lemma {:induction false} StepRefines<T>(s: Queue<T>, l: Label<T>, s': Queue<T>)
    requires Fifo(s) && Step(s, l, s')
    ensures Happens(View(s), EffectOf(s, l), View(s'))
  {
    if s.buffer != [] {
      assert (s.delivered + s.buffer)[|s.delivered|] == s.buffer[0];
    }
  }

  lemma {:induction false} RunRefines<T>(run: seq<Queue<T>>, labels: seq<Label<T>>, n: nat)
    requires Execution(run, labels) && n < |labels|
    ensures Happens(View(run[n]), EffectOf(run[n], labels[n]), View(run[n + 1]))
  {
    hide Step, EffectOf, Happens;
    AlwaysFifo(run, labels, n);
    StepRefines(run[n], labels[n], run[n + 1]);
  }
}
