/** `waitUntilIdle` beside the running engine.

    The waiter tests the engine's pending count under its own mutex and then sleeps.
    finishOnePending lowers the count and notifies without that mutex, so both can
    fall between the test and the sleep. */
module PartitionedWait {
  import opened Partitioned
  import opened PartitionedLaws
  import opened Channels

  datatype Waiter =
    | Testing    // holds the mutex, about to read the count
    | Tested     // saw a non-zero count, about to sleep
    | Asleep
    | Away       // not in the call, or back from it

  /** A thread of the engine: the owner of a shard, or the caller of an ingress call. */
  datatype Actor = OwnerOf(shard: nat) | CallerOf(id: nat)

  /** One waiting thread. The `notifying` ones lowered the count to zero and are about
      to notify; `announced` says that shutdown has sent its last notification. */
  datatype Joint = Joint(system: System, waiter: Waiter, notifying: set<Actor>, announced: bool)

  datatype Move =
    | Engine(l: Label)   // a step of the engine
    | CallWait           // somebody calls waitUntilIdle
    | Test | Sleep
    | Notify(actor: Actor)
    | Announce           // the notification at the end of shutdown
    | Wake               // a wakeup for no reason

  /** Who takes the step. Shutdown's steps and new calls belong to neither. */
  function ActorOf(l: Label): set<Actor> {
    match l
    case Pop(i) => {OwnerOf(i)}
    case Work(i) => {OwnerOf(i)}
    case Exit(i) => {OwnerOf(i)}
    case Begin(_, _, _, _) => {}
    case StopAccepting => {}
    case CloseQueue => {}
    case Join => {}
    case _ => {CallerOf(l.id)}
  }

  function Woken(w: Waiter): Waiter { if w == Asleep then Testing else w }

  /** A thread that is about to notify does so before anything else. */
  ghost predicate JointStep(k: Config, j: Joint, m: Move, j': Joint) {
    match m
    case Engine(l) =>
      && WellFormed(k, j.system) && Step(k, j.system, l, j'.system) && ActorOf(l) !! j.notifying
      && j' == j.(system := j'.system, notifying := Crossing(j, l, j'.system))
    case CallWait => j.waiter == Away && j' == j.(waiter := Testing)
    case Test => j.waiter == Testing && j' == j.(waiter := if j.system.pending == 0 then Away else Tested)
    case Sleep => j.waiter == Tested && j' == j.(waiter := Asleep)
    case Notify(x) => x in j.notifying && j' == j.(notifying := j.notifying - {x}, waiter := Woken(j.waiter))
    case Announce =>
      && !j.system.accepting && j.system.joined == |j.system.shards| && !j.announced
      && j' == j.(announced := true, waiter := Woken(j.waiter))
    case Wake => j.waiter == Asleep && j' == j.(waiter := Testing)
  }

  /** Lowering the count from one to zero obliges the thread to notify. */
  ghost function Crossing(j: Joint, l: Label, s': System): set<Actor> {
    if j.system.pending == 1 && s'.pending == 0 then j.notifying + ActorOf(l) else j.notifying
  }

  ghost predicate JointExecution(k: Config, run: seq<Joint>, moves: seq<Move>) {
    && |run| == |moves| + 1 && Init(k, run[0].system) && run[0] == Joint(run[0].system, Away, {}, false)
    && forall n :: 0 <= n < |moves| ==> JointStep(k, run[n], moves[n], run[n + 1])
  }

  lemma {:induction false} JointInv(k: Config, run: seq<Joint>, moves: seq<Move>, n: nat)
    requires JointExecution(k, run, moves) && n < |run|
    ensures Inv(k, run[n].system)
  {
    hide Inv, WellFormed, Step, Init;
    if n == 0 {
      InitOk(k, run[0].system);
    } else {
      JointInv(k, run, moves, n - 1);
      assert JointStep(k, run[n - 1], moves[n - 1], run[n]);
      if moves[n - 1].Engine? {
        StepKeepsInv(k, run[n - 1].system, moves[n - 1].l, run[n].system);
      }
    }
  }

  // ---------------------------------------------------------------------
  // What a returned wait promises

  /** The moves from `m` on belong to one call of waitUntilIdle. */
  ghost predicate OneCall(moves: seq<Move>, m: nat, n: nat) {
    m < n <= |moves| && moves[m].CallWait? && forall i :: m < i < n ==> !moves[i].CallWait?
  }

  /** A wait that returned did so at a test that read zero, and at that test every
      accepted command was done. The count may have risen since. */
  lemma {:induction false} ReturnsAtZero(k: Config, run: seq<Joint>, moves: seq<Move>, m: nat, n: nat) returns (t: nat)
    requires JointExecution(k, run, moves) && OneCall(moves, m, n) && run[n].waiter == Away
    ensures m < t < n && run[t].system.pending == 0 && AllDone(run[t].system)
    decreases n
  {
    hide Inv, Step, WellFormed, Init, AllDone;
    assert JointStep(k, run[n - 1], moves[n - 1], run[n]);
    if run[n - 1].waiter == Away && n - 1 > m {
      t := ReturnsAtZero(k, run, moves, m, n - 1);
    } else {
      t := n - 1;
      JointInv(k, run, moves, t);
      ZeroMeansDone(k, run[t].system);
    }
  }

  /** Its return value and its completion, once there, stay. */
  ghost predicate Stays(c: Call, c': Call) {
    && (c.caller == Returned(true) ==> c'.caller == Returned(true))
    && (c.owner.Finished? ==> c'.owner.Finished?)
  }

  lemma {:induction false} CallerStays(k: Config, s: System, l: Label, s': System, id: nat)
    requires Inv(k, s) && WellFormed(k, s) && Step(k, s, l, s') && id in s.calls && (CallerLabel(l) || l.Push?)
    ensures id in s'.calls && Stays(s.calls[id], s'.calls[id])
  {
    hide Inv, ShardIndex, Happens, Answers, Traceable;
    CallTicket(k, s, l.id);
  }

  lemma {:induction false} PopStays(k: Config, s: System, i: nat, s': System, id: nat)
    requires Inv(k, s) && WellFormed(k, s) && Step(k, s, Pop(i), s') && id in s.calls
    ensures id in s'.calls && Stays(s.calls[id], s'.calls[id])
  {
    hide Inv, ShardIndex, Happens, CallOk;
    EntryCall(k, s, i, s.shards[i].channel.popped);
  }

  lemma {:induction false} WorkStays(k: Config, s: System, i: nat, s': System, id: nat)
    requires Inv(k, s) && WellFormed(k, s) && Step(k, s, Work(i), s') && id in s.calls
    ensures id in s'.calls && Stays(s.calls[id], s'.calls[id])
  {
    hide Inv, ShardIndex, WorkStep, CallOk;
    EntryCall(k, s, i, s.shards[i].channel.popped - 1);
    var c := s.calls[s.shards[i].Hand().id];
    WorkShape(k, s, i, c, s');
    WorkCallStays(k, s.shards[i], c);
  }

  lemma {:induction false} WorkCallStays(k: Config, sh: Shard, c: Call)
    requires c.owner.InHand()
    ensures Stays(c, WorkCall(k, sh, c)) && WorkCall(k, sh, c).ticket == c.ticket
  {
  }

  lemma {:induction false} StepStays(k: Config, s: System, l: Label, s': System, id: nat)
    requires Inv(k, s) && WellFormed(k, s) && Step(k, s, l, s') && id in s.calls
    ensures id in s'.calls && Stays(s.calls[id], s'.calls[id])
  {
    hide Inv, ShardIndex, Happens, WorkStep, Traceable;
    if l.Pop? {
      PopStays(k, s, l.shard, s', id);
    } else if l.Work? {
      WorkStays(k, s, l.shard, s', id);
    } else if CallerLabel(l) || l.Push? {
      CallerStays(k, s, l, s', id);
    }
  }

  lemma {:induction false} RunStays(k: Config, run: seq<Joint>, moves: seq<Move>, m: nat, n: nat, id: nat)
    requires JointExecution(k, run, moves) && m <= n < |run| && id in run[m].system.calls
    ensures id in run[n].system.calls && Stays(run[m].system.calls[id], run[n].system.calls[id])
    decreases n
  {
    hide Inv, Step, WellFormed, Init;
    if m < n {
      RunStays(k, run, moves, m, n - 1, id);
      JointInv(k, run, moves, n - 1);
      assert JointStep(k, run[n - 1], moves[n - 1], run[n]);
      if moves[n - 1].Engine? {
        StepStays(k, run[n - 1].system, moves[n - 1].l, run[n].system, id);
      }
    }
  }

  /** What the caller of waitUntilIdle may rely on: every command whose submission
      had returned true before the call is finished when the call returns. */
  lemma {:induction false} WaitCovers(k: Config, run: seq<Joint>, moves: seq<Move>, m: nat, n: nat, id: nat)
    requires JointExecution(k, run, moves) && OneCall(moves, m, n) && run[n].waiter == Away
    requires id in run[m].system.calls && run[m].system.calls[id].caller == Returned(true)
    ensures id in run[n].system.calls && run[n].system.calls[id].owner.Finished?
  {
    hide JointStep, Init;
    var t := ReturnsAtZero(k, run, moves, m, n);
    RunStays(k, run, moves, m, t, id);
    RunStays(k, run, moves, t, n, id);
  }
}
