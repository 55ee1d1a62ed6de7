/** The lock-free single-producer single-consumer ring, one atomic step at a
    time.

    Each side may observe an old value of the other side's counter: a load
    returns any value between the last one that side observed and the current
    one. Counters wrap at 2^64. Writing a slot is not atomic, so a slot being
    written is `Torn` until the write ends. */
module Spsc {
  import opened Types
  import opened Words

  datatype Cell<T> = Torn | Whole(item: T)

  /** Where the producer is inside `try_push`, with its local variables. */
  datatype Producer<T> =
    | Idle
    | LoadedHead(item: T, head: u64)
    | LoadedTail(item: T, head: u64, tail: u64)
    | HasRoom(item: T, head: u64)
    | Writing(item: T, head: u64)
    | Written(item: T, head: u64)

  /** Where the consumer is inside `try_pop`. */
  datatype Consumer<T> =
    | Waiting
    | TookTail(tail: u64)
    | TookHead(tail: u64, head: u64)
    | Reading(tail: u64)
    | Read(tail: u64, out: Cell<T>)

  /** `pushed` and `popped` record the items published and delivered so far;
      `tailSeen` and `headSeen` are the unwrapped values each side last observed. */
  datatype Ring<T> = Ring(log: nat, head: u64, tail: u64, buffer: seq<Cell<T>>,
                          producer: Producer<T>, consumer: Consumer<T>,
                          tailSeen: nat, headSeen: nat, pushed: seq<T>, popped: seq<Cell<T>>)
  {
    function Capacity(): nat { PowerOfTwo(log) }
    /** The slot of a counter: a bit mask, since the capacity is a power of two. */
    function Slot(counter: u64): nat { BitAnd(counter, Capacity() - 1) }
    function Size(): int { |pushed| - |popped| }
  }

  function Subtract(a: u64, b: u64): u64 { (a - b) % WORD }

  datatype Label<T> =
    | StartPush(item: T) | ObserveTail(tail: nat) | Full | Room | BeginWrite | EndWrite | PublishHead
    | StartPop | ObserveHead(head: nat) | Empty | Available | ReadSlot | PublishTail

  /** The producer's steps. */
  ghost predicate ProducerStep<T>(s: Ring<T>, l: Label<T>, s': Ring<T>) {
    match l
    case StartPush(item) =>
      s.producer.Idle? && s' == s.(producer := LoadedHead(item, s.head))
    case ObserveTail(t) =>
      && s.producer.LoadedHead? && s.tailSeen <= t <= |s.popped|
      && s' == s.(producer := LoadedTail(s.producer.item, s.producer.head, t % WORD), tailSeen := t)
    case Full =>
      && s.producer.LoadedTail? && Subtract(s.producer.head, s.producer.tail) >= s.Capacity()
      && s' == s.(producer := Idle)
    case Room =>
      && s.producer.LoadedTail? && Subtract(s.producer.head, s.producer.tail) < s.Capacity()
      && s' == s.(producer := HasRoom(s.producer.item, s.producer.head))
    case BeginWrite =>
      && s.producer.HasRoom? && s.Slot(s.producer.head) < |s.buffer|
      && s' == s.(producer := Writing(s.producer.item, s.producer.head),
                  buffer := s.buffer[s.Slot(s.producer.head) := Torn])
    case EndWrite =>
      && s.producer.Writing? && s.Slot(s.producer.head) < |s.buffer|
      && s' == s.(producer := Written(s.producer.item, s.producer.head),
                  buffer := s.buffer[s.Slot(s.producer.head) := Whole(s.producer.item)])
    case PublishHead =>
      && s.producer.Written?
      && s' == s.(producer := Idle, head := (s.producer.head + 1) % WORD, pushed := s.pushed + [s.producer.item])
    case _ => false
  }

  /** The consumer's steps. */
  ghost predicate ConsumerStep<T>(s: Ring<T>, l: Label<T>, s': Ring<T>) {
    match l
    case StartPop =>
      s.consumer.Waiting? && s' == s.(consumer := TookTail(s.tail))
    case ObserveHead(h) =>
      && s.consumer.TookTail? && s.headSeen <= h <= |s.pushed|
      && s' == s.(consumer := TookHead(s.consumer.tail, h % WORD), headSeen := h)
    case Empty =>
      s.consumer.TookHead? && s.consumer.tail == s.consumer.head && s' == s.(consumer := Waiting)
    case Available =>
      && s.consumer.TookHead? && s.consumer.tail != s.consumer.head
      && s' == s.(consumer := Reading(s.consumer.tail))
    case ReadSlot =>
      && s.consumer.Reading? && s.Slot(s.consumer.tail) < |s.buffer|
      && s' == s.(consumer := Read(s.consumer.tail, s.buffer[s.Slot(s.consumer.tail)]))
    case PublishTail =>
      && s.consumer.Read?
      && s' == s.(consumer := Waiting, tail := (s.consumer.tail + 1) % WORD, popped := s.popped + [s.consumer.out])
    case _ => false
  }

  ghost predicate Step<T>(s: Ring<T>, l: Label<T>, s': Ring<T>) {
    ProducerStep(s, l, s') || ConsumerStep(s, l, s')
  }

  ghost predicate Init<T>(s: Ring<T>) {
    && s.log <= 63
    && s.head == 0 && s.tail == 0 && |s.buffer| == s.Capacity()
    && s.producer == Idle && s.consumer == Waiting
    && s.tailSeen == 0 && s.headSeen == 0 && s.pushed == [] && s.popped == []
  }

  // ---------------------------------------------------------------------
  // The invariant

  ghost predicate Counters<T>(s: Ring<T>) {
    && s.log <= 63 && |s.buffer| == s.Capacity()
    && s.head == |s.pushed| % WORD && s.tail == |s.popped| % WORD
    && s.tailSeen <= |s.popped| <= s.headSeen <= |s.pushed| <= s.tailSeen + s.Capacity()
  }

  /** Slots between the counters hold the published items. */
  ghost predicate Contents<T>(s: Ring<T>)
    requires |s.buffer| == s.Capacity()
  {
    forall k :: |s.popped| <= k < |s.pushed| ==> s.buffer[k % s.Capacity()] == Whole(s.pushed[k])
  }

  ghost predicate Delivered<T>(s: Ring<T>)
    requires |s.popped| <= |s.pushed|
  {
    forall k :: 0 <= k < |s.popped| ==> s.popped[k] == Whole(s.pushed[k])
  }

  ghost predicate ProducerOk<T>(s: Ring<T>)
    requires |s.buffer| == s.Capacity()
  {
    match s.producer
    case Idle => true
    case LoadedHead(_, h) => h == s.head
    case LoadedTail(_, h, t) => h == s.head && t == s.tailSeen % WORD
    case HasRoom(_, h) => h == s.head && |s.pushed| < s.tailSeen + s.Capacity()
    case Writing(_, h) => h == s.head && |s.pushed| < s.tailSeen + s.Capacity()
    case Written(item, h) =>
      && h == s.head && |s.pushed| < s.tailSeen + s.Capacity()
      && s.buffer[|s.pushed| % s.Capacity()] == Whole(item)
  }

  ghost predicate ConsumerOk<T>(s: Ring<T>) {
    match s.consumer
    case Waiting => true
    case TookTail(t) => t == s.tail
    case TookHead(t, h) => t == s.tail && h == s.headSeen % WORD
    case Reading(t) => t == s.tail && |s.popped| < s.headSeen
    case Read(t, out) => t == s.tail && |s.popped| < s.headSeen <= |s.pushed| && out == Whole(s.pushed[|s.popped|])
  }

  ghost predicate Inv<T>(s: Ring<T>) {
    Counters(s) && Contents(s) && Delivered(s) && ProducerOk(s) && ConsumerOk(s)
  }

  /** What clients rely on: delivery is a prefix of publication, in order and
      never torn; the ring never holds more than its capacity; and the slot
      being written is never the slot being read. */
  ghost predicate Safe<T>(s: Ring<T>) {
    && |s.popped| <= |s.pushed|
    && (forall k :: 0 <= k < |s.popped| ==> s.popped[k] == Whole(s.pushed[k]))
    && 0 <= s.Size() <= s.Capacity() == |s.buffer|
    && (s.producer.Writing? && s.consumer.Reading? ==> s.Slot(s.producer.head) != s.Slot(s.consumer.tail))
    && (s.producer.Writing? || s.producer.HasRoom? ==> s.Slot(s.producer.head) < |s.buffer|)
    && (s.consumer.Reading? ==> s.Slot(s.consumer.tail) < |s.buffer|)
  }

  // ---------------------------------------------------------------------

  lemma {:induction false} CapacityFits(log: nat)
    requires log <= 63
    ensures PowerOfTwo(log) < WORD
  {
    WordIsPower();
    var q := PowerDivides(log, 63);
    assert PowerOfTwo(64) == 2 * PowerOfTwo(63);
    MultipleBounds(PowerOfTwo(log), q);
  }

  /** The mask picks the slot of the unwrapped counter. */
  lemma {:induction false} SlotOf(n: nat, log: nat)
    requires log <= 63
    ensures BitAnd(n % WORD, PowerOfTwo(log) - 1) == n % PowerOfTwo(log)
  {
    hide BitAnd, PowerOfTwo;
    MaskIsMod(n % WORD, log);
    WrapKeepsSlot(n, log);
  }

  lemma {:induction false} ProducerKeeps<T>(s: Ring<T>, l: Label<T>, s': Ring<T>)
    requires Inv(s) && ProducerStep(s, l, s')
    ensures Inv(s')
  {
    hide BitAnd, PowerOfTwo;
    if l.BeginWrite? || l.EndWrite? {
      WriteKeeps(s, l, s');
    } else if l.PublishHead? {
      PublishKeeps(s, s');
    } else {
      CapacityFits(s.log);
      WrapDifference(|s.pushed|, s.tailSeen);
      assert s'.Capacity() == s.Capacity() && s'.buffer == s.buffer && s'.pushed == s.pushed;
      assert Contents(s');
    }
  }

  lemma {:induction false} WriteKeeps<T>(s: Ring<T>, l: Label<T>, s': Ring<T>)
    requires Inv(s) && ProducerStep(s, l, s') && (l.BeginWrite? || l.EndWrite?)
    ensures Inv(s')
  {
    hide BitAnd, PowerOfTwo;
    SlotOf(|s.pushed|, s.log);
    assert s'.Capacity() == s.Capacity() && s'.pushed == s.pushed;
    WriteMisses(s, s');
    hide Contents;
  }

  /** Writing the next free slot leaves the published slots alone. */
  lemma {:induction false} WriteMisses<T>(s: Ring<T>, s': Ring<T>)
    requires Counters(s) && Contents(s) && |s.pushed| < s.tailSeen + s.Capacity()
    requires |s'.buffer| == |s.buffer| && s'.log == s.log && s'.pushed == s.pushed && s'.popped == s.popped
    requires forall i :: 0 <= i < |s.buffer| && i != |s.pushed| % s.Capacity() ==> s'.buffer[i] == s.buffer[i]
    ensures Contents(s')
  {
    forall k | |s.popped| <= k < |s.pushed|
      ensures s'.buffer[k % s.Capacity()] == Whole(s.pushed[k])
    {
      SlotsDistinct(k, |s.pushed|, s.Capacity());
    }
  }

  lemma {:induction false} PublishKeeps<T>(s: Ring<T>, s': Ring<T>)
    requires Inv(s) && ProducerStep(s, PublishHead, s')
    ensures Inv(s')
  {
    hide PowerOfTwo;
    WrapAdd(|s.pushed|, 1);
    assert forall k :: 0 <= k < |s.pushed| ==> s'.pushed[k] == s.pushed[k];
    assert s'.pushed[|s.pushed|] == s.producer.item;
    assert s'.Capacity() == s.Capacity() && s'.buffer == s.buffer;
  }

  lemma {:induction false} DeliverKeeps<T>(s: Ring<T>, s': Ring<T>)
    requires Inv(s) && ConsumerStep(s, PublishTail, s')
    ensures Inv(s')
  {
    hide PowerOfTwo;
    WrapAdd(|s.popped|, 1);
    assert s'.Capacity() == s.Capacity() && s'.buffer == s.buffer && s'.pushed == s.pushed;
    assert forall k :: 0 <= k < |s.popped| ==> s'.popped[k] == s.popped[k];
    assert s'.popped[|s.popped|] == s.consumer.out;
    assert Contents(s');
    assert Delivered(s');
  }

  lemma {:induction false} ReadKeeps<T>(s: Ring<T>, s': Ring<T>)
    requires Inv(s) && ConsumerStep(s, ReadSlot, s')
    ensures Inv(s')
  {
    hide BitAnd, PowerOfTwo;
    SlotOf(|s.popped|, s.log);
    assert s'.Capacity() == s.Capacity() && s'.buffer == s.buffer && s'.pushed == s.pushed;
    assert Contents(s');
  }

  lemma {:induction false} ConsumerKeeps<T>(s: Ring<T>, l: Label<T>, s': Ring<T>)
    requires Inv(s) && ConsumerStep(s, l, s')
    ensures Inv(s')
  {
    hide BitAnd, PowerOfTwo;
    if l.PublishTail? {
      DeliverKeeps(s, s');
    } else if l.ReadSlot? {
      ReadKeeps(s, s');
    } else {
      CapacityFits(s.log);
      WrapDifference(s.headSeen, |s.popped|);
      assert s'.Capacity() == s.Capacity() && s'.buffer == s.buffer && s'.pushed == s.pushed;
      assert Contents(s');
    }
  }

  lemma {:induction false} InvIsSafe<T>(s: Ring<T>)
    requires Inv(s)
    ensures Safe(s)
  {
    hide BitAnd, PowerOfTwo;
    CapacityFits(s.log);
    SlotOf(|s.pushed|, s.log);
    SlotOf(|s.popped|, s.log);
    if s.producer.Writing? && s.consumer.Reading? {
      SlotsDistinct(|s.popped|, |s.pushed|, s.Capacity());
    }
  }

  /** An execution: a start and any interleaving of labelled steps. */
  ghost predicate Execution<T>(run: seq<Ring<T>>, labels: seq<Label<T>>) {
    && |run| == |labels| + 1 && Init(run[0])
    && forall i :: 0 <= i < |labels| ==> Step(run[i], labels[i], run[i + 1])
  }

  lemma {:induction false} ExecutionKeepsInv<T>(run: seq<Ring<T>>, labels: seq<Label<T>>, n: nat)
    requires Execution(run, labels) && n < |run|
    ensures Inv(run[n])
  {
    hide Step;
    if n == 0 {
      InitOk(run[0]);
    } else {
      ExecutionKeepsInv(run, labels, n - 1);
      StepKeepsInv(run[n - 1], labels[n - 1], run[n]);
    }
  }

  lemma {:induction false} InitOk<T>(s: Ring<T>)
    requires Init(s)
    ensures Inv(s)
  {
  }

  lemma {:induction false} StepKeepsInv<T>(s: Ring<T>, l: Label<T>, s': Ring<T>)
    requires Inv(s) && Step(s, l, s')
    ensures Inv(s')
  {
    hide Inv, ProducerStep, ConsumerStep;
    if ProducerStep(s, l, s') {
      ProducerKeeps(s, l, s');
    } else {
      ConsumerKeeps(s, l, s');
    }
  }

  /** Every state of every interleaving is safe. */
  lemma {:induction false} AlwaysSafe<T>(run: seq<Ring<T>>, labels: seq<Label<T>>, n: nat)
    requires Execution(run, labels) && n < |run|
    ensures Safe(run[n])
  {
    hide Execution, Inv, Safe;
    ExecutionKeepsInv(run, labels, n);
    InvIsSafe(run[n]);
  }

  /** A refusal is justified: `try_push` fails only when the tail it observed left
      the ring full, `try_pop` only when the head it observed left it empty. */
  lemma {:induction false} RefusalsJustified<T>(run: seq<Ring<T>>, labels: seq<Label<T>>, n: nat)
    requires Execution(run, labels) && n < |labels|
    ensures labels[n].Full? ==> |run[n].pushed| == run[n].tailSeen + run[n].Capacity()
    ensures labels[n].Empty? ==> |run[n].popped| == run[n].headSeen
  {
    hide PowerOfTwo;
    var s := run[n];
    ExecutionKeepsInv(run, labels, n);
    CapacityFits(s.log);
    WrapDifference(|s.pushed|, s.tailSeen);
    WrapDifference(s.headSeen, |s.popped|);
    assert Step(s, labels[n], run[n + 1]);
  }

  /** Neither side ever waits for the other: inside an operation there is always a next
      step, whatever the other side does. */
  lemma {:induction false} NeverBlocked<T>(run: seq<Ring<T>>, labels: seq<Label<T>>, n: nat)
    requires Execution(run, labels) && n < |run|
    ensures !run[n].producer.Idle? ==> exists l, s' :: ProducerStep(run[n], l, s')
    ensures !run[n].consumer.Waiting? ==> exists l, s' :: ConsumerStep(run[n], l, s')
  {
    hide Execution, Inv, ProducerStep, ConsumerStep;
    ExecutionKeepsInv(run, labels, n);
    if !run[n].producer.Idle? {
      var l, s' := ProducerMoves(run[n]);
    }
    if !run[n].consumer.Waiting? {
      var l, s' := ConsumerMoves(run[n]);
    }
  }

  lemma {:induction false} SlotsInRange<T>(s: Ring<T>)
    requires Inv(s)
    ensures s.tailSeen <= |s.popped| && s.headSeen <= |s.pushed|
    ensures s.producer.Writing? || s.producer.HasRoom? ==> s.Slot(s.producer.head) < |s.buffer|
    ensures s.consumer.Reading? ==> s.Slot(s.consumer.tail) < |s.buffer|
  {
    hide PowerOfTwo, BitAnd;
    InvIsSafe(s);
  }

  lemma {:induction false} ProducerMoves<T>(s: Ring<T>) returns (l: Label<T>, s': Ring<T>)
    requires Inv(s) && !s.producer.Idle?
    ensures ProducerStep(s, l, s')
  {
    hide Inv, PowerOfTwo, BitAnd;
    SlotsInRange(s);
    match s.producer
    case LoadedHead(item, head) =>
      l, s' := ObserveTail(s.tailSeen), s.(producer := LoadedTail(item, head, s.tailSeen % WORD));
    case LoadedTail(item, head, tail) =>
      if Subtract(head, tail) >= s.Capacity() {
        l, s' := Full, s.(producer := Idle);
      } else {
        l, s' := Room, s.(producer := HasRoom(item, head));
      }
    case HasRoom(item, head) =>
      l, s' := BeginWrite, s.(producer := Writing(item, head), buffer := s.buffer[s.Slot(head) := Torn]);
    case Writing(item, head) =>
      l, s' := EndWrite, s.(producer := Written(item, head), buffer := s.buffer[s.Slot(head) := Whole(item)]);
    case Written(item, head) =>
      l, s' := PublishHead, s.(producer := Idle, head := (head + 1) % WORD, pushed := s.pushed + [item]);
  }

  lemma {:induction false} ConsumerMoves<T>(s: Ring<T>) returns (l: Label<T>, s': Ring<T>)
    requires Inv(s) && !s.consumer.Waiting?
    ensures ConsumerStep(s, l, s')
  {
    hide Inv, PowerOfTwo, BitAnd;
    SlotsInRange(s);
    match s.consumer
    case TookTail(tail) =>
      l, s' := ObserveHead(s.headSeen), s.(consumer := TookHead(tail, s.headSeen % WORD));
    case TookHead(tail, head) =>
      if tail == head {
        l, s' := Empty, s.(consumer := Waiting);
      } else {
        l, s' := Available, s.(consumer := Reading(tail));
      }
    case Reading(tail) =>
      l, s' := ReadSlot, s.(consumer := Read(tail, s.buffer[s.Slot(tail)]));
    case Read(tail, out) =>
      l, s' := PublishTail, s.(consumer := Waiting, tail := (tail + 1) % WORD, popped := s.popped + [out]);
  }
}
