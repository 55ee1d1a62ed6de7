/** What callers may rely on from a bounded blocking queue: insertion and removal
    are instantaneous, removal follows insertion order, and a blocking call gives
    up only because of close. `Mpmc` shows that the real queue does this. */
module Channels {

  /** `log` holds everything ever inserted, `popped` counts the removals. */
  datatype Channel<T> = Channel(capacity: nat, log: seq<T>, popped: nat, closed: bool)
  {
    predicate Full() { popped <= |log| && |log| - popped >= capacity }

    predicate Drained() { popped == |log| }
  }

  datatype Effect<T> =
    | Inserted(item: T)
    | PushRefused(blocking: bool)
    | Taken(item: T)
    | PopRefused(blocking: bool)
    | Closing
    | Silent

  ghost predicate Happens<T>(c: Channel<T>, e: Effect<T>, c': Channel<T>) {
    match e
    case Inserted(item) => !c.closed && !c.Full() && c' == c.(log := c.log + [item])
    case PushRefused(blocking) => (c.closed || (!blocking && c.Full())) && c' == c
    case Taken(item) => c.popped < |c.log| && item == c.log[c.popped] && c' == c.(popped := c.popped + 1)
    case PopRefused(blocking) => c.Drained() && (blocking ==> c.closed) && c' == c
    case Closing => c' == c.(closed := true)
    case Silent => c' == c
  }
}
