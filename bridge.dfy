/**
 * The rendezvous between the robot's control loop and the learner: the
 * message a tick produces and the capacity-1 blocking queue that carries
 * actions one way and feedback the other.
 */
module Bridge {
  import opened Wrappers
  import opened Observations

  /** The outcome of one completed tick, handed from the control loop to the learner. */
  datatype FeedbackMessage = FeedbackMessage(observation: Observation, reward: real, isDone: bool)

  /**
   * An `ArrayBlockingQueue` of capacity 1. Blocking is not modelled: an
   * operation that would block requires the state that lets it proceed
   * (an empty slot for `Put`, a full one for `Take`).
   */
  class Slot<T> {
    var item: Option<T>

    /** A new queue holds nothing. */
    constructor ()
      ensures item.None?
    {
      item := None;
    }

    /** `put`: deposits `x` in the empty slot. */
    method Put(x: T)
      requires item.None?
      modifies this
      ensures item == Some(x)
    {
      item := Some(x);
    }

    /** `take`: removes and returns the pending element. */
    method Take() returns (x: T)
      requires item.Some?
      modifies this
      ensures x == old(item).value
      ensures item.None?
    {
      x := item.value;
      item := None;
    }

    /** `clear`: drops the pending element, if any. */
    method Clear()
      modifies this
      ensures item.None?
    {
      item := None;
    }
  }
}
