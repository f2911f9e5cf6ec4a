/**
 * The learner's side of the bridge: `RobotMDP`, the decision process that
 * the learning algorithm drives with `reset`, `step` and `isDone`.
 *
 * The learning algorithm itself is not part of this model; it is the
 * caller of these operations.
 */
module Learning {
  import opened Wrappers
  import opened Actions
  import opened Observations
  import opened Bridge
  import opened Accumulator
  import opened Control

  /** A discrete action space of `size` actions. */
  datatype DiscreteSpace = DiscreteSpace(size: nat)

  /** An observation space of arrays with the given shape. */
  datatype ArrayObservationSpace = ArrayObservationSpace(shape: seq<int>)

  /** What `step` returns to the learner (its empty JSON info part is omitted). */
  datatype StepReply = StepReply(observation: Observation, reward: real, isDone: bool)

  /**
   * Where, if anywhere, the learner's thread is interrupted during `step`:
   * while blocked in `put`, or after `put` while blocked in `take`, either
   * before the robot's tick ran or after it completed.
   */
  datatype Interruption = Uninterrupted | InPut | InTake(tickRan: bool)

  /** The reward of a step cut short by an interruption. */
  const InterruptedReward: real := -5.0

  class RobotMDP {
    const actionChannel: Slot<Action>
    const feedbackChannel: Slot<FeedbackMessage>
    const actionSpace: DiscreteSpace := DiscreteSpace(|Values|)
    const observationSpace: ArrayObservationSpace := ArrayObservationSpace([ArraySize])
    var lastObservation: Observation

    /** A new decision process over the two shared channels. */
    constructor (actionChannel: Slot<Action>, feedbackChannel: Slot<FeedbackMessage>)
      ensures this.actionChannel == actionChannel && this.feedbackChannel == feedbackChannel
      ensures actionSpace == DiscreteSpace(|Values|)
      ensures observationSpace == ArrayObservationSpace([ArraySize])
      ensures lastObservation == Default()
    {
      this.actionChannel := actionChannel;
      this.feedbackChannel := feedbackChannel;
      lastObservation := Default();
    }

    /** `getActionSpace()`: one discrete choice per action. */
    function GetActionSpace(): (s: DiscreteSpace)
      ensures s.size == |Values| == 2
    {
      actionSpace
    }

    /** `getObservationSpace()`: a single dimension of `ArraySize` entries. */
    function GetObservationSpace(): (s: ArrayObservationSpace)
      ensures |s.shape| == 1 && s.shape[0] == ArraySize == 9
    {
      observationSpace
    }

    /** `isDone()`: the process never reports termination; steps do. */
    function IsDone(): (r: bool)
      ensures !r
    {
      false
    }

    /** `reset()`: the episode restarts from the default observation; the channels are untouched. */
    method Reset() returns (o: Observation)
      modifies this
      ensures lastObservation == Default() && o == Default()
    {
      lastObservation := Default();
      o := lastObservation;
    }

    /** The `catch` branch of `step`: drop whatever is pending and end the episode with a penalty. */
    method Interrupted() returns (reply: StepReply)
      modifies actionChannel, feedbackChannel
      ensures actionChannel.item.None? && feedbackChannel.item.None?
      ensures reply == StepReply(lastObservation, InterruptedReward, true)
    {
      actionChannel.Clear();
      feedbackChannel.Clear();
      reply := StepReply(lastObservation, InterruptedReward, true);
    }

    /**
     * `step(action)`: puts `values()[action]` in the action channel, waits
     * for the robot's tick (`control` with the tick's inputs) and takes its
     * feedback, remembering and returning it. An interruption while
     * blocked ends the step through `Interrupted`.
     */
    method Step(action: int, interruption: Interruption,
                control: RoboDQN, aim: Aim, delivered: seq<EventKind>, after: Telemetry)
      returns (reply: StepReply)
      requires 0 <= action < |Values|
      requires control.actionChannel == actionChannel && control.feedbackChannel == feedbackChannel
      requires !interruption.InPut? ==> actionChannel.item.None? && feedbackChannel.item.None?
      modifies this, actionChannel, feedbackChannel, control, control.currentEvents
      ensures actionChannel.item.None? && feedbackChannel.item.None?
      ensures interruption.Uninterrupted? ==>
        var ev := Deliver(old(control.currentEvents.Record()), delivered);
        var fb := TickFeedback(Values[action], aim, ev, after);
        reply == StepReply(fb.observation, fb.reward, fb.isDone) &&
        lastObservation == fb.observation
      ensures interruption.Uninterrupted? ==> reply.observation.elements[0] == action as real
      ensures !interruption.Uninterrupted? ==>
        reply == StepReply(old(lastObservation), InterruptedReward, true) &&
        lastObservation == old(lastObservation)
      ensures interruption.Uninterrupted? || interruption == InTake(true) ==>
        fresh(control.currentEvents) && control.currentEvents.Record() == FreshRecord(after.energy)
      ensures interruption.InPut? || interruption == InTake(false) ==>
        control.currentEvents == old(control.currentEvents) && unchanged(control.currentEvents)
    {
      var next := Values[action];
      if interruption.InPut? {
        reply := Interrupted();
        return;
      }
      actionChannel.Put(next);

      if interruption.InTake? {
        if interruption.tickRan {
          control.Logic(aim, delivered, after);
        }
        reply := Interrupted();
        return;
      }

      control.Logic(aim, delivered, after);
      var feedback := feedbackChannel.Take();
      lastObservation := feedback.observation;
      reply := StepReply(feedback.observation, feedback.reward, feedback.isDone);
      TickFeedbackReportsAction(action, aim, Deliver(old(control.currentEvents.Record()), delivered), after);
    }
  }

  /**
   * Pairing across an episode boundary on one shared pair of channels: a
   * first `step(0)` needs no prior `reset`, and its reward counts the whole
   * energy as gained, since the robot's first accumulator is `Events(0.0)`;
   * a `step(1)` interrupted after
   * its tick ran drops that tick's feedback and ends the episode; after
   * `reset`, the next `step(1)` receives the feedback of its own action,
   * with only its own tick's events (the dropped bullet hit is gone) and no
   * energy change, since the accumulator was reset at the energy reached.
   */
  method InterruptedEpisode(aim: Aim, after: Telemetry)
    returns (first: StepReply, second: StepReply, restart: Observation, third: StepReply)
    ensures |first.observation.elements| == ArraySize
    ensures first.observation.elements[0] == 0.0 && !first.isDone
    ensures first.reward == 0.02 * after.energy
    ensures second == StepReply(first.observation, InterruptedReward, true)
    ensures restart == Default()
    ensures |third.observation.elements| == ArraySize
    ensures third.observation.elements[0] == 1.0 && third.observation.elements[7] == 1.0
    ensures third.reward == Weight(HitWall)
  {
    var actionChannel := new Slot<Action>();
    var feedbackChannel := new Slot<FeedbackMessage>();
    var robot := new RoboDQN(actionChannel, feedbackChannel);
    var mdp := new RobotMDP(actionChannel, feedbackChannel);

    first := mdp.Step(0, Uninterrupted, robot, aim, [], after);
    second := mdp.Step(1, InTake(true), robot, aim, [BulletHit], after);
    restart := mdp.Reset();
    third := mdp.Step(1, Uninterrupted, robot, aim, [HitWall], after);
  }
}
