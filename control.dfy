/**
 * The robot's control loop: one call of `logic()` per simulation tick,
 * and the event callbacks that fill the accumulator in between.
 *
 * Telemetry is opaque: the engine's readings (position, energy, velocity,
 * gun heading) and the geometry computed from them (distance to the
 * enemy, heading-like angle towards it) are inputs to the tick.
 */
module Control {
  import opened Wrappers
  import opened Actions
  import opened Observations
  import opened Bridge
  import opened Accumulator

  /** `Math.PI`: the exact value of the double nearest to pi. */
  const Pi: real := 3.141592653589793115997963468544185161590576171875

  function Abs(x: real): real {
    if x < 0.0 then -x else x
  }

  /**
   * Readings taken at the start of a tick, before the action: the gun
   * heading `h` (radians) and the heading-like angle `a` towards the
   * last known enemy position.
   */
  datatype Aim = Aim(gunHeading: real, enemyAngle: real)

  /**
   * Readings taken after the action ran: position, energy, velocity and
   * the distance to the last known enemy position.
   */
  datatype Telemetry = Telemetry(x: real, y: real, energy: real, velocity: real, distance: real)

  /**
   * The signed offset between the gun heading `h` and the enemy angle `a`:
   * `h - a` when that is at most pi in magnitude, `a - h` otherwise. Only
   * the sign is chosen; the magnitude is always that of `h - a`.
   */
  function AngleOffset(h: real, a: real): (r: real)
    ensures Abs(r) == Abs(h - a)
    ensures r == h - a || r == a - h
    ensures Abs(h - a) <= Pi ==> r == h - a
    ensures Abs(h - a) > Pi ==> r == a - h
  {
    if Abs(h - a) <= Pi then h - a else a - h
  }

  /**
   * The branch is not a wrap into [-pi, pi]: the offset lies in that
   * interval exactly when the raw difference already does.
   */
  lemma AngleOffsetInRangeIff(h: real, a: real)
    ensures -Pi <= AngleOffset(h, a) <= Pi <==> Abs(h - a) <= Pi
  {
  }

  /**
   * At the boundary the branch keeps the sign: a gun heading of exactly
   * `Math.PI` against an enemy angle of 0 gives +pi, not -pi.
   */
  lemma AngleOffsetAtPi()
    ensures AngleOffset(Pi, 0.0) == Pi
    ensures AngleOffset(0.0, Pi) == -Pi
  {
  }

  /**
   * The observation built at the end of a tick. Entry 0 is the index of
   * the action taken, 1-4 the position, energy and velocity, 5 the
   * distance to the enemy, 6 the angle offset, 7 and 8 are 1.0 when the
   * robot hit a wall, respectively another robot, and 0.0 otherwise.
   */
  function BuildObservation(actionIndex: int, offset: real, t: Telemetry, ev: EventRecord): (o: Observation)
    ensures |o.elements| == ArraySize
    ensures o.elements[0] == actionIndex as real
    ensures o.elements[1..7] == [t.x, t.y, t.energy, t.velocity, t.distance, offset]
    ensures o.elements[7] == Count(ev.hitWall) && o.elements[8] == Count(ev.hitRobot)
  {
    Observation([
      actionIndex as real,
      t.x, t.y, t.energy, t.velocity,
      t.distance, offset,
      if ev.hitWall then 1.0 else 0.0,
      if ev.hitRobot then 1.0 else 0.0
    ])
  }

  /**
   * The feedback of a tick that executed `action`, aimed with `aim`,
   * collected the events `ev` and ended with the readings `after`.
   */
  function TickFeedback(action: Action, aim: Aim, ev: EventRecord, after: Telemetry): (f: FeedbackMessage)
    ensures f.isDone == ev.death
    ensures f.observation ==
      BuildObservation(IndexOf(Values, action), AngleOffset(aim.gunHeading, aim.enemyAngle), after, ev)
    ensures |f.observation.elements| == ArraySize
    ensures f.observation.elements[6] == AngleOffset(aim.gunHeading, aim.enemyAngle)
    ensures f.reward == Reward(ev, after.energy)
  {
    FeedbackMessage(
      BuildObservation(IndexOf(Values, action), AngleOffset(aim.gunHeading, aim.enemyAngle), after, ev),
      Reward(ev, after.energy),
      ev.death)
  }

  /**
   * Index round trip through a tick: the feedback for `values()[i]`
   * reports `i` as the action taken.
   */
  lemma TickFeedbackReportsAction(i: int, aim: Aim, ev: EventRecord, after: Telemetry)
    requires 0 <= i < |Values|
    ensures TickFeedback(Values[i], aim, ev, after).observation.elements[0] == i as real
  {
    IndexOfValues(i);
  }

  /** Every action taken is reported as an index into `values()`. */
  lemma TickFeedbackActionInRange(action: Action, aim: Aim, ev: EventRecord, after: Telemetry)
    ensures 0.0 <= TickFeedback(action, aim, ev, after).observation.elements[0] < |Values| as real
  {
    ValuesIndexOf(action);
  }

  /**
   * `RoboDQN`: the robot. It shares the two channels with the learner and
   * owns the accumulator of the current tick.
   */
  class RoboDQN {
    const actionChannel: Slot<Action>
    const feedbackChannel: Slot<FeedbackMessage>
    var currentEvents: Events

    /** A new robot starts with the accumulator `Events(0.0)`. */
    constructor (actionChannel: Slot<Action>, feedbackChannel: Slot<FeedbackMessage>)
      ensures this.actionChannel == actionChannel && this.feedbackChannel == feedbackChannel
      ensures fresh(currentEvents) && currentEvents.Record() == FreshRecord(0.0)
    {
      this.actionChannel := actionChannel;
      this.feedbackChannel := feedbackChannel;
      currentEvents := new Events(0.0);
    }

    /** `onBulletHit`: one of the robot's bullets hit. */
    method OnBulletHit()
      modifies currentEvents
      ensures currentEvents.Record() == SetFlag(old(currentEvents.Record()), BulletHit)
    {
      currentEvents.bulletHit := true;
    }

    /** `onBulletMissed`: one of the robot's bullets missed. */
    method OnBulletMissed()
      modifies currentEvents
      ensures currentEvents.Record() == SetFlag(old(currentEvents.Record()), BulletMissed)
    {
      currentEvents.bulletMissed := true;
    }

    /** `onHitByBullet`: the robot was hit. */
    method OnHitByBullet()
      modifies currentEvents
      ensures currentEvents.Record() == SetFlag(old(currentEvents.Record()), HitByBullet)
    {
      currentEvents.hitByBullet := true;
    }

    /** `onHitWall`: the robot ran into a wall. */
    method OnHitWall()
      modifies currentEvents
      ensures currentEvents.Record() == SetFlag(old(currentEvents.Record()), HitWall)
    {
      currentEvents.hitWall := true;
    }

    /** `onHitRobot`: the robot collided with another robot. */
    method OnHitRobot()
      modifies currentEvents
      ensures currentEvents.Record() == SetFlag(old(currentEvents.Record()), HitRobot)
    {
      currentEvents.hitRobot := true;
    }

    /** `onDeath`: the robot was destroyed. */
    method OnDeath()
      modifies currentEvents
      ensures currentEvents.Record() == SetFlag(old(currentEvents.Record()), Death)
    {
      currentEvents.death := true;
    }

    /** The engine delivering one event to its callback. */
    method Dispatch(e: EventKind)
      modifies currentEvents
      ensures currentEvents.Record() == SetFlag(old(currentEvents.Record()), e)
    {
      match e
      case BulletHit => OnBulletHit();
      case BulletMissed => OnBulletMissed();
      case HitByBullet => OnHitByBullet();
      case HitWall => OnHitWall();
      case HitRobot => OnHitRobot();
      case Death => OnDeath();
    }

    /**
     * `logic()`: one tick. It aims, takes the pending action, executes it
     * (the engine delivers the events `delivered` to the callbacks while
     * the action runs), builds the observation and the reward, puts one
     * feedback message and installs a fresh accumulator holding the
     * current energy.
     */
    method Logic(aim: Aim, delivered: seq<EventKind>, after: Telemetry)
      requires actionChannel.item.Some?
      requires feedbackChannel.item.None?
      modifies this, currentEvents, actionChannel, feedbackChannel
      ensures actionChannel.item.None?
      ensures feedbackChannel.item == Some(TickFeedback(
        old(actionChannel.item).value, aim, Deliver(old(currentEvents.Record()), delivered), after))
      ensures fresh(currentEvents) && currentEvents.Record() == FreshRecord(after.energy)
    {
      var angleBetweenRobotAndEnemy := AngleOffset(aim.gunHeading, aim.enemyAngle);

      var action := actionChannel.Take();

      ghost var start := currentEvents.Record();
      var i := 0;
      while i < |delivered|
        invariant 0 <= i <= |delivered|
        invariant currentEvents == old(currentEvents)
        invariant currentEvents.Record() == Deliver(start, delivered[..i])
        invariant actionChannel.item.None? && feedbackChannel.item.None?
      {
        Dispatch(delivered[i]);
        assert delivered[..i + 1][..i] == delivered[..i];
        i := i + 1;
      }
      assert delivered[..i] == delivered;

      var newObservation := BuildObservation(IndexOf(Values, action), angleBetweenRobotAndEnemy,
                                             after, currentEvents.Record());
      var reward := Reward(currentEvents.Record(), after.energy);
      var feedbackMessage := FeedbackMessage(newObservation, reward, currentEvents.death);

      feedbackChannel.Put(feedbackMessage);

      currentEvents := new Events(after.energy);
    }
  }
}
