# RoboDQN bridge: a Dafny model

RoboDQN connects a Robocode robot's control loop to a deep Q-learning agent.
The two run on separate threads. Two capacity-1 blocking queues link them: an
action channel (learner to robot) and a feedback channel (robot to learner).

This project models the bookkeeping done on each side of those queues, as a
sequential state machine:

- **Actions** (`actions.dfy`): the `Action` enum (`SPIN_LEFT`, `SPIN_RIGHT`,
  in declaration order), `values()` and Kotlin's `indexOf`.
- **Observations** (`observation.dfy`): the 9-entry `Observation`. It covers
  the default all-zero value, `toArray`, the content-based `equals` (with
  its identity and class tests) and `hashCode` (32-bit wrap-around written
  out).
- **Bridge** (`bridge.dfy`): `FeedbackMessage` and the capacity-1 queue. The
  queue is a `Slot` class. `put` requires it empty, `take` requires it full,
  and `clear` empties it. The robot and the decision process hold the same
  two `Slot` objects.
- **Accumulator** (`accumulator.dfy`): the `Events` accumulator, the value it
  holds (`EventRecord`), the effect of each callback, and the reward.
- **Control** (`control.dfy`): the robot (`RoboDQN`), its six event
  callbacks and `logic()`, one tick. Telemetry comes in as opaque real
  inputs:
  - `Aim`, read before the action: gun heading and the heading-like angle
    to the enemy.
  - `Telemetry`, read after it: position, energy, velocity and distance.

  The engine delivers events to the callbacks while the action runs. So the
  tick takes the delivered events as a sequence and runs the matching
  callbacks in order.
- **Learning** (`learning.dfy`): `RobotMDP`, with `reset`, `step`, `isDone`
  and the action and observation spaces. `step` blocks in `take` until the
  robot's tick has run, so `Step` is given the robot and that tick's inputs
  and runs the tick between `put` and `take`. Interruption is an explicit
  input naming where the learner's thread is interrupted:
  - not at all;
  - in `put`;
  - in `take`, before the tick ran or after it finished.

  Every interrupted path clears both channels. It returns the last
  observation with reward -5 and `isDone` true.

The main results:
- `Step` reports back the index of the action it was given, in observation
  entry 0. One step uses exactly one tick, which consumes the action and
  produces exactly one feedback.
- Interruption leaves both slots empty and `lastObservation` unchanged.
- The reward is linear in the event flags and the energy change, and does
  not depend on the order in which events arrive.
- Observation equality is equality of contents. Equal observations hash
  equally.

Three behaviours of the code. The model keeps the first two as written; the
third is left out (see "## Left out").
- The fresh accumulator is installed at the end of `logic()`, with the
  energy read after the action (RoboDQN.kt:140). A tick's energy delta
  therefore runs from the end of the previous tick to the end of this one.
  The first tick is the exception: it measures from the robot's initial
  `Events(0.0)` (RoboDQN.kt:78), so its reward includes +0.02 times the
  whole starting energy (`Learning.InterruptedEpisode` states this).
- At the boundary |h - a| = pi the angle offset keeps the sign of h - a. With
  pi taken as the exact double `Math.PI`, a gun heading of `Math.PI`
  against an enemy angle of 0 gives +pi.
- An interrupt can land while the robot is between its `take`
  (RoboDQN.kt:97) and its `put` (RoboDQN.kt:137). The learner's catch path
  clears both channels (RobotLearning.kt:50-51), and then the robot puts
  feedback for the abandoned action. The next `step` takes that stale
  feedback at once, and from then on every reply belongs to the previous
  step's action. Action and feedback pairing is then silently lost. The
  model does not cover this interleaving (see "## Left out").

## Model

| member | source | states |
|---|---|---|
| Actions.IndexOf | robodqn/src/main/kotlin/robodqn/RoboDQN.kt:104 | `indexOf` returns the first index holding the element, or -1 exactly when the element is absent |
| Actions.IndexOfValues | robodqn/src/main/kotlin/robodqn/RobotLearning.kt:43 | `values().indexOf(values()[i]) == i` for every valid index `i` |
| Actions.ValuesIndexOf | robodqn/src/main/kotlin/robodqn/RoboDQN.kt:104 | every action has an index in `[0, values().size)` and `values()` at that index is the action |
| Observations.Default | robodqn/src/main/kotlin/robodqn/Observation.kt:5-7 | the default observation holds `ARRAY_SIZE` = 9 entries, all 0.0 |
| Observations.ToArray | robodqn/src/main/kotlin/robodqn/Observation.kt:10 | `toArray` returns the stored array unchanged: rewrapping it gives back the same observation |
| Observations.ContentEquals | robodqn/src/main/kotlin/robodqn/Observation.kt:18 | `contentEquals` (same length, then element by element) holds exactly when the two arrays have equal contents |
| Observations.Equals | robodqn/src/main/kotlin/robodqn/Observation.kt:12-21 | an object is equal to itself. For an argument whose identity is consistent, `equals` holds exactly when the argument is an observation with the same contents, so null and other classes are never equal |
| Observations.EqualsIffSameContents | robodqn/src/main/kotlin/robodqn/Observation.kt:12-21 | corollary of `Equals`: two observation objects are `equals` exactly when their arrays have equal contents |
| Observations.DistinctObjectsEqualByContents | robodqn/src/main/kotlin/robodqn/Observation.kt:18-20 | two distinct objects holding the same contents are equal |
| Observations.EqualsReflexive | robodqn/src/main/kotlin/robodqn/Observation.kt:13 | an observation equals itself, through the identity test |
| Observations.NotEqualToOtherClass | robodqn/src/main/kotlin/robodqn/Observation.kt:14 | an observation never equals null or an object of another class |
| Observations.Int32 | robodqn/src/main/kotlin/robodqn/Observation.kt:23-25 | 32-bit wrap-around: the result is in the `Int` range and congruent to the input modulo 2^32 |
| Observations.HashFrom | robodqn/src/main/kotlin/robodqn/Observation.kt:24 | the result is a 32-bit `Int`. The body models the loop of `contentHashCode`, folding `31 * acc + hash(e)` over the elements with 32-bit wrap-around |
| Observations.HashCode | robodqn/src/main/kotlin/robodqn/Observation.kt:23-25 | `hashCode` is `contentHashCode` of the array and is a 32-bit `Int` |
| Observations.EqualsImpliesSameHash | robodqn/src/main/kotlin/robodqn/Observation.kt:12-25 | equal observations have equal hash codes |
| Bridge.Slot.constructor | robodqn/src/main/kotlin/robodqn/RoboDQN.kt:54-55 | a new capacity-1 queue is empty |
| Bridge.Slot.Put | robodqn/src/main/kotlin/robodqn/RoboDQN.kt:137 | `put` into the empty queue leaves exactly the given element pending |
| Bridge.Slot.Take | robodqn/src/main/kotlin/robodqn/RoboDQN.kt:97 | `take` returns the pending element and leaves the queue empty |
| Bridge.Slot.Clear | robodqn/src/main/kotlin/robodqn/RobotLearning.kt:50-51 | `clear` leaves the queue empty |
| Accumulator.FreshRecord | robodqn/src/main/kotlin/robodqn/RoboDQN.kt:11-19 | `Events(e)` stores energy `e`, and none of the six flags is set |
| Accumulator.Events.constructor | robodqn/src/main/kotlin/robodqn/RoboDQN.kt:11-19 | a new accumulator object holds the fresh record for its energy |
| Accumulator.SetFlag | robodqn/src/main/kotlin/robodqn/RoboDQN.kt:175-206 | a callback sets its own flag and leaves the energy and the other five flags unchanged |
| Accumulator.SetFlagIdempotent | robodqn/src/main/kotlin/robodqn/RoboDQN.kt:175-206 | running a callback twice has the same effect as running it once |
| Accumulator.Deliver | robodqn/src/main/kotlin/robodqn/RoboDQN.kt:175-206 | after a batch of callbacks, a flag is set exactly when it was set before or an event of its kind arrived; the energy is unchanged |
| Accumulator.DeliverOrderIndependent | robodqn/src/main/kotlin/robodqn/RoboDQN.kt:175-206 | two batches with the same kinds of events, in any order or multiplicity, give the same accumulator |
| Accumulator.Reward | robodqn/src/main/kotlin/robodqn/RoboDQN.kt:121-128 | the reward minus 0.02 times the energy change lies between −16 (every penalty) and +10 (only a bullet hit) |
| Accumulator.RewardIsLinear | robodqn/src/main/kotlin/robodqn/RoboDQN.kt:121-128 | reward = 10·bulletHit − bulletMissed − 3·hitByBullet − hitRobot − hitWall − 10·death + 0.02·(energy − stored energy), flags counted 0/1 |
| Accumulator.RewardAdditive | robodqn/src/main/kotlin/robodqn/RoboDQN.kt:121-128 | setting one more flag adds exactly that event's weight to the reward, whatever else is set |
| Accumulator.RewardOfQuietTick | robodqn/src/main/kotlin/robodqn/RoboDQN.kt:121-128 | a tick without events is rewarded 0.02 per unit of energy gained |
| Accumulator.RewardExample | robodqn/src/main/kotlin/robodqn/RoboDQN.kt:121-128 | start energy 80, bullet hit and wall hit, end energy 78 gives reward 8.96 |
| Control.AngleOffset | robodqn/src/main/kotlin/robodqn/RoboDQN.kt:91-95 | the offset always has magnitude \|h − a\|. It is h − a when \|h − a\| ≤ π and a − h otherwise |
| Control.AngleOffsetAtPi | robodqn/src/main/kotlin/robodqn/RoboDQN.kt:91-92 | at \|h − a\| = `Math.PI` exactly, the offset keeps the sign of h − a: (π, 0) gives +π and (0, π) gives −π |
| Control.AngleOffsetInRangeIff | robodqn/src/main/kotlin/robodqn/RoboDQN.kt:91-95 | the offset lies in [−π, π] exactly when \|h − a\| ≤ π, so the branch is not a wrap into that interval |
| Control.BuildObservation | robodqn/src/main/kotlin/robodqn/RoboDQN.kt:102-117 | 9 entries: action index, x, y, energy, velocity, distance, angle offset, hit-wall 0/1, hit-robot 0/1 |
| Control.TickFeedback | robodqn/src/main/kotlin/robodqn/RoboDQN.kt:102-135 | the feedback's observation is the tick's built observation (all nine entries, as `BuildObservation` states), its reward is the tick's reward and its `isDone` is the death flag |
| Control.TickFeedbackReportsAction | robodqn/src/main/kotlin/robodqn/RoboDQN.kt:102-104 | the feedback for `values()[i]` carries `i` in observation entry 0 |
| Control.TickFeedbackActionInRange | robodqn/src/main/kotlin/robodqn/RoboDQN.kt:104 | observation entry 0 is always a valid action index |
| Control.RoboDQN.constructor | robodqn/src/main/kotlin/robodqn/RoboDQN.kt:78 | a new robot shares the given channels and starts with the fresh accumulator `Events(0.0)` |
| Control.RoboDQN.OnBulletHit | robodqn/src/main/kotlin/robodqn/RoboDQN.kt:175-177 | sets `bulletHit` on the current accumulator, nothing else |
| Control.RoboDQN.OnBulletMissed | robodqn/src/main/kotlin/robodqn/RoboDQN.kt:179-181 | sets `bulletMissed` on the current accumulator, nothing else |
| Control.RoboDQN.OnHitByBullet | robodqn/src/main/kotlin/robodqn/RoboDQN.kt:183-185 | sets `hitByBullet` on the current accumulator, nothing else |
| Control.RoboDQN.OnHitWall | robodqn/src/main/kotlin/robodqn/RoboDQN.kt:187-189 | sets `hitWall` on the current accumulator, nothing else |
| Control.RoboDQN.OnHitRobot | robodqn/src/main/kotlin/robodqn/RoboDQN.kt:191-192 | sets `hitRobot` on the current accumulator, nothing else |
| Control.RoboDQN.OnDeath | robodqn/src/main/kotlin/robodqn/RoboDQN.kt:204-206 | sets `death` on the current accumulator, nothing else |
| Control.RoboDQN.Dispatch | robodqn/src/main/kotlin/robodqn/RoboDQN.kt:175-206 | the engine delivering one event runs that event's callback, whose only effect is to set its flag on the current accumulator |
| Control.RoboDQN.Logic | robodqn/src/main/kotlin/robodqn/RoboDQN.kt:88-142 | one tick: takes the pending action, leaving the action slot empty, and puts into the empty feedback slot exactly the tick's feedback (built from the accumulator after this tick's callbacks). It then installs a fresh accumulator holding the current energy, so no flag carries over |
| Learning.RobotMDP.constructor | robodqn/src/main/kotlin/robodqn/RobotLearning.kt:17-24 | the process shares the given channels, has one action per enum value and observation shape `[9]`, and starts from the default observation |
| Learning.RobotMDP.GetActionSpace | robodqn/src/main/kotlin/robodqn/RobotLearning.kt:21 | the action space size is the number of actions, 2 |
| Learning.RobotMDP.GetObservationSpace | robodqn/src/main/kotlin/robodqn/RobotLearning.kt:22 | the observation space has one dimension, of size `ARRAY_SIZE` = 9 |
| Learning.RobotMDP.IsDone | robodqn/src/main/kotlin/robodqn/RobotLearning.kt:28 | `isDone()` is always false |
| Learning.RobotMDP.Reset | robodqn/src/main/kotlin/robodqn/RobotLearning.kt:34-37 | `reset()` stores the default observation as `lastObservation` and returns it |
| Learning.RobotMDP.Interrupted | robodqn/src/main/kotlin/robodqn/RobotLearning.kt:49-53 | the catch path empties both channels and replies `(lastObservation, -5.0, true)` |
| Learning.RobotMDP.Step | robodqn/src/main/kotlin/robodqn/RobotLearning.kt:41-54 | both channels are empty afterwards. Uninterrupted: the reply is the feedback of the tick that executed `values()[action]`, stored as `lastObservation`, with entry 0 equal to `action`. Interrupted: the reply is `(old lastObservation, -5, true)` and `lastObservation` is unchanged |
| Learning.InterruptedEpisode | robodqn/src/main/kotlin/robodqn/RobotLearning.kt:41-53 | a step works without a prior `reset`, and the first tick's reward counts the whole energy as gained. An interruption after a completed tick drops that tick's feedback. After `reset`, the next step gets the feedback of its own action and its own tick only |

## Left out

- Geometry is not modelled. This covers `Position.distance`, `Position.angle`,
  `headingLikeAngle`, `normalizeRadianAngle` and the enemy-position update in
  `onScannedRobot`, which are floating-point trigonometry. The distance and the
  heading-like angle enter the tick as opaque real inputs.
- Engine calls are not modelled: `doAction` (`setTurnLeft`, `setTurnRight`,
  `setMaxVelocity`, `ahead`), `fire`, and the bearing and fault handling in
  `onHitRobot`. They have no result the model can use. Their effect shows up
  only through the post-action telemetry and the events delivered during the
  tick.
- `run()`'s endless loop is not modelled; each of its iterations is one `Logic`
  call.
- Thread startup in the companion object and the stack-trace dump to a log
  file are not modelled, because they are concurrency and file I/O.
- Blocking and real thread interruption are not modelled. The queues are modelled
  sequentially: an operation that would block requires the state that lets
  it proceed. `Step` runs the robot's tick itself where the real `take`
  would wait for it.
- The interleaving where an interrupt lands while the robot is between its
  `take` and its `put` is not modelled. In that case the robot puts feedback
  for an abandoned action after the channels were cleared, and every later
  reply is one step behind. Modelling it would need a tick split at that
  point; `Logic` runs a whole tick as one step.
- The learning library code is not modelled: `RobotLearning.start`, the
  Q-learning and network configuration, and `DataManager`. Neither are
  `newInstance` (a `TODO`) and `close` (empty).
- `StepReply`'s JSON info argument is left out; it is always empty.
- Arithmetic is over `real`, not IEEE doubles. The reward and the angle
  difference have no rounding, and `contentEquals` compares values where the
  JVM compares bit patterns (NaN and −0.0 are not modelled). π is the exact
  value of the double `Math.PI`.
- Observations.ToArray: returns the observation's contents as a value. In
  the source `toArray` hands out the observation's own mutable `DoubleArray`
  (Observation.kt:10), so a caller could change the observation through
  it. The model does not capture that aliasing.
- Observations.HashCode: the per-element `Double.hashCode` of an element's
  bit pattern is a function parameter, because bit patterns of doubles are
  not modelled.
- Learning.RobotMDP.Step: requires the action index to be in range. The
  source raises an uncaught `ArrayIndexOutOfBoundsException` otherwise; that
  exception path is not modelled.
- The `Action` enum and the `FeedbackMessage` class are defined in files
  outside the modelled ones. Their shape is taken from their uses (RoboDQN.kt:130-135,
  147-158 and RobotLearning.kt:45).
- RoboDQNTest.kt only prints an angle and checks nothing, so it is not
  modelled.
