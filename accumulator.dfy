/**
 * The per-tick event accumulator: the energy at the start of the tick and
 * one flag per kind of environment event, plus the reward computed from it.
 */
module Accumulator {

  /** The environment events that set a flag of the accumulator. */
  datatype EventKind = BulletHit | BulletMissed | HitByBullet | HitWall | HitRobot | Death

  /** The value of an accumulator: its stored energy and its six flags. */
  datatype EventRecord = EventRecord(
    energy: real,
    bulletHit: bool,
    bulletMissed: bool,
    hitByBullet: bool,
    hitWall: bool,
    hitRobot: bool,
    death: bool)

  /** The flag that events of kind `k` set. */
  function Flag(r: EventRecord, k: EventKind): bool {
    match k
    case BulletHit => r.bulletHit
    case BulletMissed => r.bulletMissed
    case HitByBullet => r.hitByBullet
    case HitWall => r.hitWall
    case HitRobot => r.hitRobot
    case Death => r.death
  }

  /** `Events(energy)`: a fresh accumulator with no flag set. */
  function FreshRecord(energy: real): (r: EventRecord)
    ensures r.energy == energy
    ensures forall k :: !Flag(r, k)
  {
    EventRecord(energy, false, false, false, false, false, false)
  }

  /** The effect of one event callback: its own flag becomes true. */
  function SetFlag(r: EventRecord, k: EventKind): (r': EventRecord)
    ensures Flag(r', k)
    ensures r'.energy == r.energy
    ensures forall j :: j != k ==> Flag(r', j) == Flag(r, j)
  {
    match k
    case BulletHit => r.(bulletHit := true)
    case BulletMissed => r.(bulletMissed := true)
    case HitByBullet => r.(hitByBullet := true)
    case HitWall => r.(hitWall := true)
    case HitRobot => r.(hitRobot := true)
    case Death => r.(death := true)
  }

  /** Two records with the same energy and the same flags are the same record. */
  lemma RecordExtensionality(r: EventRecord, s: EventRecord)
    requires r.energy == s.energy
    requires forall k :: Flag(r, k) == Flag(s, k)
    ensures r == s
  {
    assert Flag(r, BulletHit) == Flag(s, BulletHit);
    assert Flag(r, BulletMissed) == Flag(s, BulletMissed);
    assert Flag(r, HitByBullet) == Flag(s, HitByBullet);
    assert Flag(r, HitWall) == Flag(s, HitWall);
    assert Flag(r, HitRobot) == Flag(s, HitRobot);
    assert Flag(r, Death) == Flag(s, Death);
  }

  /** Setting a flag that is already set changes nothing: every callback is idempotent. */
  lemma SetFlagIdempotent(r: EventRecord, k: EventKind)
    ensures SetFlag(SetFlag(r, k), k) == SetFlag(r, k)
  {
    RecordExtensionality(SetFlag(SetFlag(r, k), k), SetFlag(r, k));
  }

  /**
   * The accumulator after the callbacks for `es` ran, in order, starting
   * from `r`: a flag is set exactly when it was set before or one of the
   * events is of its kind, and the energy is untouched.
   */
  function Deliver(r: EventRecord, es: seq<EventKind>): (r': EventRecord)
    ensures r'.energy == r.energy
    ensures forall k :: Flag(r', k) == (Flag(r, k) || k in es)
    decreases |es|
  {
    if |es| == 0 then r
    else
      var front, last := es[..|es| - 1], es[|es| - 1];
      assert es == front + [last];
      assert forall k :: k in es <==> k in front || k == last;
      SetFlag(Deliver(r, front), last)
  }

  /**
   * The order in which callbacks arrive within a tick does not matter:
   * any two batches with the same kinds of events give the same accumulator.
   */
  lemma DeliverOrderIndependent(r: EventRecord, es: seq<EventKind>, fs: seq<EventKind>)
    requires forall k :: k in es <==> k in fs
    ensures Deliver(r, es) == Deliver(r, fs)
  {
    RecordExtensionality(Deliver(r, es), Deliver(r, fs));
  }

  /** A flag counted as 0 or 1. */
  function Count(b: bool): real {
    if b then 1.0 else 0.0
  }

  /** The reward weight of each kind of event. */
  function Weight(k: EventKind): real {
    match k
    case BulletHit => 10.0
    case BulletMissed => -1.0
    case HitByBullet => -3.0
    case HitWall => -1.0
    case HitRobot => -1.0
    case Death => -10.0
  }

  /**
   * The reward of a tick, as `logic()` sums it: a fixed amount for each
   * flag that is set, plus 0.02 per unit of energy gained since the
   * accumulator was installed. The events alone contribute between -16
   * (everything but a bullet hit) and +10 (only a bullet hit).
   */
  function Reward(ev: EventRecord, energyNow: real): (r: real)
    ensures -16.0 <= r - 0.02 * (energyNow - ev.energy) <= 10.0
  {
    (if ev.bulletHit then 10.0 else 0.0) +
    (if ev.bulletMissed then -1.0 else 0.0) +
    (if ev.hitByBullet then -3.0 else 0.0) +
    (if ev.hitRobot then -1.0 else 0.0) +
    (if ev.hitWall then -1.0 else 0.0) +
    (if ev.death then -10.0 else 0.0) +
    (energyNow - ev.energy) * 0.02
  }

  /** The reward is linear in the 0/1 flags and in the energy change. */
  lemma RewardIsLinear(ev: EventRecord, energyNow: real)
    ensures Reward(ev, energyNow) ==
      10.0 * Count(ev.bulletHit) - Count(ev.bulletMissed) - 3.0 * Count(ev.hitByBullet)
      - Count(ev.hitRobot) - Count(ev.hitWall) - 10.0 * Count(ev.death)
      + 0.02 * (energyNow - ev.energy)
  {
  }

  /**
   * The terms are independent: setting one more flag adds exactly that
   * event's weight, whatever else happened in the tick.
   */
  lemma RewardAdditive(ev: EventRecord, k: EventKind, energyNow: real)
    requires !Flag(ev, k)
    ensures Reward(SetFlag(ev, k), energyNow) == Reward(ev, energyNow) + Weight(k)
  {
    match k
    case BulletHit =>
    case BulletMissed =>
    case HitByBullet =>
    case HitWall =>
    case HitRobot =>
    case Death =>
  }

  /** A tick with no events is rewarded only for its energy change. */
  lemma RewardOfQuietTick(energyAtStart: real, energyNow: real)
    ensures Reward(FreshRecord(energyAtStart), energyNow) == 0.02 * (energyNow - energyAtStart)
  {
  }

  /**
   * A tick that started at energy 80, hit the enemy and the wall, and
   * ended at energy 78 is rewarded 10 - 1 + 0.02 * (78 - 80) = 8.96.
   */
  lemma RewardExample()
    ensures Reward(Deliver(FreshRecord(80.0), [BulletHit, HitWall]), 78.0) == 8.96
  {
  }

  /**
   * `Events`: the accumulator object that the event callbacks update in
   * place during a tick.
   */
  class Events {
    var energy: real
    var bulletHit: bool
    var bulletMissed: bool
    var hitByBullet: bool
    var hitWall: bool
    var hitRobot: bool
    var death: bool

    /** The accumulator's current value. */
    function Record(): EventRecord
      reads this
    {
      EventRecord(energy, bulletHit, bulletMissed, hitByBullet, hitWall, hitRobot, death)
    }

    /** `Events(energy)`: all flags false, the given energy stored. */
    constructor (energy: real)
      ensures Record() == FreshRecord(energy)
    {
      this.energy := energy;
      bulletHit, bulletMissed, hitByBullet := false, false, false;
      hitWall, hitRobot, death := false, false, false;
    }
  }
}
