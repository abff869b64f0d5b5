/** Weapon: a fire-rate gate on the owner's scaled time. Update advances a
    private clock by deltaTime times the owner's time scale; Fire succeeds once
    the cooldown set by the previous shot has elapsed on that clock. */
module Weapons {
  import opened Common
  import opened EffectorStacks
  import opened Entities
  import opened WeaponStages

  /** The cooldown 1 / (RPM / 60). With RPM 0 the float division gives
      +Infinity, so the weapon never becomes ready again: Never. */
  datatype Cooldown = After(seconds: real) | Never

  function CooldownFor(rpm: real): (c: Cooldown)
    ensures c.Never? <==> rpm == 0.0
    ensures c.After? ==> c.seconds * (rpm / 60.0) == 1.0
  {
    if rpm == 0.0 then Never else After(1.0 / (rpm / 60.0))
  }

  /** The gate: the previous shot time plus the cooldown has been reached. */
  predicate Elapsed(lastShotTime: real, nextShot: Cooldown, now: real)
  {
    nextShot.After? && lastShotTime + nextShot.seconds <= now
  }

  /** A bullet handed out by a successful Fire: the scaled time of the shot,
      the cooldown that had to elapse before it, and the bullet's speed and
      damage. */
  datatype Shot = Shot(time: real, waited: Cooldown, speed: real, damage: int)

  /** A snapshot of the weapon's timing state and the shots it has fired. */
  datatype Clock = Clock(scaledTime: real, nextShot: Cooldown, lastShotTime: real, shots: seq<Shot>)

  function Ticked(c: Clock, deltaTime: real, timeScale: real): Clock
  {
    c.(scaledTime := c.scaledTime + deltaTime * timeScale)
  }

  /** Fire with the stage in force: a no-op when the cooldown has not
      elapsed. */
  function Fired(c: Clock, stage: WeaponStage, forwardSpeed: real): Clock
  {
    if !Elapsed(c.lastShotTime, c.nextShot, c.scaledTime) then c
    else Clock(c.scaledTime, CooldownFor(stage.rpm), c.scaledTime,
               c.shots + [Shot(c.scaledTime, c.nextShot, stage.initialSpeed + forwardSpeed, stage.damage)])
  }

  datatype Op = Tick(deltaTime: real, timeScale: real) | Fire(stage: WeaponStage, forwardSpeed: real)

  function Apply(c: Clock, op: Op): Clock
  {
    match op
    case Tick(dt, ts) => Ticked(c, dt, ts)
    case Fire(stage, speed) => Fired(c, stage, speed)
  }

  function Run(c: Clock, ops: seq<Op>): Clock
    decreases |ops|
  {
    if ops == [] then c else Run(Apply(c, ops[0]), ops[1..])
  }

  /** Every shot after the first came at least the cooldown it waited for
      after the shot before it, and the latest shot is the recorded one. */
  predicate ShotsSpaced(c: Clock)
  {
    && (c.shots != [] ==> c.shots[|c.shots| - 1].time == c.lastShotTime)
    && (forall i :: 0 < i < |c.shots| ==>
          c.shots[i].waited.After? && c.shots[i - 1].time + c.shots[i].waited.seconds <= c.shots[i].time)
  }

  lemma FiredKeepsSpacing(c: Clock, stage: WeaponStage, forwardSpeed: real)
    requires ShotsSpaced(c)
    ensures ShotsSpaced(Fired(c, stage, forwardSpeed))
  {
    var d := Fired(c, stage, forwardSpeed);
    if d != c {
      forall i | 0 < i < |d.shots|
        ensures d.shots[i].waited.After? && d.shots[i - 1].time + d.shots[i].waited.seconds <= d.shots[i].time
      {
        if i < |c.shots| {
          assert d.shots[i] == c.shots[i] && d.shots[i - 1] == c.shots[i - 1];
        }
      }
    }
  }

  /** Whatever the frame deltas and time scales, any run of updates and fire
      attempts produces shots spaced by the cooldown each one waited for. */
  lemma {:induction false} RunKeepsSpacing(c: Clock, ops: seq<Op>)
    requires ShotsSpaced(c)
    ensures ShotsSpaced(Run(c, ops))
    decreases |ops|
  {
    if ops != [] {
      var next := Apply(c, ops[0]);
      match ops[0] {
        case Tick(dt, ts) =>
          assert next.shots == c.shots && next.lastShotTime == c.lastShotTime;
        case Fire(stage, speed) =>
          FiredKeepsSpacing(c, stage, speed);
      }
      RunKeepsSpacing(next, ops[1..]);
    }
  }

  /** With the owner's time stopped, a blocked weapon stays blocked. */
  lemma {:induction false} FrozenStaysBlocked(c: Clock, ops: seq<Op>)
    requires !Elapsed(c.lastShotTime, c.nextShot, c.scaledTime)
    requires forall i :: 0 <= i < |ops| ==> ops[i].Tick? ==> ops[i].timeScale == 0.0
    ensures Run(c, ops).shots == c.shots
    decreases |ops|
  {
    if ops != [] {
      var next := Apply(c, ops[0]);
      assert next == c;
      forall i | 0 <= i < |ops[1..]|
        ensures ops[1..][i].Tick? ==> ops[1..][i].timeScale == 0.0
      {
        assert ops[1..][i] == ops[i + 1];
      }
      FrozenStaysBlocked(next, ops[1..]);
    }
  }

  class Weapon {
    const data: WeaponData
    var scaledPlayerTime: real
    var nextShot: Cooldown
    var lastShotTime: real
    var shots: seq<Shot>

    ghost function Snapshot(): Clock
      reads this
    {
      Clock(scaledPlayerTime, nextShot, lastShotTime, shots)
    }

    /** The field initialisers: clock 0, cooldown 1, last shot at -1, so the
        first shot is possible as soon as the clock reaches 0. */
    constructor (data: WeaponData)
      ensures this.data == data
      ensures Snapshot() == Clock(0.0, After(1.0), -1.0, [])
      ensures Elapsed(lastShotTime, nextShot, scaledPlayerTime)
    {
      this.data := data;
      scaledPlayerTime := 0.0;
      nextShot := After(1.0);
      lastShotTime := -1.0;
      shots := [];
    }

    /** CanShoot: the same gate, but against unscaled Time.time. */
    predicate CanShoot(time: real)
      reads this
    {
      Elapsed(lastShotTime, nextShot, time)
    }

    /** Start sets the cooldown from the stage in force; an empty stage list
        makes the Stage lookup throw, so the stage must exist. */
    method Start()
      requires data.Stage().Some?
      modifies this
      ensures Snapshot() == old(Snapshot()).(nextShot := CooldownFor(data.Stage().value.rpm))
    {
      nextShot := CooldownFor(data.stages[data.weaponStage].rpm);
    }

    method Update(deltaTime: real, owner: Entity)
      modifies this
      ensures Snapshot() == Ticked(old(Snapshot()), deltaTime, owner.localTimeScale.Current())
    {
      var timeScale := owner.CurrentTimeScale();
      scaledPlayerTime := scaledPlayerTime + deltaTime * timeScale;
    }

    /** Recoil, the random spread and the bullet pool are not modelled; the
        shot is recorded with the speed and damage the bullet is given. The
        stage is read only once the gate is open, so only then must it exist. */
    method Fire(forwardSpeed: real) returns (fired: bool)
      requires Elapsed(lastShotTime, nextShot, scaledPlayerTime) ==> data.Stage().Some?
      modifies this
      ensures fired <==> old(Elapsed(lastShotTime, nextShot, scaledPlayerTime))
      ensures !fired ==> Snapshot() == old(Snapshot())
      ensures fired ==> data.Stage().Some? && Snapshot() == Fired(old(Snapshot()), data.Stage().value, forwardSpeed)
    {
      if !Elapsed(lastShotTime, nextShot, scaledPlayerTime) {
        return false;
      }
      var waited := nextShot;
      lastShotTime := scaledPlayerTime;
      var stage := data.stages[data.weaponStage];
      nextShot := CooldownFor(stage.rpm);
      shots := shots + [Shot(scaledPlayerTime, waited, stage.initialSpeed + forwardSpeed, stage.damage)];
      return true;
    }
  }

  /** CanShoot and Fire disagree once the owner's time scale is not 1: after
      a shot at time 0 with a one-second cooldown, two real seconds at quarter
      speed put Time.time past the gate but the scaled clock only at 0.5. */
  lemma CanShootIgnoresTimeScale()
    ensures var c := Ticked(Clock(0.0, After(1.0), 0.0, []), 2.0, 0.25);
      Elapsed(c.lastShotTime, c.nextShot, 2.0) && !Elapsed(c.lastShotTime, c.nextShot, c.scaledTime)
  {
  }
}
