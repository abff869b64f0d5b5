/** PlayerController: the player's health, which respawns to its starting
    value instead of dying, and the trigger that fires the weapon. The
    controller is a singleton behaviour. */
module Players {
  import opened WeaponStages
  import opened Weapons
  import opened Singletons

  /** TakeDamage on the health value: Die restores the maximum once health
      reaches 0 or below. */
  function AfterDamage(health: int, maxHealth: int, damage: int): int
  {
    if health - damage <= 0 then maxHealth else health - damage
  }

  /** With a positive maximum the player is never left at 0 or below, and
      health never exceeds the larger of the maximum and its old value when
      the damage is not negative. */
  lemma DamageKeepsAlive(health: int, maxHealth: int, damage: int)
    requires 0 < maxHealth
    ensures 0 < AfterDamage(health, maxHealth, damage)
    ensures 0 <= damage && health <= maxHealth ==> AfterDamage(health, maxHealth, damage) <= maxHealth
    ensures AfterDamage(health, maxHealth, damage) == maxHealth || AfterDamage(health, maxHealth, damage) == health - damage
  {
  }

  function AfterDamages(health: int, maxHealth: int, damages: seq<int>): int
    decreases |damages|
  {
    if damages == [] then health else AfterDamages(AfterDamage(health, maxHealth, damages[0]), maxHealth, damages[1..])
  }

  /** Any run of non-negative hits keeps health in 1 .. maximum. */
  lemma {:induction false} DamagesKeepAlive(health: int, maxHealth: int, damages: seq<int>)
    requires 0 < health <= maxHealth
    requires forall i :: 0 <= i < |damages| ==> 0 <= damages[i]
    ensures 0 < AfterDamages(health, maxHealth, damages) <= maxHealth
    decreases |damages|
  {
    if damages != [] {
      DamageKeepsAlive(health, maxHealth, damages[0]);
      assert forall i :: 0 <= i < |damages[1..]| ==> damages[1..][i] == damages[i + 1];
      DamagesKeepAlive(AfterDamage(health, maxHealth, damages[0]), maxHealth, damages[1..]);
    }
  }

  /** The player's pose; Die assigns the transform its own position and
      rotation (the respawn point is the player itself). */
  datatype Pose = Pose(position: (real, real, real), rotation: (real, real, real, real))

  class PlayerController {
    const singleton: Singleton
    const weapon: Weapon
    var health: int
    var maxHealth: int
    var pose: Pose

    constructor (singleton: Singleton, weapon: Weapon, health: int, pose: Pose)
      ensures this.singleton == singleton && this.weapon == weapon
      ensures this.health == health && maxHealth == 0 && this.pose == pose
    {
      this.singleton := singleton;
      this.weapon := weapon;
      this.health := health;
      maxHealth := 0;
      this.pose := pose;
    }

    /** SingletonBehaviour.Awake, then Initialize only for the registered
        instance. */
    method Awake()
      requires singleton !in singleton.slot.awake && singleton !in singleton.slot.duplicates
      requires singleton !in singleton.slot.initialized
      requires !singleton.isInitialized && !singleton.isDuplicate
      modifies this, singleton, singleton.slot
      ensures singleton.slot.Registry() == AfterAwake(old(singleton.slot.Registry()), singleton)
      ensures health == old(health) && pose == old(pose)
      ensures old(singleton.slot.instance) == null ==> maxHealth == health && singleton.isInitialized
      ensures old(singleton.slot.instance) != null ==> maxHealth == old(maxHealth) && singleton.isDuplicate
    {
      var initialize := singleton.Awake();
      if initialize {
        Initialize();
      }
    }

    /** Records the starting health as the maximum. */
    method Initialize()
      modifies this
      ensures maxHealth == health && health == old(health) && pose == old(pose)
    {
      maxHealth := health;
    }

    method TakeDamage(damage: int)
      modifies this
      ensures health == AfterDamage(old(health), maxHealth, damage)
      ensures maxHealth == old(maxHealth) && pose == old(pose)
    {
      health := health - damage;
      if health <= 0 {
        Die();
      }
    }

    /** Respawns in place: the pose is written back unchanged and health is
        restored. */
    method Die()
      modifies this
      ensures health == maxHealth && maxHealth == old(maxHealth) && pose == old(pose)
    {
      var respawn := pose;
      pose := Pose(respawn.position, respawn.rotation);
      health := maxHealth;
    }

    /** The first-shot flag is passed on but the weapon ignores it; the
        forward speed is the movement's, which the weapon reads itself. */
    method Shoot(firstShot: bool, forwardSpeed: real) returns (fired: bool)
      requires Elapsed(weapon.lastShotTime, weapon.nextShot, weapon.scaledPlayerTime) ==> weapon.data.Stage().Some?
      modifies weapon
      ensures fired <==> old(Elapsed(weapon.lastShotTime, weapon.nextShot, weapon.scaledPlayerTime))
      ensures !fired ==> weapon.Snapshot() == old(weapon.Snapshot())
      ensures fired ==> weapon.data.Stage().Some?
      ensures fired ==> weapon.Snapshot() == Fired(old(weapon.Snapshot()), weapon.data.Stage().value, forwardSpeed)
    {
      fired := weapon.Fire(forwardSpeed);
    }
  }
}
