/** Spawner: an enemy spawner entity. It animates in, drives to its
    destination slot, spawns groups of enemies on its own scaled clock, and on
    death releases the slots it holds. Coroutines are modelled as a routine
    state advanced by Resume, one yield at a time; the spawn and destination
    rings are abstract sets of filled slot indices. */
module Spawners {
  import opened EffectorStacks
  import opened Entities

  /** _nextGroupTime; float.MaxValue ("while spawning, far away") is Never,
      since an alive time grown by frame deltas does not reach it. */
  datatype GroupTime = Never | At(time: real)

  /** The coroutine held in _runningCo, with the locals of SpawnGroupCo. */
  datatype Routine = NoRoutine | AnimateIn | SpawnGroup(spawned: int, nextEnemyTime: real) | Dissolve

  datatype Settings = Settings(timeBeforeInitialGroup: real, numberToSpawn: int,
                               timeBetweenEnemies: real, timeBetweenGroups: real)

  /** Default inspector values: 8 s before the first group, 0.25 s between
      enemies, 20 s between groups. */
  function DefaultSettings(numberToSpawn: int): Settings
  {
    Settings(8.0, numberToSpawn, 0.25, 20.0)
  }

  /** A snapshot of the spawner. Besides the source's fields it counts the
      enemies spawned, the slot releases made, whether Start has run, the
      enemy count when the current group began and the size of every group
      that ran to completion. */
  datatype State = State(health: int, isDead: bool, active: bool, nextGroupTime: GroupTime,
                         aliveTime: real, routine: Routine, kills: int, enemies: nat,
                         started: bool, spawnSlotClears: nat, destinationSlotClears: nat,
                         groupStartEnemies: nat, completedGroups: seq<int>)

  function Initial(kills: int): State
  {
    State(6, false, false, Never, 0.0, NoRoutine, kills, 0, false, 0, 0, 0, [])
  }

  function Max0(n: int): nat { if n < 0 then 0 else n }

  /** Die: one kill, dead, the spawn slot released only if still active, the
      destination slot always, and the running coroutine replaced by the
      dissolve. */
  function AfterDie(s: State): State
  {
    s.(kills := s.kills + 1, isDead := true,
       spawnSlotClears := s.spawnSlotClears + (if s.active then 1 else 0),
       destinationSlotClears := s.destinationSlotClears + 1,
       active := false, routine := Dissolve)
  }

  function AfterTakeDamage(s: State, damage: int): State
  {
    if s.isDead then s
    else
      var t := s.(health := s.health - damage);
      if t.health <= 0 then AfterDie(t) else t
  }

  /** The arrival branch of FixedUpdate; `arrived` is the engine's test that
      the spawner has reached its destination. */
  function AfterFixedUpdate(s: State, arrived: bool): State
  {
    if s.active && arrived then s.(active := false, spawnSlotClears := s.spawnSlotClears + 1) else s
  }

  /** AnimateInCo from its loop test: keep yielding until the visual has
      arrived, then schedule the first group and become active. */
  function AnimateInFrom(s: State, p: Settings, arrived: bool): State
  {
    if !arrived then s
    else s.(nextGroupTime := At(s.aliveTime + p.timeBeforeInitialGroup), active := true, routine := NoRoutine)
  }

  /** SpawnGroupCo from its loop test, with `spawned` enemies out and the
      next one due at `next`: spawn if due and yield, or finish the group. */
  function SpawnGroupFrom(s: State, p: Settings, spawned: int, next: real): State
  {
    if spawned < p.numberToSpawn then
      if s.aliveTime >= next then
        s.(routine := SpawnGroup(spawned + 1, s.aliveTime + p.timeBetweenEnemies), enemies := s.enemies + 1)
      else s.(routine := SpawnGroup(spawned, next))
    else
      s.(nextGroupTime := At(s.aliveTime + p.timeBetweenGroups), routine := NoRoutine,
         completedGroups := s.completedGroups + [spawned])
  }

  /** StartCoroutine(SpawnGroupCo()): its first part runs at once, up to the
      first yield. */
  function AfterGroupStart(s: State, p: Settings): State
  {
    SpawnGroupFrom(s.(nextGroupTime := Never, groupStartEnemies := s.enemies), p, 0, s.aliveTime + p.timeBetweenEnemies)
  }

  /** Start: AnimateInCo is started and runs up to its first yield. */
  function AfterStart(s: State, p: Settings, arrived: bool): State
  {
    AnimateInFrom(s.(routine := AnimateIn, started := true), p, arrived)
  }

  /** Update with the frame delta already scaled by the spawner's time
      scale. */
  function AfterUpdate(s: State, p: Settings, scaledDelta: real): State
  {
    if s.isDead then s
    else
      var t := if s.nextGroupTime.At? && s.aliveTime >= s.nextGroupTime.time then AfterGroupStart(s, p) else s;
      t.(aliveTime := t.aliveTime + scaledDelta)
  }

  /** The scheduler resumes the running coroutine after its yield. The
      dissolve's own progress is not modelled. */
  function AfterResume(s: State, p: Settings, arrived: bool): State
  {
    match s.routine
    case AnimateIn => AnimateInFrom(s, p, arrived)
    case SpawnGroup(spawned, next) => SpawnGroupFrom(s, p, spawned, next)
    case _ => s
  }

  datatype Op = Start(startArrived: bool) | Update(scaledDelta: real) | FixedUpdate(arrived: bool)
              | Resume(visualArrived: bool) | TakeDamage(damage: int)

  /** Unity calls Start once; the model also needs it before any death. */
  function Apply(s: State, p: Settings, op: Op): State
  {
    match op
    case Start(arrived) => if s.started || s.isDead then s else AfterStart(s, p, arrived)
    case Update(dt) => AfterUpdate(s, p, dt)
    case FixedUpdate(arrived) => AfterFixedUpdate(s, arrived)
    case Resume(arrived) => AfterResume(s, p, arrived)
    case TakeDamage(damage) => AfterTakeDamage(s, damage)
  }

  function Run(s: State, p: Settings, ops: seq<Op>): State
    decreases |ops|
  {
    if ops == [] then s else Run(Apply(s, p, ops[0]), p, ops[1..])
  }

  /** The bookkeeping the spawner keeps across any sequence of events. */
  predicate Inv(s: State, p: Settings)
  {
    // The spawn slot is released at most once: holding it (animating in or
    // driving) and having released it exclude each other.
    && s.spawnSlotClears + (if s.active then 1 else 0) + (if s.routine.AnimateIn? then 1 else 0) <= 1
    // The destination slot is released exactly when the spawner is dead.
    && s.destinationSlotClears == (if s.isDead then 1 else 0)
    && (s.isDead ==> !s.active && s.routine.Dissolve?)
    && (!s.started ==> !s.active && (s.isDead || s.spawnSlotClears == 0) && !s.routine.AnimateIn?
                       && s.nextGroupTime.Never? && !s.routine.SpawnGroup?)
    // A group is only ever scheduled while no coroutine runs.
    && (!s.isDead && s.nextGroupTime.At? ==> s.routine.NoRoutine?)
    && (s.routine.AnimateIn? ==> s.nextGroupTime.Never?)
    && (s.routine.SpawnGroup? ==>
          && s.nextGroupTime.Never?
          && 0 <= s.routine.spawned <= p.numberToSpawn
          && s.enemies == s.groupStartEnemies + s.routine.spawned)
    // Every group that ran to completion spawned NumberToSpawn enemies.
    && (forall i :: 0 <= i < |s.completedGroups| ==> s.completedGroups[i] == Max0(p.numberToSpawn))
  }

  lemma InitialInv(kills: int, p: Settings)
    ensures Inv(Initial(kills), p)
  {
  }

  lemma SpawnGroupFromKeepsInv(s: State, p: Settings, spawned: int, next: real)
    requires Inv(s, p) && !s.isDead && s.nextGroupTime.Never? && !s.routine.AnimateIn?
    requires 0 <= spawned && (spawned <= p.numberToSpawn || spawned == 0)
    requires s.enemies == s.groupStartEnemies + spawned
    requires s.started
    ensures Inv(SpawnGroupFrom(s, p, spawned, next), p)
  {
    var t := SpawnGroupFrom(s, p, spawned, next);
    if p.numberToSpawn <= spawned {
      assert spawned == Max0(p.numberToSpawn);
      forall i | 0 <= i < |t.completedGroups|
        ensures t.completedGroups[i] == Max0(p.numberToSpawn)
      {
        if i < |s.completedGroups| {
          assert t.completedGroups[i] == s.completedGroups[i];
        }
      }
    }
  }

  lemma ApplyKeepsInv(s: State, p: Settings, op: Op)
    requires Inv(s, p)
    ensures Inv(Apply(s, p, op), p)
  {
    match op {
      case Start(arrived) =>
      case Update(dt) =>
        if !s.isDead && s.nextGroupTime.At? && s.aliveTime >= s.nextGroupTime.time {
          var u := s.(nextGroupTime := Never, groupStartEnemies := s.enemies);
          assert Inv(u, p);
          SpawnGroupFromKeepsInv(u, p, 0, s.aliveTime + p.timeBetweenEnemies);
        }
      case FixedUpdate(arrived) =>
      case Resume(arrived) =>
        if s.routine.SpawnGroup? {
          SpawnGroupFromKeepsInv(s, p, s.routine.spawned, s.routine.nextEnemyTime);
        }
      case TakeDamage(damage) =>
    }
  }

  lemma {:induction false} RunKeepsInv(s: State, p: Settings, ops: seq<Op>)
    requires Inv(s, p)
    ensures Inv(Run(s, p, ops), p)
    decreases |ops|
  {
    if ops != [] {
      ApplyKeepsInv(s, p, ops[0]);
      RunKeepsInv(Apply(s, p, ops[0]), p, ops[1..]);
    }
  }

  /** Over any lifetime: the spawn slot is released at most once, the
      destination slot once if and only if the spawner died, and every
      completed group spawned exactly NumberToSpawn enemies (none if that is
      negative). */
  lemma SlotsReleasedAtMostOnce(kills: int, p: Settings, ops: seq<Op>)
    ensures var s := Run(Initial(kills), p, ops);
      && s.spawnSlotClears <= 1
      && s.destinationSlotClears == (if s.isDead then 1 else 0)
      && forall i :: 0 <= i < |s.completedGroups| ==> s.completedGroups[i] == Max0(p.numberToSpawn)
  {
    InitialInv(kills, p);
    RunKeepsInv(Initial(kills), p, ops);
  }

  /** TakeDamage: no effect once dead; otherwise health drops by the damage
      and the spawner dies exactly when health reaches 0 or below. */
  lemma TakeDamageDiesAtZero(s: State, damage: int)
    ensures s.isDead ==> AfterTakeDamage(s, damage) == s
    ensures !s.isDead ==> AfterTakeDamage(s, damage).health == s.health - damage
    ensures !s.isDead ==> (AfterTakeDamage(s, damage).isDead <==> s.health - damage <= 0)
    ensures !s.isDead && s.health - damage <= 0 ==> AfterTakeDamage(s, damage).kills == s.kills + 1
    ensures !s.isDead && s.health - damage > 0 ==> AfterTakeDamage(s, damage).kills == s.kills
  {
  }

  /** A dead spawner's Update starts no group and does not advance its
      alive time. */
  lemma DeadUpdateIsNoop(s: State, p: Settings, scaledDelta: real)
    requires s.isDead
    ensures AfterUpdate(s, p, scaledDelta) == s
  {
  }

  /** Active only becomes true where the animate-in coroutine finishes. */
  lemma OnlyAnimateInActivates(s: State, p: Settings, op: Op)
    requires Inv(s, p) && !s.active && Apply(s, p, op).active
    ensures op.Start? || (op.Resume? && s.routine.AnimateIn?)
  {
  }

  /** While a group is spawning the next group is never due. */
  lemma GroupStartClearsSchedule(s: State, p: Settings)
    ensures var t := AfterGroupStart(s, p);
      (t.routine.SpawnGroup? ==> t.nextGroupTime.Never?)
      && (t.routine.NoRoutine? ==> t.nextGroupTime == At(s.aliveTime + p.timeBetweenGroups))
  {
  }

  /** A dead spawner that holds no routine but the dissolve is a fixed point:
      no later event changes its state, so a slot it has not released by
      then stays filled. */
  lemma {:induction false} DeadIsFinal(s: State, p: Settings, ops: seq<Op>)
    requires s.isDead && !s.active && s.routine.Dissolve?
    ensures Run(s, p, ops) == s
    decreases |ops|
  {
    if ops != [] {
      assert Apply(s, p, ops[0]) == s;
      DeadIsFinal(s, p, ops[1..]);
    }
  }

  /** As written, Die releases the spawn slot only when Active is set, and
      Active is set only at the end of AnimateInCo. A spawner killed while it
      is still animating in frees its destination slot but never its spawn
      slot, whatever happens afterwards. */
  lemma DeathWhileAnimatingInLeaksSpawnSlot(kills: int, p: Settings, later: seq<Op>)
    ensures var s := Run(Initial(kills), p, [Start(false), TakeDamage(6)] + later);
      s.isDead && s.spawnSlotClears == 0 && s.destinationSlotClears == 1
  {
    var s0 := Initial(kills);
    var s1 := Apply(s0, p, Start(false));
    assert s1.routine.AnimateIn? && !s1.active;
    var s2 := Apply(s1, p, TakeDamage(6));
    assert s2.isDead && s2.spawnSlotClears == 0 && s2.destinationSlotClears == 1;
    var ops := [Start(false), TakeDamage(6)] + later;
    assert ops[0] == Start(false) && ops[1..][0] == TakeDamage(6) && ops[1..][1..] == later;
    assert Run(s0, p, ops) == Run(s2, p, later);
    DeadIsFinal(s2, p, later);
  }

  /** The spawn slot reserved for this spawner is still filled by it: from
      creation until it becomes active and arrives. */
  predicate SpawnSlotHeld(s: State)
  {
    !s.isDead && (!s.started || s.routine.AnimateIn? || s.active)
  }

  /** Die releasing the spawn slot whenever the spawner still holds it,
      including while it animates in. */
  function AfterDieCorrected(s: State): State
  {
    s.(kills := s.kills + 1, isDead := true,
       spawnSlotClears := s.spawnSlotClears + (if SpawnSlotHeld(s) then 1 else 0),
       destinationSlotClears := s.destinationSlotClears + 1,
       active := false, routine := Dissolve)
  }

  function AfterTakeDamageCorrected(s: State, damage: int): State
  {
    if s.isDead then s
    else
      var t := s.(health := s.health - damage);
      if t.health <= 0 then AfterDieCorrected(t) else t
  }

  /** Apply with the corrected death; every other event is unchanged. */
  function ApplyCorrected(s: State, p: Settings, op: Op): State
  {
    match op
    case TakeDamage(damage) => AfterTakeDamageCorrected(s, damage)
    case _ => Apply(s, p, op)
  }

  function RunCorrected(s: State, p: Settings, ops: seq<Op>): State
    decreases |ops|
  {
    if ops == [] then s else RunCorrected(ApplyCorrected(s, p, ops[0]), p, ops[1..])
  }

  /** Inv, plus: an alive spawner has released its spawn slot exactly when it
      no longer holds it, and a dead one has released it once. */
  predicate InvCorrected(s: State, p: Settings)
  {
    && Inv(s, p)
    && (s.active ==> s.started)
    && (!s.isDead ==> s.spawnSlotClears + (if SpawnSlotHeld(s) then 1 else 0) == 1)
    && (s.isDead ==> s.spawnSlotClears == 1)
  }

  lemma ApplyCorrectedKeepsInv(s: State, p: Settings, op: Op)
    requires InvCorrected(s, p)
    ensures InvCorrected(ApplyCorrected(s, p, op), p)
  {
    ApplyKeepsInv(s, p, op);
    match op {
      case TakeDamage(damage) =>
      case _ =>
    }
  }

  lemma {:induction false} RunCorrectedKeepsInv(s: State, p: Settings, ops: seq<Op>)
    requires InvCorrected(s, p)
    ensures InvCorrected(RunCorrected(s, p, ops), p)
    decreases |ops|
  {
    if ops != [] {
      ApplyCorrectedKeepsInv(s, p, ops[0]);
      RunCorrectedKeepsInv(ApplyCorrected(s, p, ops[0]), p, ops[1..]);
    }
  }

  /** With the corrected death, over any lifetime each slot is released
      exactly once by the time the spawner is dead, and an alive spawner has
      released its spawn slot exactly when it no longer holds it. */
  lemma SlotsReleasedExactlyOnceCorrected(kills: int, p: Settings, ops: seq<Op>)
    ensures var s := RunCorrected(Initial(kills), p, ops);
      && s.spawnSlotClears <= 1
      && (s.isDead ==> s.spawnSlotClears == 1 && s.destinationSlotClears == 1)
      && (!s.isDead ==> (s.spawnSlotClears == 1 <==> !SpawnSlotHeld(s)))
  {
    InitialInv(kills, p);
    RunCorrectedKeepsInv(Initial(kills), p, ops);
  }

  /** A slot ring: the set of filled slot indices. */
  class SlotLayer {
    var filled: set<int>

    constructor (filled: set<int>)
      ensures this.filled == filled
    {
      this.filled := filled;
    }

    method SetSlotClear(slot: int)
      modifies this
      ensures filled == old(filled) - {slot}
    {
      filled := filled - {slot};
    }
  }

  /** GameManager.Kills. */
  class KillCounter {
    var kills: int

    constructor ()
      ensures kills == 0
    {
      kills := 0;
    }
  }

  class Spawner {
    /** The Entity part: the spawner's own time-scale stack and IsDead. */
    const entity: Entity
    const settings: Settings
    const killCounter: KillCounter
    /** The SpawnRef given by SetDestination. */
    const spawnLayer: SlotLayer
    const spawnSlot: int
    const destinationLayer: SlotLayer
    const destinationSlot: int

    var health: int
    var active: bool
    var nextGroupTime: GroupTime
    var aliveTime: real
    var routine: Routine
    var enemies: nat
    ghost var started: bool
    ghost var spawnSlotClears: nat
    ghost var destinationSlotClears: nat
    ghost var groupStartEnemies: nat
    ghost var completedGroups: seq<int>

    ghost function Snapshot(): State
      reads this, entity, killCounter
    {
      State(health, entity.isDead, active, nextGroupTime, aliveTime, routine, killCounter.kills, enemies,
            started, spawnSlotClears, destinationSlotClears, groupStartEnemies, completedGroups)
    }

    ghost predicate Valid()
      reads this, entity, killCounter
    {
      Inv(Snapshot(), settings)
    }

    constructor (entity: Entity, settings: Settings, killCounter: KillCounter,
                 spawnLayer: SlotLayer, spawnSlot: int, destinationLayer: SlotLayer, destinationSlot: int)
      requires !entity.isDead
      ensures this.entity == entity && this.settings == settings && this.killCounter == killCounter
      ensures this.spawnLayer == spawnLayer && this.spawnSlot == spawnSlot
      ensures this.destinationLayer == destinationLayer && this.destinationSlot == destinationSlot
      ensures Snapshot() == Initial(killCounter.kills) && Valid()
    {
      this.entity := entity;
      this.settings := settings;
      this.killCounter := killCounter;
      this.spawnLayer := spawnLayer;
      this.spawnSlot := spawnSlot;
      this.destinationLayer := destinationLayer;
      this.destinationSlot := destinationSlot;
      health := 6;
      active := false;
      nextGroupTime := Never;
      aliveTime := 0.0;
      routine := NoRoutine;
      enemies := 0;
      started := false;
      spawnSlotClears := 0;
      destinationSlotClears := 0;
      groupStartEnemies := 0;
      completedGroups := [];
      InitialInv(killCounter.kills, settings);
    }

    /** The audio cue, spin speed and the visual's motion are not modelled;
        `arrived` is whether the visual is already at its start position. */
    method Start(arrived: bool)
      requires Valid() && !started && !entity.isDead
      modifies this
      ensures Valid()
      ensures Snapshot() == AfterStart(old(Snapshot()), settings, arrived)
    {
      routine := AnimateIn;
      started := true;
      ResumeAnimateIn(arrived);
      ApplyKeepsInv(old(Snapshot()), settings, Op.Start(arrived));
    }

    method ResumeAnimateIn(arrived: bool)
      requires routine.AnimateIn?
      modifies this
      ensures Snapshot() == AnimateInFrom(old(Snapshot()), settings, arrived)
    {
      if arrived {
        nextGroupTime := At(aliveTime + settings.timeBeforeInitialGroup);
        active := true;
        routine := NoRoutine;
      }
    }

    method ResumeSpawnGroup(spawned: int, next: real)
      modifies this
      ensures Snapshot() == SpawnGroupFrom(old(Snapshot()), settings, spawned, next)
    {
      if spawned < settings.numberToSpawn {
        if aliveTime >= next {
          enemies := enemies + 1;
          routine := SpawnGroup(spawned + 1, aliveTime + settings.timeBetweenEnemies);
        } else {
          routine := SpawnGroup(spawned, next);
        }
      } else {
        nextGroupTime := At(aliveTime + settings.timeBetweenGroups);
        routine := NoRoutine;
        completedGroups := completedGroups + [spawned];
      }
    }

    /** The scheduler resumes whichever coroutine is running. */
    method Resume(arrived: bool)
      requires Valid()
      modifies this
      ensures Valid()
      ensures Snapshot() == AfterResume(old(Snapshot()), settings, arrived)
    {
      match routine {
        case AnimateIn => ResumeAnimateIn(arrived);
        case SpawnGroup(spawned, next) => ResumeSpawnGroup(spawned, next);
        case NoRoutine =>
        case Dissolve =>
      }
      ApplyKeepsInv(old(Snapshot()), settings, Op.Resume(arrived));
    }

    method Update(deltaTime: real)
      requires Valid()
      modifies this
      ensures Valid()
      ensures Snapshot() == AfterUpdate(old(Snapshot()), settings, deltaTime * entity.localTimeScale.Current())
    {
      if entity.isDead {
        return;
      }
      var timeScale := entity.CurrentTimeScale();
      Advance(deltaTime * timeScale);
      ApplyKeepsInv(old(Snapshot()), settings, Op.Update(deltaTime * timeScale));
    }

    /** Update past the IsDead test, with the scaled delta. */
    method Advance(scaledDelta: real)
      requires !entity.isDead
      modifies this
      ensures Snapshot() == AfterUpdate(old(Snapshot()), settings, scaledDelta)
    {
      if nextGroupTime.At? && aliveTime >= nextGroupTime.time {
        nextGroupTime := Never;
        groupStartEnemies := enemies;
        ResumeSpawnGroup(0, aliveTime + settings.timeBetweenEnemies);
      }
      aliveTime := aliveTime + scaledDelta;
    }

    /** Rotation and motion are not modelled; `arrived` is the engine's test
        that the spawner has reached its destination. */
    method FixedUpdate(arrived: bool)
      requires Valid()
      modifies this, spawnLayer
      ensures Valid()
      ensures Snapshot() == AfterFixedUpdate(old(Snapshot()), arrived)
      ensures spawnLayer.filled == old(spawnLayer.filled) - (if old(active) && arrived then {spawnSlot} else {})
    {
      if active && arrived {
        active := false;
        spawnLayer.SetSlotClear(spawnSlot);
        spawnSlotClears := spawnSlotClears + 1;
      }
      ApplyKeepsInv(old(Snapshot()), settings, Op.FixedUpdate(arrived));
    }

    /** The death sound, the physics changes and the dissolve itself are not
        modelled. */
    method Die()
      requires !entity.isDead
      modifies this, entity, killCounter, spawnLayer, destinationLayer
      ensures Snapshot() == AfterDie(old(Snapshot()))
      ensures spawnLayer != destinationLayer ==>
        && spawnLayer.filled == old(spawnLayer.filled) - (if old(active) then {spawnSlot} else {})
        && destinationLayer.filled == old(destinationLayer.filled) - {destinationSlot}
      ensures spawnLayer == destinationLayer ==>
        destinationLayer.filled == old(destinationLayer.filled) - (if old(active) then {spawnSlot} else {}) - {destinationSlot}
    {
      killCounter.kills := killCounter.kills + 1;
      entity.isDead := true;
      if active {
        spawnLayer.SetSlotClear(spawnSlot);
        spawnSlotClears := spawnSlotClears + 1;
      }
      destinationLayer.SetSlotClear(destinationSlot);
      destinationSlotClears := destinationSlotClears + 1;
      active := false;
      routine := Dissolve;
    }

    method TakeDamage(damage: int)
      requires Valid()
      modifies this, entity, killCounter, spawnLayer, destinationLayer
      ensures Valid()
      ensures Snapshot() == AfterTakeDamage(old(Snapshot()), damage)
      // A hit that does not kill leaves both slot rings alone.
      ensures old(entity.isDead) || old(health) - damage > 0 ==> unchanged(spawnLayer, destinationLayer)
      // A killing hit releases the slots as Die does.
      ensures !old(entity.isDead) && old(health) - damage <= 0 && spawnLayer != destinationLayer ==>
        && spawnLayer.filled == old(spawnLayer.filled) - (if old(active) then {spawnSlot} else {})
        && destinationLayer.filled == old(destinationLayer.filled) - {destinationSlot}
      ensures !old(entity.isDead) && old(health) - damage <= 0 && spawnLayer == destinationLayer ==>
        destinationLayer.filled == old(destinationLayer.filled) - (if old(active) then {spawnSlot} else {}) - {destinationSlot}
    {
      if entity.isDead {
        return;
      }
      health := health - damage;
      if health <= 0 {
        Die();
      }
      ApplyKeepsInv(old(Snapshot()), settings, Op.TakeDamage(damage));
    }
  }
}
