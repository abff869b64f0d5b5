# ludum-dare-49 gameplay core, modelled in Dafny

This project models the gameplay rules of the ludum-dare-49 Unity game. It
covers the following parts.

- **Time-scale stacks.** Every entity has a stack of time-scale effectors
  (`FloatEffectorStack`). Each effector is one owner's contribution. The
  stack folds the contributions through a combine function, starting from a
  default. Entities use `RoughAverage` with default 1.
- **Fields.** A field pushes its own time-scale effector when a body enters
  its trigger volume and pops it when the body leaves.
- **Small state machines and counters.**
  - A two-slot generic state machine.
  - The weapon's kill-threshold stage selector.
  - The weapon's fire-rate cooldown on the player's scaled clock.
  - The player's health and respawn.
  - The enemy spawner: health, death, releasing its spawn and destination
    slots, the animate-in sequence, and the group-spawning schedule.
- **Audio.**
  - The music manager: the highest qualifying music layer wins, with a
    clamped pitch and a stepped volume.
  - Audio cues: play requests are deferred by one frame, and a cue is
    repooled only when idle.
- **Engine-level helpers.**
  - Single-instance registration for singleton behaviours.
  - Save and restore of the global random generator around every draw of a
    seeded random context.
- **Utilities from `ClassExtensions.cs`.**
  - Index clamping and wrapping, defaulting lookups, `AddUnique`, and the
    counting and quantifier helpers.
  - String trimming and `FormatSeconds`/`FormatTimeSpan`.
  - Layer masks.
- **The `ShaderId` value type.**

Each C# class whose fields change in place is a Dafny `class` with those
fields. Each of its methods states its new state in one of two ways:
- in terms of a pure step function on a snapshot datatype, for example
  `Snapshot() == Changed(old(Snapshot()), newState)`;
- field by field.

The long-run properties are proved about those step functions and about
`Run` over sequences of events. Examples: a spawn slot is released at most
once, two shots are spaced by the cooldown, and a play request causes at
most one play.

Engine values are parameters. These include `Time.deltaTime`,
`Time.frameCount`, the arrival tests, `AudioSource.isPlaying` and
`Shader.PropertyToID`.

Callbacks are append-only logs of what they were invoked with. These
include `Changed`, `OnStateChange`, `Initialize`/`Shutdown` and the slot
releases.

C# `float` is `real`. The 32-bit layer and mask are `bv32`.

The stack's value depends on the order in which the effectors were pushed.
Take a stack with default 1, where A pushes 0 and then B pushes 2. The left
fold over insertion order gives ((1 + 0) / 2 + 2) / 2 = 1.25. If B pushes
before A, the same two effectors give 0.75
(`EffectorStacks.RoughAverageFoldIsOrderDependent`).

## Model

| member | source | states |
|---|---|---|
| EffectorStacks.Weights | Unity_ludum-dare-49/Assets/Scripts/FloatEffectorStack.cs:26 | the values the fold runs over are the stored contributions, one per entry, in order |
| EffectorStacks.Fold | Unity_ludum-dare-49/Assets/Scripts/FloatEffectorStack.cs:23-30 | the left fold of the combine function from the default over the contributions in insertion order; FoldSnoc and FoldPermutationInvariant state how it extends and when order does not matter |
| EffectorStacks.WeightOf | Unity_ludum-dare-49/Assets/Scripts/FloatEffectorStack.cs:34 | an owner has a contribution exactly when it is a key of the stack |
| EffectorStacks.HasOwnerSplit | Unity_ludum-dare-49/Assets/Scripts/FloatEffectorStack.cs:34 | key membership splits into the first entry and the rest |
| EffectorStacks.WeightOfAppend | Unity_ludum-dare-49/Assets/Scripts/FloatEffectorStack.cs:36 | adding a new entry at the end gives its owner that value and changes no other owner's value |
| EffectorStacks.Pushed | Unity_ludum-dare-49/Assets/Scripts/FloatEffectorStack.cs:32-39 | Push is first-write-wins: on a present key the value is kept and nothing is added; on a new key exactly that value is appended; keys stay unique |
| EffectorStacks.PushedKeepsOthers | Unity_ludum-dare-49/Assets/Scripts/FloatEffectorStack.cs:32-39 | Push changes no other owner's contribution |
| EffectorStacks.Updated | Unity_ludum-dare-49/Assets/Scripts/FloatEffectorStack.cs:41-48 | Update keeps the keys; it overwrites a present key's value and is a no-op on an absent key |
| EffectorStacks.UpdatedKeepsOthers | Unity_ludum-dare-49/Assets/Scripts/FloatEffectorStack.cs:41-48 | Update changes no other owner's contribution |
| EffectorStacks.PoppedRemovesOwner | Unity_ludum-dare-49/Assets/Scripts/FloatEffectorStack.cs:50-58 | after Pop the key is gone; popping an absent key changes nothing (fails silently) |
| EffectorStacks.Popped | Unity_ludum-dare-49/Assets/Scripts/FloatEffectorStack.cs:50-58 | Pop as a value: the entries without the owner, in order; PoppedRemovesOwner, PoppedIsSubset and PopUndoesPush state its meaning |
| EffectorStacks.PoppedIsSubset | Unity_ludum-dare-49/Assets/Scripts/FloatEffectorStack.cs:54 | Pop only removes entries, never adds or alters one |
| EffectorStacks.PoppedKeepsUnique | Unity_ludum-dare-49/Assets/Scripts/FloatEffectorStack.cs:54 | after Pop the keys are still unique, as in a dictionary |
| EffectorStacks.PoppedKeepsOthers | Unity_ludum-dare-49/Assets/Scripts/FloatEffectorStack.cs:50-58 | Pop changes no other owner's contribution |
| EffectorStacks.PopUndoesPush | Unity_ludum-dare-49/Assets/Scripts/FloatEffectorStack.cs:32-58 | pushing a new key and popping it restores the stack exactly |
| EffectorStacks.FoldSnoc | Unity_ludum-dare-49/Assets/Scripts/FloatEffectorStack.cs:23-30 | the lookup is a left fold: one more value combines with the fold of the others |
| EffectorStacks.RoughAverage | Unity_ludum-dare-49/Assets/Scripts/FloatEffectorStack.cs:66-69 | the result is the midpoint: equally far from both arguments and between them |
| EffectorStacks.RoughAverageCommutes | Unity_ludum-dare-49/Assets/Scripts/FloatEffectorStack.cs:66-69 | RoughAverage is commutative |
| EffectorStacks.RoughAverageNotAssociative | Unity_ludum-dare-49/Assets/Scripts/FloatEffectorStack.cs:66-69 | RoughAverage is not associative (a concrete triple) |
| EffectorStacks.RoughAverageFoldIsOrderDependent | Unity_ludum-dare-49/Assets/Scripts/FloatEffectorStack.cs:23-30 | from default 1, contributions 0 then 2 give 1.25 and 2 then 0 give 0.75, so the value depends on insertion order |
| EffectorStacks.RoughAverageNotRightCommutative | Unity_ludum-dare-49/Assets/Scripts/FloatEffectorStack.cs:66-69 | RoughAverage lacks the property that would make the fold order-independent |
| EffectorStacks.RightCommute | Unity_ludum-dare-49/Assets/Scripts/FloatEffectorStack.cs:23-30 | a right-commutative combine lets two consecutive fold steps swap |
| EffectorStacks.FoldMoveToFront | Unity_ludum-dare-49/Assets/Scripts/FloatEffectorStack.cs:23-30 | with a right-commutative combine, any contribution can be folded first |
| EffectorStacks.FoldPermutationInvariant | Unity_ludum-dare-49/Assets/Scripts/FloatEffectorStack.cs:23-30 | with a right-commutative combine the stack value does not depend on dictionary order |
| EffectorStacks.EffectorStack.constructor | Unity_ludum-dare-49/Assets/Scripts/FloatEffectorStack.cs:16-21 | a new stack is empty, keeps the combine function and default, and its value is the default |
| EffectorStacks.EffectorStack.LookupValue | Unity_ludum-dare-49/Assets/Scripts/FloatEffectorStack.cs:23-30 | the loop computes the left fold of the combine over the stored values from the default; an empty stack gives the default |
| EffectorStacks.EffectorStack.Push | Unity_ludum-dare-49/Assets/Scripts/FloatEffectorStack.cs:32-39 | the entries become Pushed; Changed fires with the new value only when the key was new |
| EffectorStacks.EffectorStack.Update | Unity_ludum-dare-49/Assets/Scripts/FloatEffectorStack.cs:41-48 | the entries become Updated; Changed fires only when the key was present |
| EffectorStacks.EffectorStack.Pop | Unity_ludum-dare-49/Assets/Scripts/FloatEffectorStack.cs:50-58 | the entries become Popped; Changed fires only when the key was present |
| EffectorStacks.EffectorStack.Clear | Unity_ludum-dare-49/Assets/Scripts/FloatEffectorStack.cs:60-64 | the stack is empty and Changed always fires, with the default |
| Entities.Entity.constructor | Unity_ludum-dare-49/Assets/Scripts/Entity.cs:26-27 | a new entity's stack is empty, uses RoughAverage with default 1, so its time scale is 1 |
| Entities.Entity.CurrentTimeScale | Unity_ludum-dare-49/Assets/Scripts/Entity.cs:29 | the time scale is exactly the stack's value (the global offset is not added) |
| Entities.GameTimeScaleOffsetCache.constructor | Unity_ludum-dare-49/Assets/Scripts/Entity.cs:8-9 | the cache starts at offset 0, frame -1 |
| Entities.GameTimeScaleOffsetCache.Read | Unity_ludum-dare-49/Assets/Scripts/Entity.cs:10-23 | the offset is recomputed as 1 minus the player's time scale, and the frame stamped, only when the stamp is older than the frame; otherwise the cached value is returned |
| Fields.EnterWeight | Unity_ludum-dare-49/Assets/Scripts/Field.cs:36-53 | only TimeSlow (0) and TimeSpeed (2) contribute to the stack |
| Fields.RemoveFirst | Unity_ludum-dare-49/Assets/Scripts/Field.cs:33 | List.Remove drops one occurrence when present and is silent otherwise |
| Fields.RemoveFirstUndoesAppend | Unity_ludum-dare-49/Assets/Scripts/Field.cs:21-33 | exit after enter restores the affected list when the body was absent |
| Fields.EnterTwiceExitOnce | Unity_ludum-dare-49/Assets/Scripts/Field.cs:21-33 | a body entered twice and exited once is still listed once |
| Fields.Rigidbody.constructor | Unity_ludum-dare-49/Assets/Scripts/Field.cs:16 | a rigid body may or may not carry an Entity |
| Fields.Field.constructor | Unity_ludum-dare-49/Assets/Scripts/Field.cs:8-10 | a new field has its effect and an empty affected list |
| Fields.Field.ApplyEffect | Unity_ludum-dare-49/Assets/Scripts/Field.cs:36-53 | the time effects push the field's own key with 0 or 2; the other effects leave the stack unchanged |
| Fields.Field.RemoveEffect | Unity_ludum-dare-49/Assets/Scripts/Field.cs:55-70 | both time effects pop the field's own key; the other effects leave the stack unchanged |
| Fields.Field.OnTriggerEnter | Unity_ludum-dare-49/Assets/Scripts/Field.cs:12-22 | no rigid body: nothing changes; otherwise the body is appended (even without an Entity) and an Entity's stack gets the field's effect |
| Fields.Field.OnTriggerExit | Unity_ludum-dare-49/Assets/Scripts/Field.cs:24-34 | no rigid body: nothing changes; otherwise one occurrence is removed and an Entity's stack loses the field's key |
| StateMachines.ChangeToCurrentIsNoop | Unity_ludum-dare-49/Assets/Scripts/Utils/StateMachine.cs:37 | changing to the current state changes nothing and fires no event |
| StateMachines.Changed | Unity_ludum-dare-49/Assets/Scripts/Utils/StateMachine.cs:34-48 | ChangeState as a value; ChangeToCurrentIsNoop, ChangeRecordsPrevious and ChangeThenRestore state its meaning |
| StateMachines.Restored | Unity_ludum-dare-49/Assets/Scripts/Utils/StateMachine.cs:50-60 | RestorePreviousState as a value; ChangeThenRestore and RestoreTwice state its meaning |
| StateMachines.ChangeRecordsPrevious | Unity_ludum-dare-49/Assets/Scripts/Utils/StateMachine.cs:40-47 | a real change makes the old current the previous state; an event carrying both fires exactly when events are on |
| StateMachines.ChangeThenRestore | Unity_ludum-dare-49/Assets/Scripts/Utils/StateMachine.cs:40-53 | change then restore returns to the original state (or, for a no-op change, to the previous one) |
| StateMachines.RestoreTwice | Unity_ludum-dare-49/Assets/Scripts/Utils/StateMachine.cs:53-59 | a second restore changes no state; its event reports the new state equal to the previous one |
| StateMachines.LastEventDescribesCurrent | Unity_ludum-dare-49/Assets/Scripts/Utils/StateMachine.cs:43-59 | with events on throughout, the last event always holds the current and previous states |
| StateMachines.SilentRunEmitsNothing | Unity_ludum-dare-49/Assets/Scripts/Utils/StateMachine.cs:43-59 | with events off, no sequence of changes and restores fires an event |
| StateMachines.StateMachine.Basic | Unity_ludum-dare-49/Assets/Scripts/Utils/StateMachine.cs:24-27 | the basic machine starts without events |
| StateMachines.StateMachine.constructor | Unity_ludum-dare-49/Assets/Scripts/Utils/StateMachine.cs:29-32 | the machine starts with the given event setting |
| StateMachines.StateMachine.SetTriggerEvents | Unity_ludum-dare-49/Assets/Scripts/Utils/StateMachine.cs:20 | only the event setting changes |
| StateMachines.StateMachine.ChangeState | Unity_ludum-dare-49/Assets/Scripts/Utils/StateMachine.cs:34-48 | the new state is Changed of the old one |
| StateMachines.StateMachine.RestorePreviousState | Unity_ludum-dare-49/Assets/Scripts/Utils/StateMachine.cs:50-60 | the new state is Restored of the old one |
| WeaponStages.HighestUnlocked | Unity_ludum-dare-49/Assets/Scripts/Player/WeaponData.cs:17-25 | the downward scan finds the highest stage whose requirement is below the kills, or 0; every stage above it is still locked |
| WeaponStages.StageFor | Unity_ludum-dare-49/Assets/Scripts/Player/WeaponData.cs:15-26 | the selected stage is unlocked or 0, no higher stage is unlocked, and it is a valid index of a non-empty list |
| WeaponStages.StageForUnique | Unity_ludum-dare-49/Assets/Scripts/Player/WeaponData.cs:15-26 | those conditions determine the stage, so CheckStage ignores the previous stage and is idempotent |
| WeaponStages.StageForMonotone | Unity_ludum-dare-49/Assets/Scripts/Player/WeaponData.cs:18-24 | more kills never select a lower stage |
| WeaponStages.WeaponData.constructor | Unity_ludum-dare-49/Assets/Scripts/Player/WeaponData.cs:10-13 | a new asset is at stage 0 |
| WeaponStages.WeaponData.Stage | Unity_ludum-dare-49/Assets/Scripts/Player/WeaponData.cs:8 | the lookup succeeds exactly when the index is in range, and gives that stage |
| WeaponStages.WeaponData.CheckStage | Unity_ludum-dare-49/Assets/Scripts/Player/WeaponData.cs:15-26 | the index becomes StageFor(kills), and with stages present the Stage lookup succeeds |
| WeaponStages.WeaponData.Reset | Unity_ludum-dare-49/Assets/Scripts/Player/WeaponData.cs:28-31 | the index becomes 0 |
| Weapons.CooldownFor | Unity_ludum-dare-49/Assets/Scripts/Player/Weapon.cs:48 | the cooldown times the shots per second is 1; RPM 0 never allows another shot |
| Weapons.FiredKeepsSpacing | Unity_ludum-dare-49/Assets/Scripts/Player/Weapon.cs:43-52 | a Fire keeps every two successful shots at least the cooldown apart on the scaled clock |
| Weapons.Ticked | Unity_ludum-dare-49/Assets/Scripts/Player/Weapon.cs:36-41 | Update advances the scaled clock by the delta times the time scale; FrozenStaysBlocked uses it |
| Weapons.Fired | Unity_ludum-dare-49/Assets/Scripts/Player/Weapon.cs:43-52 | Fire as a value: no change while the cooldown runs, else a shot with the stage's speed and damage and the stage's cooldown; FiredKeepsSpacing and RunKeepsSpacing state its meaning |
| Weapons.RunKeepsSpacing | Unity_ludum-dare-49/Assets/Scripts/Player/Weapon.cs:36-52 | over any run of updates and fires, successful shots stay spaced by the cooldown in force |
| Weapons.FrozenStaysBlocked | Unity_ludum-dare-49/Assets/Scripts/Player/Weapon.cs:38-45 | at time scale 0 a blocked weapon fires no shot, however many updates pass |
| Weapons.CanShootIgnoresTimeScale | Unity_ludum-dare-49/Assets/Scripts/Player/Weapon.cs:17-45 | CanShoot (unscaled time) can say yes while Fire (scaled time) refuses |
| Weapons.Weapon.constructor | Unity_ludum-dare-49/Assets/Scripts/Player/Weapon.cs:10-15 | scaled time 0, cooldown 1, last shot at -1, so the first shot is allowed |
| Weapons.Weapon.Start | Unity_ludum-dare-49/Assets/Scripts/Player/Weapon.cs:30-34 | the cooldown is set from the current stage's RPM |
| Weapons.Weapon.Update | Unity_ludum-dare-49/Assets/Scripts/Player/Weapon.cs:36-41 | scaled time grows by the frame delta times the owner's time scale |
| Weapons.Weapon.CanShoot | Unity_ludum-dare-49/Assets/Scripts/Player/Weapon.cs:17 | the cooldown gate on the given time; CanShootIgnoresTimeScale shows the unscaled clock can disagree with Fire |
| Weapons.Weapon.Fire | Unity_ludum-dare-49/Assets/Scripts/Player/Weapon.cs:43-52 | fires exactly when the cooldown has elapsed on the scaled clock; a closed gate changes nothing and needs no stage; an open one needs the current stage and records the shot, the time and that stage's cooldown |
| Music.AfterUpdate | Unity_ludum-dare-49/Assets/Scripts/MusicManager.cs:72-78 | pitch is the time scale clamped to [0.6, 1.4]; target volume is 0.5 or 0; volume moves towards it by at most the time scale, without overshoot |
| Music.FadeReachesTarget | Unity_ludum-dare-49/Assets/Scripts/MusicManager.cs:77 | at a positive time scale the volume reaches its target after enough updates |
| Music.FadeStep | Unity_ludum-dare-49/Assets/Scripts/MusicManager.cs:77 | a step that does not land on the target closes the gap by exactly the step |
| Music.StaysAtTarget | Unity_ludum-dare-49/Assets/Scripts/MusicManager.cs:77 | once at its target the volume stays there |
| Music.Chosen | Unity_ludum-dare-49/Assets/Scripts/MusicManager.cs:30-43 | the layer switched on is the highest one with EnemyCount below the count, or none; every layer above it does not qualify |
| Music.ScanStep | Unity_ludum-dare-49/Assets/Scripts/MusicManager.cs:34 | during the downward scan, a layer is switched on exactly when it is the chosen one |
| Music.NoneQualifies | Unity_ludum-dare-49/Assets/Scripts/MusicManager.cs:30-43 | when no layer qualifies, all are off |
| Music.MusicLayer.constructor | Unity_ludum-dare-49/Assets/Scripts/MusicManager.cs:62-70 | a layer starts without a source |
| Music.MusicLayer.UpdateSource | Unity_ludum-dare-49/Assets/Scripts/MusicManager.cs:72-78 | the source's settings become AfterUpdate of the old ones |
| Music.EnemyCounts | Unity_ludum-dare-49/Assets/Scripts/MusicManager.cs:68 | the thresholds, one per layer, in order |
| Music.MusicManager.constructor | Unity_ludum-dare-49/Assets/Scripts/MusicManager.cs:11-13 | the manager holds the base layer and the layer list |
| Music.MusicManager.Awake | Unity_ludum-dare-49/Assets/Scripts/MusicManager.cs:15-59 | every layer gets a source; a new one loops, plays and starts at volume 0; a layer with a source is untouched; the base layer ends at volume 1 |
| Music.MusicManager.CreateSourceForLayer | Unity_ludum-dare-49/Assets/Scripts/MusicManager.cs:46-59 | a layer that has a source is untouched; otherwise it gets a looping, playing source at volume 0, pitch and target kept |
| Music.MusicManager.Update | Unity_ludum-dare-49/Assets/Scripts/MusicManager.cs:25-44 | the base layer is always on; each other layer is updated with on exactly when it is the chosen one, so at most one is on |
| Music.MusicManager.FadeLayer | Unity_ludum-dare-49/Assets/Scripts/MusicManager.cs:32-43 | updating one layer's source leaves every other layer unchanged |
| Music.MusicManager.UpdateLayers | Unity_ludum-dare-49/Assets/Scripts/MusicManager.cs:30-43 | the scanning loop updates every layer, on exactly for the chosen one |
| AudioCues.RunAccountsPlays | Unity_ludum-dare-49/Assets/Scripts/AudioCue.cs:22-58 | over any run, source plays never exceed Play requests plus manual starts |
| AudioCues.FreshCuePlaysBounded | Unity_ludum-dare-49/Assets/Scripts/AudioCue.cs:31-58 | from a fresh cue, each Play causes at most one source play |
| AudioCues.PlayIsDeferredOneFrame | Unity_ludum-dare-49/Assets/Scripts/AudioCue.cs:31-58 | the first Update after Play only clears the this-frame flag; the second plays the source and clears the queue |
| AudioCues.NoRepoolWhileBusy | Unity_ludum-dare-49/Assets/Scripts/AudioCue.cs:43-72 | a queued or playing cue, or a manual one, is never repooled; an idle automatic one is |
| AudioCues.ScaledPitch | Unity_ludum-dare-49/Assets/Scripts/AudioCue.cs:62 | the pitch is the base pitch times the time scale, clamped to [0.6, 1.4] |
| AudioCues.AudioCue.constructor | Unity_ludum-dare-49/Assets/Scripts/AudioCue.cs:10-20 | a cue starts idle with base volume and pitch 1 |
| AudioCues.AudioCue.UpdateTimeScaledSound | Unity_ludum-dare-49/Assets/Scripts/AudioCue.cs:60-64 | pitch becomes ScaledPitch and volume the base volume |
| AudioCues.AudioCue.Start | Unity_ludum-dare-49/Assets/Scripts/AudioCue.cs:22-29 | a manual cue updates its sound and plays at once; an automatic one does nothing |
| AudioCues.AudioCue.Play | Unity_ludum-dare-49/Assets/Scripts/AudioCue.cs:31-41 | records the base volume and pitch, updates the sound and queues the play without starting it |
| AudioCues.AudioCue.CheckCueDeath | Unity_ludum-dare-49/Assets/Scripts/AudioCue.cs:66-72 | repools only when not playing and nothing is queued |
| AudioCues.AudioCue.Update | Unity_ludum-dare-49/Assets/Scripts/AudioCue.cs:43-58 | the cue's state becomes AfterUpdate, and pitch and volume follow the time scale |
| AudioCues.AudioCue.ClipEnd | Unity_ludum-dare-49/Assets/Scripts/AudioCue.cs:68 | the source stops playing when its clip ends; its base and current volume and pitch are kept |
| AudioCues.AudioCue.Reset | Unity_ludum-dare-49/Assets/Scripts/AudioCue.cs:74-78 | stops the source and empties the cue's time-scale stack, which notifies the default; the queue flags, volume and pitch are kept |
| AudioCues.AfterPlay | Unity_ludum-dare-49/Assets/Scripts/AudioCue.cs:31-41 | Play only sets both queue flags and counts the request; PlayIsDeferredOneFrame and RunAccountsPlays state its meaning |
| AudioCues.AfterUpdate | Unity_ludum-dare-49/Assets/Scripts/AudioCue.cs:43-58 | the death check for non-manual cues, then a request queued in an earlier frame starts the source; PlayIsDeferredOneFrame states it |
| AudioCues.AfterDeathCheck | Unity_ludum-dare-49/Assets/Scripts/AudioCue.cs:66-72 | an idle cue with nothing queued is repooled; NoRepoolWhileBusy states it |
| AudioCues.AfterReset | Unity_ludum-dare-49/Assets/Scripts/AudioCue.cs:74-78 | Reset stops the source and keeps the queue flags |
| Spawners.InitialInv | Unity_ludum-dare-49/Assets/Scripts/Spawner.cs:12-34 | a new spawner satisfies the slot and schedule bookkeeping |
| Spawners.SpawnGroupFromKeepsInv | Unity_ludum-dare-49/Assets/Scripts/Spawner.cs:185-208 | each step of SpawnGroupCo keeps the bookkeeping |
| Spawners.ApplyKeepsInv | Unity_ludum-dare-49/Assets/Scripts/Spawner.cs:67-149 | every event (Start, Update, FixedUpdate, coroutine step, TakeDamage) keeps the bookkeeping |
| Spawners.RunKeepsInv | Unity_ludum-dare-49/Assets/Scripts/Spawner.cs:67-149 | any sequence of events keeps the bookkeeping |
| Spawners.SlotsReleasedAtMostOnce | Unity_ludum-dare-49/Assets/Scripts/Spawner.cs:94-205 | across arrival and death the spawn slot is cleared at most once, the destination slot exactly once when dead, and every finished group spawned NumberToSpawn enemies |
| Spawners.TakeDamageDiesAtZero | Unity_ludum-dare-49/Assets/Scripts/Spawner.cs:120-137 | damage to a dead spawner changes nothing; otherwise health drops by the damage, and it dies (one kill) exactly at health 0 or below |
| Spawners.DeadUpdateIsNoop | Unity_ludum-dare-49/Assets/Scripts/Spawner.cs:80 | a dead spawner's Update neither starts a group nor advances its clock |
| Spawners.OnlyAnimateInActivates | Unity_ludum-dare-49/Assets/Scripts/Spawner.cs:227 | the spawner becomes active only at the end of the animate-in sequence |
| Spawners.GroupStartClearsSchedule | Unity_ludum-dare-49/Assets/Scripts/Spawner.cs:187-205 | while a group spawns the next group time is unset; after it, the next group is due after TimeBetweenGroups |
| Spawners.AfterDie | Unity_ludum-dare-49/Assets/Scripts/Spawner.cs:131-149 | Die as a value: one kill, dead, the spawn slot released only if active, the destination slot always, the dissolve replaces the routine; SlotsReleasedAtMostOnce and DeathWhileAnimatingInLeaksSpawnSlot state its effect |
| Spawners.AfterTakeDamage | Unity_ludum-dare-49/Assets/Scripts/Spawner.cs:120-129 | TakeDamage as a value; TakeDamageDiesAtZero states its meaning |
| Spawners.AfterFixedUpdate | Unity_ludum-dare-49/Assets/Scripts/Spawner.cs:94-102 | arrival while active deactivates and releases the spawn slot |
| Spawners.AnimateInFrom | Unity_ludum-dare-49/Assets/Scripts/Spawner.cs:217-228 | AnimateInCo from its loop test: on arrival the first group is scheduled and the spawner becomes active; OnlyAnimateInActivates states it |
| Spawners.SpawnGroupFrom | Unity_ludum-dare-49/Assets/Scripts/Spawner.cs:193-207 | SpawnGroupCo from its loop test; SpawnGroupFromKeepsInv and SlotsReleasedAtMostOnce show each finished group spawned NumberToSpawn enemies |
| Spawners.AfterUpdate | Unity_ludum-dare-49/Assets/Scripts/Spawner.cs:78-88 | Update as a value; DeadUpdateIsNoop and GroupStartClearsSchedule state its meaning |
| Spawners.DeadIsFinal | Unity_ludum-dare-49/Assets/Scripts/Spawner.cs:80-149 | a dead spawner with no routine but the dissolve is left unchanged by every later event |
| Spawners.DeathWhileAnimatingInLeaksSpawnSlot | Unity_ludum-dare-49/Assets/Scripts/Spawner.cs:138-139 | as written, a spawner killed while animating in ends dead with its destination slot released and its spawn slot never released, whatever follows |
| Spawners.AfterDieCorrected | Unity_ludum-dare-49/Assets/Scripts/Spawner.cs:131-149 | Die releasing the spawn slot whenever the spawner still holds it (not yet started, animating in, or active) |
| Spawners.ApplyCorrectedKeepsInv | Unity_ludum-dare-49/Assets/Scripts/Spawner.cs:67-149 | with the corrected death every event keeps the bookkeeping, and an alive spawner has released its spawn slot exactly when it no longer holds it |
| Spawners.RunCorrectedKeepsInv | Unity_ludum-dare-49/Assets/Scripts/Spawner.cs:67-149 | the same over any sequence of events |
| Spawners.SlotsReleasedExactlyOnceCorrected | Unity_ludum-dare-49/Assets/Scripts/Spawner.cs:131-149 | with the corrected death, a dead spawner has released each of its slots exactly once, and an alive one its spawn slot exactly when it no longer holds it |
| Spawners.SlotLayer.constructor | Unity_ludum-dare-49/Assets/Scripts/Spawner.cs:43 | a slot layer holds its filled slots |
| Spawners.SlotLayer.SetSlotClear | Unity_ludum-dare-49/Assets/Scripts/Spawner.cs:138-140 | clearing removes exactly that slot from the filled set |
| Spawners.KillCounter.constructor | Unity_ludum-dare-49/Assets/Scripts/Spawner.cs:136 | the kill count starts at 0 |
| Spawners.Spawner.constructor | Unity_ludum-dare-49/Assets/Scripts/Spawner.cs:12-34 | a new spawner has health 6, is inactive, has no group scheduled and holds its spawn reference |
| Spawners.Spawner.Start | Unity_ludum-dare-49/Assets/Scripts/Spawner.cs:67-70 | starts the animate-in sequence, up to its first yield |
| Spawners.Spawner.ResumeAnimateIn | Unity_ludum-dare-49/Assets/Scripts/Spawner.cs:217-228 | on arrival of the visual, schedules the first group and becomes active |
| Spawners.Spawner.ResumeSpawnGroup | Unity_ludum-dare-49/Assets/Scripts/Spawner.cs:193-207 | spawns one enemy when due, or finishes the group and schedules the next |
| Spawners.Spawner.Resume | Unity_ludum-dare-49/Assets/Scripts/Spawner.cs:185-229 | the running coroutine advances by one yield |
| Spawners.Spawner.Update | Unity_ludum-dare-49/Assets/Scripts/Spawner.cs:78-88 | a dead spawner does nothing; otherwise a due group starts and the clock advances by the scaled delta |
| Spawners.Spawner.Advance | Unity_ludum-dare-49/Assets/Scripts/Spawner.cs:81-87 | the living branch of Update |
| Spawners.Spawner.FixedUpdate | Unity_ludum-dare-49/Assets/Scripts/Spawner.cs:94-102 | on arrival while active, deactivates and clears exactly the spawn slot |
| Spawners.Spawner.Die | Unity_ludum-dare-49/Assets/Scripts/Spawner.cs:131-149 | one kill, dead, inactive; the spawn slot is cleared only if still active, the destination slot always |
| Spawners.Spawner.TakeDamage | Unity_ludum-dare-49/Assets/Scripts/Spawner.cs:120-129 | the state becomes AfterTakeDamage, keeping the bookkeeping; a hit that does not kill leaves both slot rings alone, a killing hit clears the slots as Die does |
| Players.DamageKeepsAlive | Unity_ludum-dare-49/Assets/Scripts/Player/PlayerController.cs:49-63 | with a positive maximum, health stays positive after any damage: it is either reduced or restored to the maximum |
| Players.AfterDamage | Unity_ludum-dare-49/Assets/Scripts/Player/PlayerController.cs:49-56 | TakeDamage on the health value; DamageKeepsAlive and DamagesKeepAlive state its meaning |
| Players.DamagesKeepAlive | Unity_ludum-dare-49/Assets/Scripts/Player/PlayerController.cs:49-63 | over any sequence of non-negative damages, health stays in (0, maximum] |
| Players.PlayerController.constructor | Unity_ludum-dare-49/Assets/Scripts/Player/PlayerController.cs:11-14 | health as set, maximum 0 until Initialize |
| Players.PlayerController.Awake | Unity_ludum-dare-49/Assets/Scripts/Player/PlayerController.cs:16-19 | the first controller registers and records its starting health as the maximum; a duplicate does not |
| Players.PlayerController.Initialize | Unity_ludum-dare-49/Assets/Scripts/Player/PlayerController.cs:16-19 | the maximum becomes the current health |
| Players.PlayerController.TakeDamage | Unity_ludum-dare-49/Assets/Scripts/Player/PlayerController.cs:49-56 | health loses the damage, and at 0 or below is restored to the maximum |
| Players.PlayerController.Die | Unity_ludum-dare-49/Assets/Scripts/Player/PlayerController.cs:58-67 | health is restored to the maximum and the pose is unchanged |
| Players.PlayerController.Shoot | Unity_ludum-dare-49/Assets/Scripts/Player/PlayerController.cs:43-46 | exactly the weapon's Fire: a shot only when the cooldown has elapsed, the weapon unchanged otherwise, and the current stage needed only for a shot |
| Singletons.AwakeKeepsInv | Unity_ludum-dare-49/Assets/Scripts/Utils/SingletonBehaviour.cs:31-50 | Awake keeps the registration invariant |
| Singletons.AfterAwake | Unity_ludum-dare-49/Assets/Scripts/Utils/SingletonBehaviour.cs:31-50 | the first instance registers and is initialised, a later one is a duplicate; OneInstanceAtATime and DuplicateLeavesInstance state its meaning |
| Singletons.AfterDestroy | Unity_ludum-dare-49/Assets/Scripts/Utils/SingletonBehaviour.cs:55-64 | the registered instance is shut down and cleared, a duplicate leaves it; DestroyKeepsInv states it |
| Singletons.DestroyKeepsInv | Unity_ludum-dare-49/Assets/Scripts/Utils/SingletonBehaviour.cs:55-64 | OnDestroy keeps the registration invariant |
| Singletons.RunKeepsInv | Unity_ludum-dare-49/Assets/Scripts/Utils/SingletonBehaviour.cs:31-64 | any lifetime of Awake and OnDestroy calls keeps it |
| Singletons.OneInstanceAtATime | Unity_ludum-dare-49/Assets/Scripts/Utils/SingletonBehaviour.cs:31-64 | at most one object is initialised, none twice, never a duplicate, and Shutdown follows Initialize in order |
| Singletons.DuplicateLeavesInstance | Unity_ludum-dare-49/Assets/Scripts/Utils/SingletonBehaviour.cs:33-57 | a duplicate's Awake and OnDestroy leave Instance and the hook calls as they were |
| Singletons.InstanceSlot.constructor | Unity_ludum-dare-49/Assets/Scripts/Utils/SingletonBehaviour.cs:12-17 | no instance is registered at first |
| Singletons.Singleton.constructor | Unity_ludum-dare-49/Assets/Scripts/Utils/SingletonBehaviour.cs:19-24 | neither initialised nor a duplicate |
| Singletons.Singleton.Awake | Unity_ludum-dare-49/Assets/Scripts/Utils/SingletonBehaviour.cs:31-50 | with an instance registered, becomes a duplicate and leaves Instance; otherwise registers, initialises once and sets IsInitialized |
| Singletons.Singleton.OnDestroy | Unity_ludum-dare-49/Assets/Scripts/Utils/SingletonBehaviour.cs:55-64 | the registered instance clears Instance, shuts down and clears IsInitialized; a duplicate leaves Instance; the duplicate flag is always cleared |
| SeededRandom.DrawAll | Unity_ludum-dare-49/Assets/Scripts/Utils/SeededRandomContext.cs:52-125 | one sample per draw |
| SeededRandom.DrawAllSnoc | Unity_ludum-dare-49/Assets/Scripts/Utils/SeededRandomContext.cs:52-125 | draws chain through the generator state |
| SeededRandom.Served | Unity_ludum-dare-49/Assets/Scripts/Utils/SeededRandomContext.cs:39-62 | interleaved requests to several contexts give one sample each and keep one state per context |
| SeededRandom.InterleavingIrrelevant | Unity_ludum-dare-49/Assets/Scripts/Utils/SeededRandomContext.cs:39-50 | a context's samples are those of its own generator run alone, however calls to other contexts interleave |
| SeededRandom.SameSeedSameDraws | Unity_ludum-dare-49/Assets/Scripts/Utils/SeededRandomContext.cs:16-50 | two contexts from the same seed give the same samples for the same draws |
| SeededRandom.GlobalRandom.constructor | Unity_ludum-dare-49/Assets/Scripts/Utils/SeededRandomContext.cs:16-19 | the global generator holds its state |
| SeededRandom.GlobalRandom.InitState | Unity_ludum-dare-49/Assets/Scripts/Utils/SeededRandomContext.cs:30-37 | seeding sets the initial state of that seed |
| SeededRandom.GlobalRandom.Next | Unity_ludum-dare-49/Assets/Scripts/Utils/SeededRandomContext.cs:57 | a draw is one generator step |
| SeededRandom.SeededRandomContext.constructor | Unity_ludum-dare-49/Assets/Scripts/Utils/SeededRandomContext.cs:16-19 | the internal state is the seed's initial state and the global state is restored |
| SeededRandom.SeededRandomContext.Reset | Unity_ludum-dare-49/Assets/Scripts/Utils/SeededRandomContext.cs:30-37 | the internal state is the seed's initial state and the global state is as before |
| SeededRandom.SeededRandomContext.PushState | Unity_ludum-dare-49/Assets/Scripts/Utils/SeededRandomContext.cs:39-44 | saves the global state and installs the internal one |
| SeededRandom.SeededRandomContext.PopState | Unity_ludum-dare-49/Assets/Scripts/Utils/SeededRandomContext.cs:46-50 | takes back the advanced internal state and restores the saved global one |
| SeededRandom.SeededRandomContext.Sampled | Unity_ludum-dare-49/Assets/Scripts/Utils/SeededRandomContext.cs:52-62 | a draw advances only the internal state, by one generator step, and leaves the global state unchanged |
| SeededRandom.SeededRandomContext.NextValue | Unity_ludum-dare-49/Assets/Scripts/Utils/SeededRandomContext.cs:52-62 | Value: one internal step, global state unchanged |
| SeededRandom.SeededRandomContext.RangeReal | Unity_ludum-dare-49/Assets/Scripts/Utils/SeededRandomContext.cs:64-71 | Range(float): one internal step, global state unchanged |
| SeededRandom.SeededRandomContext.RangeWhole | Unity_ludum-dare-49/Assets/Scripts/Utils/SeededRandomContext.cs:73-80 | Range(int): one internal step, global state unchanged |
| SeededRandom.SeededRandomContext.UnitSphere | Unity_ludum-dare-49/Assets/Scripts/Utils/SeededRandomContext.cs:82-89 | OnUnitSphere: one internal step, global state unchanged |
| SeededRandom.SeededRandomContext.InUnitSphere | Unity_ludum-dare-49/Assets/Scripts/Utils/SeededRandomContext.cs:91-98 | InsideUnitSphere: one internal step, global state unchanged |
| SeededRandom.SeededRandomContext.InUnitCircle | Unity_ludum-dare-49/Assets/Scripts/Utils/SeededRandomContext.cs:100-107 | InsideUnitCircle: one internal step, global state unchanged |
| SeededRandom.SeededRandomContext.NextRotation | Unity_ludum-dare-49/Assets/Scripts/Utils/SeededRandomContext.cs:109-116 | Rotation: one internal step, global state unchanged |
| SeededRandom.SeededRandomContext.NextRotationUniform | Unity_ludum-dare-49/Assets/Scripts/Utils/SeededRandomContext.cs:118-125 | RotationUniform: one internal step, global state unchanged |
| SeededRandom.ScopedSeed.constructor | Unity_ludum-dare-49/Assets/Scripts/Utils/SeededRandomContext.cs:147-152 | remembers the global state and installs the context's internal state |
| SeededRandom.ScopedSeed.Dispose | Unity_ludum-dare-49/Assets/Scripts/Utils/SeededRandomContext.cs:154-160 | the first call writes the global state back to the context and restores the remembered one; a second call changes nothing |
| Collections.ClampedMeaning | Unity_ludum-dare-49/Assets/Scripts/Utils/ClassExtensions.cs:596-613 | 0 for an empty list; otherwise a valid index: the nearest one without wrap, one congruent to the index modulo the count with wrap; a valid index is kept |
| Collections.ClampIndex | Unity_ludum-dare-49/Assets/Scripts/Utils/ClassExtensions.cs:596-613 | the two wrapping loops compute the clamped index |
| Collections.ClampIndexOf | Unity_ludum-dare-49/Assets/Scripts/Utils/ClassExtensions.cs:615-628 | 0 for a null list, otherwise the clamped index for its count |
| Collections.GetClamped | Unity_ludum-dare-49/Assets/Scripts/Utils/ClassExtensions.cs:620-638 | the default for a null or empty list, otherwise an element of the list |
| Collections.IsValidIndex | Unity_ludum-dare-49/Assets/Scripts/Utils/ClassExtensions.cs:641-652 | valid exactly when 0 <= index < count |
| Collections.GetOrDefault | Unity_ludum-dare-49/Assets/Scripts/Utils/ClassExtensions.cs:683-686 | the element at a valid index, otherwise the default |
| Collections.GetLastOrDefault | Unity_ludum-dare-49/Assets/Scripts/Utils/ClassExtensions.cs:732-740 | the last element, or the default for an empty list |
| Collections.LookupsAgree | Unity_ludum-dare-49/Assets/Scripts/Utils/ClassExtensions.cs:620-740 | the lookups agree at valid indices, and the last element is the lookup at Count - 1 |
| Collections.AddedUniqueIsInsertion | Unity_ludum-dare-49/Assets/Scripts/Utils/ClassExtensions.cs:699-708 | AddUnique is a set insertion: the item is present after, nothing else is added, no duplicates arise, and a second add changes nothing |
| Collections.ListRef.constructor | Unity_ludum-dare-49/Assets/Scripts/Utils/ClassExtensions.cs:699 | the list holds its items |
| Collections.ListRef.AddUnique | Unity_ludum-dare-49/Assets/Scripts/Utils/ClassExtensions.cs:699-708 | appends and returns true exactly when the item was absent; otherwise the list is unchanged and the result is false |
| Collections.Count | Unity_ludum-dare-49/Assets/Scripts/Utils/ClassExtensions.cs:753-766 | the count is at most the length |
| Collections.CountMeaning | Unity_ludum-dare-49/Assets/Scripts/Utils/ClassExtensions.cs:753-792 | the count is 0 exactly when no item matches, and the length exactly when all do |
| Collections.CountIf | Unity_ludum-dare-49/Assets/Scripts/Utils/ClassExtensions.cs:753-766 | the loop counts the matching items |
| Collections.HasAny | Unity_ludum-dare-49/Assets/Scripts/Utils/ClassExtensions.cs:768-779 | true exactly when some item matches |
| Collections.HasAll | Unity_ludum-dare-49/Assets/Scripts/Utils/ClassExtensions.cs:781-792 | true exactly when every item matches, so true on an empty input |
| Collections.ShallowEquals | Unity_ludum-dare-49/Assets/Scripts/Utils/ClassExtensions.cs:862-889 | true exactly for the same reference, or two non-null lists with equal elements in order |
| Strings.StripLeadingMeaning | Unity_ludum-dare-49/Assets/Scripts/Utils/ClassExtensions.cs:1217-1231 | the text is some copies of the trim string followed by the result, which no longer starts with it |
| Strings.RepeatSnoc | Unity_ludum-dare-49/Assets/Scripts/Utils/ClassExtensions.cs:1233-1247 | k + 1 copies are k copies followed by one more |
| Strings.StripTrailingMeaning | Unity_ludum-dare-49/Assets/Scripts/Utils/ClassExtensions.cs:1233-1247 | the text is the result followed by some copies of the trim string, and the result no longer ends with it |
| Strings.TrimMeaning | Unity_ludum-dare-49/Assets/Scripts/Utils/ClassExtensions.cs:1217-1247 | TrimStart and TrimEnd strip every leading or trailing copy, and trimming again changes nothing |
| Strings.TrimStart | Unity_ludum-dare-49/Assets/Scripts/Utils/ClassExtensions.cs:1217-1231 | the loop computes TrimmedStart, including the null and empty cases |
| Strings.TrimEnd | Unity_ludum-dare-49/Assets/Scripts/Utils/ClassExtensions.cs:1233-1247 | the loop computes TrimmedEnd, including the null and empty cases |
| Strings.TrimmedStart | Unity_ludum-dare-49/Assets/Scripts/Utils/ClassExtensions.cs:1217-1231 | the value TrimStart returns; TrimMeaning states its meaning |
| Strings.TrimmedEnd | Unity_ludum-dare-49/Assets/Scripts/Utils/ClassExtensions.cs:1233-1247 | the value TrimEnd returns; TrimMeaning states its meaning |
| Strings.NullifyIfEmpty | Unity_ludum-dare-49/Assets/Scripts/Utils/ClassExtensions.cs:1172-1180 | null for null or empty text, otherwise the text itself |
| Strings.CeilToInt | Unity_ludum-dare-49/Assets/Scripts/Utils/ClassExtensions.cs:1251 | the ceiling: the least integer not below x |
| Strings.SplitOn | Unity_ludum-dare-49/Assets/Scripts/Utils/ClassExtensions.cs:1266-1276 | splitting text on ':' gives at least one part |
| Strings.SplitJoin | Unity_ludum-dare-49/Assets/Scripts/Utils/ClassExtensions.cs:1266-1276 | a part without ':' followed by ':' splits off as the first part |
| Strings.ClockParts | Unity_ludum-dare-49/Assets/Scripts/Utils/ClassExtensions.cs:1254-1276 | under a day, hours, minutes and seconds are in range and add back up to the seconds; hours show exactly from 3600 s |
| Strings.ParseD2 | Unity_ludum-dare-49/Assets/Scripts/Utils/ClassExtensions.cs:1266-1276 | the two-digit seconds field reads back as its value |
| Strings.FormatSecondsRoundTrip | Unity_ludum-dare-49/Assets/Scripts/Utils/ClassExtensions.cs:1254-1276 | under a day, FormatSeconds without a width tag reads back as the same seconds; it has three ':'-parts from one hour on, two below, and the seconds field always has two digits |
| Strings.FormatSeconds | Unity_ludum-dare-49/Assets/Scripts/Utils/ClassExtensions.cs:1254-1260 | FormatSeconds(int) through FormatTimeSpan; FormatSecondsRoundTrip and FormatDropsDays state its meaning |
| Strings.FormatSecondsReal | Unity_ludum-dare-49/Assets/Scripts/Utils/ClassExtensions.cs:1249-1252 | FormatSeconds(float): the integer version of the seconds rounded up |
| Strings.ParseTwo | Unity_ludum-dare-49/Assets/Scripts/Utils/ClassExtensions.cs:1266-1276 | M:SS reads back as minutes and seconds |
| Strings.ParseThree | Unity_ludum-dare-49/Assets/Scripts/Utils/ClassExtensions.cs:1266-1276 | H:M:SS reads back as hours, minutes and seconds |
| Strings.FormatDropsDays | Unity_ludum-dare-49/Assets/Scripts/Utils/ClassExtensions.cs:1254-1276 | whole days are dropped: seconds and seconds plus a day print the same |
| LayerMasks.ShiftCount | Unity_ludum-dare-49/Assets/Scripts/Utils/ClassExtensions.cs:1310-1313 | the shift uses only the low five bits of the layer |
| LayerMasks.GetLayerAsMask | Unity_ludum-dare-49/Assets/Scripts/Utils/ClassExtensions.cs:1310-1313 | the one-hot mask of the layer; LayerMaskIsOneHot and ShiftWraps state its meaning |
| LayerMasks.MatchesLayerMask | Unity_ludum-dare-49/Assets/Scripts/Utils/ClassExtensions.cs:1304-1307 | the layer's mask meets the given mask; MatchesIffBitSet states its meaning |
| LayerMasks.LayerMaskIsOneHot | Unity_ludum-dare-49/Assets/Scripts/Utils/ClassExtensions.cs:1310-1313 | the layer mask has exactly the layer's bit set |
| LayerMasks.MatchesIffBitSet | Unity_ludum-dare-49/Assets/Scripts/Utils/ClassExtensions.cs:1304-1307 | a game object matches a mask exactly when the mask has its layer's bit |
| LayerMasks.ShiftWraps | Unity_ludum-dare-49/Assets/Scripts/Utils/ClassExtensions.cs:1310-1313 | layers 32 apart give the same mask; a layer below 32 is its own bit index |
| ShaderIds.FromInt | Unity_ludum-dare-49/Assets/Scripts/Utils/ShaderId.cs:30 | converting from an int keeps the id, without a name |
| ShaderIds.FromString | Unity_ludum-dare-49/Assets/Scripts/Utils/ShaderId.cs:27 | converting from a name gives the engine's id for it and keeps the name |
| ShaderIds.ToStringRoundTrip | Unity_ludum-dare-49/Assets/Scripts/Utils/ShaderId.cs:18-21 | the text holds the id and the name in full: it reads back as the same ShaderId |
| ShaderIds.ToStringInjective | Unity_ludum-dare-49/Assets/Scripts/Utils/ShaderId.cs:18-21 | two ShaderIds that print the same are equal |
| ShaderIds.ToString | Unity_ludum-dare-49/Assets/Scripts/Utils/ShaderId.cs:18-21 | the id, then the quoted name when there is one; ToStringRoundTrip and ToStringInjective state its meaning |
| ShaderIds.ToInt | Unity_ludum-dare-49/Assets/Scripts/Utils/ShaderId.cs:24 | the conversion to int keeps the id and drops the name |
| Common.Clamp | Unity_ludum-dare-49/Assets/Scripts/MusicManager.cs:74 | Mathf.Clamp: the value kept in range, or the nearer bound |
| Common.ClampInt | Unity_ludum-dare-49/Assets/Scripts/Utils/ClassExtensions.cs:606 | Mathf.Clamp on ints: the value kept in range, or the nearer bound |
| Common.MoveTowards | Unity_ludum-dare-49/Assets/Scripts/MusicManager.cs:77 | Mathf.MoveTowards: a step of at most maxDelta towards the target that lands on it exactly when within reach |
| Numerals.IntToDecimalRoundTrip | Unity_ludum-dare-49/Assets/Scripts/Utils/ShaderId.cs:20 | Int32.ToString reads back as the same integer |
| Numerals.IntToDecimal | Unity_ludum-dare-49/Assets/Scripts/Utils/ShaderId.cs:20 | Int32.ToString; IntToDecimalRoundTrip states that it reads back |
| Numerals.IntToD2 | Unity_ludum-dare-49/Assets/Scripts/Utils/ClassExtensions.cs:1269 | the D2 format; D2TwoDigits states its two digits |

## Left out

- The object pools (`UnpoolAudioCue`, `RepoolAudioCue`, `UnpoolBullet`) and the spawn-ring and slot scheduler are referenced but not shown in the source. Slot layers are sets of filled slot indices, and a repool is a counter.
- Motion and physics are left out: rotation, `Vector3.MoveTowards`, `SmoothDamp`, the rigid-body settings in `Die`, and the dissolve in `DelayDoDestroy`/`DoFullDestroy`. The arrival tests are boolean parameters.
- Coroutines are a routine state that `Resume` advances one yield at a time. The engine's scheduling of those resumes is not modelled.
- The death, animate-in and spawn sounds and the enemy instantiation of `Spawner` are left out; a spawned enemy is a counter.
- `Spawners.Spawner.Start` requires that the spawner has not started and is not dead, since Unity calls `Start` once, before anything can kill the spawner.
- `Spawner.OnCollisionEnter`, `PlayerController.Update` input handling and `OnValidate` hooks are engine glue outside the rules modelled here.
- Weapon recoil, the random spread and rotation in `InternalFire`, the camera, the bullet and the muzzle flash are left out. A successful shot is recorded in a log instead.
- Weapons.Weapon.Start: requires a current stage. With an empty `WeaponStages` list, `Stage` throws an index-out-of-range exception in C#; that exception is not modelled.
- Spawners.Spawner.Die: the class follows the code as written, so a spawner killed while animating in keeps its spawn slot. The corrected release is stated on values only (`Spawners.AfterDieCorrected`); see Findings.
- Weapons.CooldownFor: RPM 0 makes C#'s `1 / (0 / 60)` positive infinity; it is modelled as a cooldown that never elapses.
- Players.PlayerController.Shoot: the `firstShot` flag is ignored by `Weapon.Fire`, so it is a parameter with no effect.
- EffectorStacks.EffectorStack: a .NET `Dictionary` reuses a freed slot on the next `Add`, so after a removal its iteration order need not be insertion order. The model keeps insertion order. Because `RoughAverage` is order-dependent, the stack value after a Pop and a Push may differ from .NET's.
- Spawners: `float.MaxValue` as `_nextGroupTime` is modelled as "no group scheduled", because an alive time grown by frame deltas never reaches it.
- AudioCues.AudioCue: `AudioSource.isPlaying` is a field. It becomes true on `Play` and false on `ClipEnd`, the engine's end of the clip.
- AudioCues.AudioCue.Play: the position, clip and spatialize settings are not modelled.
- Music.MusicManager.Awake: the clip, spatial blend, priority, Doppler and play-on-awake settings of a new source are not modelled.
- Music.MusicManager: the layers are required to be distinct objects. A layer listed twice would be updated twice per frame in C#.
- SeededRandom: the generator algorithm is abstract, an initial state per seed plus a step function. Every vector and rotation draw returns an abstract sample, so the distribution of the draws is not modelled.
- SeededRandom: the MD5 hash of the string-seed constructor is not modelled; only integer seeds are.
- Singletons.Singleton.Awake: a failed `this as T` cast (a null instance) is not modelled.
- Strings: `StartsWith`/`EndsWith` in `TrimStart`/`TrimEnd` are culture-sensitive in .NET; they are modelled as ordinal comparisons.
- Strings.FormatSeconds: the monospace width is passed already written as text, since float formatting is not modelled. `FormatSeconds(float)` rounds up with `CeilToInt` and is otherwise the integer version.
- LayerMasks: the layer and the mask are 32-bit words (`bv32`).
- ShaderIds: `Shader.PropertyToID` is a function parameter. The `RenderTargetIdentifier` conversion is engine-only and is left out.
- Players.PlayerController.Die: the respawn point is the player's own transform, so the pose write-back is the identity.
- Entities.Entity.CurrentTimeScale: `GameTimeScaleOffset` is not added, because the source comments that term out.

## Findings

| source | as written | input that shows it | evidently intended | confidence | as-written member | corrected member |
|---|---|---|---|---|---|---|
| Unity_ludum-dare-49/Assets/Scripts/Spawner.cs:138-139 | `Die` releases the spawn slot only when `Active` is set. `Active` becomes true only at the end of `AnimateInCo`, and `Die` stops that coroutine, so a spawner killed while animating in never releases its spawn slot | `Start` before the visual has arrived, then `TakeDamage(6)`: the spawner is dead with its destination slot released and its spawn slot still filled after any later events | a spawner that dies while it still holds its spawn slot releases it, so each slot is released exactly once | plausible: the slot is reserved in `GameManager`, which is not part of this model; not executed | Spawners.DeathWhileAnimatingInLeaksSpawnSlot | Spawners.SlotsReleasedExactlyOnceCorrected |
