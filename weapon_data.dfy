/** WeaponData: a list of weapon stages, each unlocked by a kill requirement,
    and the index of the stage in force. */
module WeaponStages {
  import opened Common

  datatype WeaponStage = WeaponStage(rpm: real, initialSpeed: real, damage: int, killRequirement: int)

  predicate Unlocked(stage: WeaponStage, kills: int)
  {
    stage.killRequirement < kills
  }

  /** The stage CheckStage selects: the highest index among the first n stages
      whose kill requirement is strictly below the kill count, or 0 if none. */
  function HighestUnlocked(stages: seq<WeaponStage>, kills: int, n: nat): (r: nat)
    requires n <= |stages|
    ensures r == 0 || (r < n && Unlocked(stages[r], kills))
    ensures forall j :: r < j < n ==> !Unlocked(stages[j], kills)
    ensures n > 0 ==> r < n
  {
    if n == 0 then 0
    else if Unlocked(stages[n - 1], kills) then n - 1
    else HighestUnlocked(stages, kills, n - 1)
  }

  function StageFor(stages: seq<WeaponStage>, kills: int): (r: nat)
    ensures r == 0 || (r < |stages| && Unlocked(stages[r], kills))
    ensures forall j :: r < j < |stages| ==> !Unlocked(stages[j], kills)
    ensures |stages| > 0 ==> r < |stages|
  {
    HighestUnlocked(stages, kills, |stages|)
  }

  /** The selection is determined by the two facts above: any index that is
      unlocked (or 0) and has no unlocked stage above it is the selection. */
  lemma StageForUnique(stages: seq<WeaponStage>, kills: int, i: nat)
    requires i == 0 || (i < |stages| && Unlocked(stages[i], kills))
    requires forall j :: i < j < |stages| ==> !Unlocked(stages[j], kills)
    ensures StageFor(stages, kills) == i
  {
  }

  /** More kills never select a lower stage. */
  lemma StageForMonotone(stages: seq<WeaponStage>, fewer: int, more: int)
    requires fewer <= more
    ensures StageFor(stages, fewer) <= StageFor(stages, more)
  {
  }

  class WeaponData {
    const spread: real
    var stages: seq<WeaponStage>
    var weaponStage: int

    constructor (spread: real, stages: seq<WeaponStage>)
      ensures this.spread == spread && this.stages == stages && weaponStage == 0
    {
      this.spread := spread;
      this.stages := stages;
      weaponStage := 0;
    }

    /** The Stage property: the stage in force, or None where the list lookup
        would throw. */
    function Stage(): (r: Option<WeaponStage>)
      reads this
      ensures r.Some? <==> 0 <= weaponStage < |stages|
      ensures r.Some? ==> r.value == stages[weaponStage]
    {
      if 0 <= weaponStage < |stages| then Some(stages[weaponStage]) else None
    }

    /** Scans from the last stage down and keeps the first unlocked one. */
    method CheckStage(kills: int)
      modifies this
      ensures stages == old(stages) && weaponStage == StageFor(stages, kills)
      ensures stages != [] ==> Stage() == Some(stages[StageFor(stages, kills)])
    {
      weaponStage := 0;
      var i := |stages| - 1;
      while i >= 0
        invariant -1 <= i < |stages|
        invariant weaponStage == 0
        invariant forall j :: i < j < |stages| ==> !Unlocked(stages[j], kills)
        decreases i
      {
        if stages[i].killRequirement < kills {
          weaponStage := i;
          StageForUnique(stages, kills, i);
          return;
        }
        i := i - 1;
      }
      StageForUnique(stages, kills, 0);
    }

    method Reset()
      modifies this
      ensures stages == old(stages) && weaponStage == 0
    {
      weaponStage := 0;
    }
  }
}
