/** MusicManager: a base music layer that is always on, and a list of layers
    of which at most one (the highest one whose enemy threshold is below the
    current count) is faded in. Each layer's AudioSource is reduced to the
    values the manager sets on it. */
module Music {
  import opened Common
  import EffectorStacks
  import opened Entities

  /** The audible settings of one layer's source and its target volume. */
  datatype Voice = Voice(volume: real, pitch: real, targetVolume: real)

  function TargetVolume(on: bool): real
  {
    if on then 0.5 else 0.0
  }

  /** MusicLayer.UpdateSource on a voice. */
  function AfterUpdate(v: Voice, timeScale: real, on: bool): (r: Voice)
    ensures 0.6 <= r.pitch <= 1.4
    ensures 0.6 <= timeScale <= 1.4 ==> r.pitch == timeScale
    ensures r.targetVolume == TargetVolume(on)
    ensures 0.0 <= timeScale ==> Abs(r.volume - v.volume) <= timeScale
    ensures 0.0 <= timeScale && v.volume <= r.targetVolume ==> v.volume <= r.volume <= r.targetVolume
    ensures 0.0 <= timeScale && r.targetVolume <= v.volume ==> r.targetVolume <= r.volume <= v.volume
  {
    var target := TargetVolume(on);
    Voice(MoveTowards(v.volume, target, 1.0 * timeScale), Clamp(timeScale, 0.6, 1.4), target)
  }

  function AfterUpdates(v: Voice, timeScale: real, on: bool, n: nat): Voice
    decreases n
  {
    if n == 0 then v else AfterUpdates(AfterUpdate(v, timeScale, on), timeScale, on, n - 1)
  }

  /** At a positive time scale the fade reaches its target within
      |target - volume| / timeScale updates, and stays there. */
  lemma {:induction false} FadeReachesTarget(v: Voice, timeScale: real, on: bool, n: nat)
    requires 0.0 < timeScale && n >= 1
    requires Abs(TargetVolume(on) - v.volume) <= n as real * timeScale
    ensures AfterUpdates(v, timeScale, on, n).volume == TargetVolume(on)
    decreases n
  {
    var w := AfterUpdate(v, timeScale, on);
    if w.volume != TargetVolume(on) {
      FadeStep(v.volume, TargetVolume(on), timeScale);
      FadeReachesTarget(w, timeScale, on, n - 1);
    } else if n > 1 {
      StaysAtTarget(w, timeScale, on, n - 1);
    }
  }

  /** A step that falls short of the target closes the gap by exactly the
      step. */
  lemma FadeStep(volume: real, target: real, step: real)
    requires 0.0 < step && MoveTowards(volume, target, step) != target
    ensures Abs(target - MoveTowards(volume, target, step)) == Abs(target - volume) - step
  {
    if volume <= target {
      assert MoveTowards(volume, target, step) == volume + step;
    } else {
      assert MoveTowards(volume, target, step) == volume - step;
    }
  }

  lemma {:induction false} StaysAtTarget(v: Voice, timeScale: real, on: bool, n: nat)
    requires 0.0 <= timeScale && v.volume == TargetVolume(on)
    ensures AfterUpdates(v, timeScale, on, n).volume == TargetVolume(on)
    decreases n
  {
    if n > 0 {
      StaysAtTarget(AfterUpdate(v, timeScale, on), timeScale, on, n - 1);
    }
  }

  /** The layer Update switches on: the highest index among the first n whose
      enemy count is below thingCount, or -1 if none qualifies. */
  function Chosen(enemyCounts: seq<int>, thingCount: int, n: nat): (r: int)
    requires n <= |enemyCounts|
    ensures -1 <= r < n
    ensures r >= 0 ==> enemyCounts[r] < thingCount
    ensures forall j :: r < j < n ==> thingCount <= enemyCounts[j]
  {
    if n == 0 then -1
    else if enemyCounts[n - 1] < thingCount then n - 1
    else Chosen(enemyCounts, thingCount, n - 1)
  }

  /** One step of the downward scan: with layerUsed recording whether the
      chosen layer lies above i, layer i is switched on exactly when it is the
      chosen one. */
  lemma ScanStep(enemyCounts: seq<int>, thingCount: int, i: nat, layerUsed: bool, chosen: int)
    requires i < |enemyCounts| && chosen == Chosen(enemyCounts, thingCount, |enemyCounts|)
    requires layerUsed <==> chosen > i
    ensures enemyCounts[i] < thingCount && !layerUsed <==> i == chosen
  {
  }

  /** No qualifying layer: every layer is faded out. */
  lemma NoneQualifies(enemyCounts: seq<int>, thingCount: int)
    requires forall j :: 0 <= j < |enemyCounts| ==> thingCount <= enemyCounts[j]
    ensures Chosen(enemyCounts, thingCount, |enemyCounts|) == -1
  {
  }

  class MusicLayer {
    const enemyCount: int
    var hasSource: bool
    var playing: bool
    var looping: bool
    var volume: real
    var pitch: real
    var targetVolume: real

    ghost function Settings(): Voice
      reads this
    {
      Voice(volume, pitch, targetVolume)
    }

    constructor (enemyCount: int)
      ensures this.enemyCount == enemyCount && !hasSource && !playing
    {
      this.enemyCount := enemyCount;
      hasSource := false;
      playing := false;
      looping := false;
      volume := 0.0;
      pitch := 1.0;
      targetVolume := 0.0;
    }

    /** Needs a source: before Awake created one, the call would throw. */
    method UpdateSource(timeScale: real, on: bool)
      requires hasSource
      modifies this
      ensures Settings() == AfterUpdate(old(Settings()), timeScale, on)
      ensures hasSource && playing == old(playing) && looping == old(looping)
    {
      var p := Clamp(timeScale, 0.6, 1.4);
      targetVolume := if on then 0.5 else 0.0;
      pitch := p;
      volume := MoveTowards(volume, targetVolume, 1.0 * timeScale);
    }
  }

  function EnemyCounts(layers: seq<MusicLayer>): (r: seq<int>)
    ensures |r| == |layers| && forall j :: 0 <= j < |layers| ==> r[j] == layers[j].enemyCount
  {
    seq(|layers|, j requires 0 <= j < |layers| => layers[j].enemyCount)
  }

  ghost function SettingsOf(layers: seq<MusicLayer>): (r: seq<Voice>)
    reads set l | l in layers
    ensures |r| == |layers| && forall j :: 0 <= j < |layers| ==> r[j] == layers[j].Settings()
  {
    seq(|layers|, j requires 0 <= j < |layers| reads set l | l in layers => layers[j].Settings())
  }

  class MusicManager {
    const baseLayer: MusicLayer
    const layers: seq<MusicLayer>

    /** Layers are serialised plain objects, so the base layer and each list
        entry are separate instances. */
    ghost predicate Distinct()
    {
      && baseLayer !in layers
      && forall i, j :: 0 <= i < j < |layers| ==> layers[i] != layers[j]
    }

    constructor (baseLayer: MusicLayer, layers: seq<MusicLayer>)
      ensures this.baseLayer == baseLayer && this.layers == layers
    {
      this.baseLayer := baseLayer;
      this.layers := layers;
    }

    /** A layer that already has a source is left alone; otherwise it gets a
        looping, playing source at volume 0. */
    static method CreateSourceForLayer(layer: MusicLayer)
      modifies layer
      ensures old(layer.hasSource) ==> unchanged(layer)
      ensures !old(layer.hasSource) ==>
        && layer.hasSource && layer.playing && layer.looping && layer.volume == 0.0
        && layer.pitch == old(layer.pitch) && layer.targetVolume == old(layer.targetVolume)
    {
      if layer.hasSource {
        return;
      }
      layer.hasSource := true;
      layer.looping := true;
      layer.volume := 0.0;
      layer.playing := true;
    }

    method Awake()
      requires Distinct()
      modifies baseLayer, set l | l in layers
      ensures baseLayer.hasSource && baseLayer.volume == 1.0
      ensures !old(baseLayer.hasSource) ==> baseLayer.playing && baseLayer.looping
      ensures forall j :: 0 <= j < |layers| ==> layers[j].hasSource
      ensures forall j :: 0 <= j < |layers| && old(layers[j].hasSource) ==> unchanged(layers[j])
      ensures forall j :: 0 <= j < |layers| && !old(layers[j].hasSource) ==>
        layers[j].playing && layers[j].looping && layers[j].volume == 0.0
    {
      CreateSourceForLayer(baseLayer);
      baseLayer.volume := 1.0;
      var i := 0;
      while i < |layers|
        invariant 0 <= i <= |layers|
        invariant baseLayer.hasSource && baseLayer.volume == 1.0
        invariant !old(baseLayer.hasSource) ==> baseLayer.playing && baseLayer.looping
        invariant forall j :: 0 <= j < i ==> layers[j].hasSource
        invariant forall j :: 0 <= j < |layers| && (i <= j || old(layers[j].hasSource)) ==> unchanged(layers[j])
        invariant forall j :: 0 <= j < i && !old(layers[j].hasSource) ==>
          layers[j].playing && layers[j].looping && layers[j].volume == 0.0
      {
        CreateSourceForLayer(layers[i]);
        i := i + 1;
      }
    }

    /** The base layer is always on; the list is scanned from the top and the
        first layer whose threshold is below thingCount is the one switched
        on, all others are faded out. */
    method Update(owner: Entity, thingCount: int)
      requires Distinct()
      requires baseLayer.hasSource && forall j :: 0 <= j < |layers| ==> layers[j].hasSource
      modifies baseLayer, set l | l in layers
      ensures baseLayer.Settings() == AfterUpdate(old(baseLayer.Settings()), owner.localTimeScale.Current(), true)
      ensures forall j :: 0 <= j < |layers| ==>
        layers[j].Settings() == AfterUpdate(old(layers[j].Settings()), owner.localTimeScale.Current(),
                                            j == Chosen(EnemyCounts(layers), thingCount, |layers|))
    {
      var timeScale := owner.CurrentTimeScale();
      baseLayer.UpdateSource(timeScale, true);
      UpdateLayers(timeScale, thingCount);
    }

    /** UpdateSource on one list entry; the others, being distinct objects,
        are left alone. */
    method FadeLayer(i: nat, timeScale: real, on: bool)
      requires Distinct() && i < |layers| && layers[i].hasSource
      modifies layers[i]
      ensures layers[i].Settings() == AfterUpdate(old(layers[i].Settings()), timeScale, on)
      ensures forall j :: 0 <= j < |layers| && j != i ==> unchanged(layers[j])
    {
      layers[i].UpdateSource(timeScale, on);
    }

    /** The scan over the layer list, from the top down. */
    method UpdateLayers(timeScale: real, thingCount: int)
      requires Distinct()
      requires forall j :: 0 <= j < |layers| ==> layers[j].hasSource
      modifies set l | l in layers
      ensures forall j :: 0 <= j < |layers| ==>
        layers[j].Settings() == AfterUpdate(old(layers[j].Settings()), timeScale,
                                            j == Chosen(EnemyCounts(layers), thingCount, |layers|))
    {
      ghost var counts := EnemyCounts(layers);
      ghost var chosen := Chosen(counts, thingCount, |layers|);
      var layerUsed := false;
      var i := |layers| - 1;
      while i >= 0
        invariant -1 <= i < |layers|
        invariant layerUsed <==> chosen > i
        invariant forall j :: 0 <= j <= i ==> unchanged(layers[j])
        invariant forall j :: i < j < |layers| ==>
          layers[j].Settings() == AfterUpdate(old(layers[j].Settings()), timeScale, j == chosen)
        decreases i
      {
        var on := layers[i].enemyCount < thingCount && !layerUsed;
        ScanStep(counts, thingCount, i, layerUsed, chosen);
        FadeLayer(i, timeScale, on);
        layerUsed := layerUsed || on;
        i := i - 1;
      }
    }
  }
}
