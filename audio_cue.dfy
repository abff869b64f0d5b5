/** AudioCue: a pooled sound entity. Play only queues the sound; the source
    is started on the second Update after the call, and a non-manual cue that
    is neither playing nor queued asks to be returned to its pool. */
module AudioCues {
  import opened Common
  import opened EffectorStacks
  import opened Entities

  /** The cue's queue flags, the source's playing state, and counters for the
      calls the cue makes: source plays and repool requests, with the Play
      and manual Start calls that can cause a source play. */
  datatype Cue = Cue(queuedPlay: bool, queuedThisFrame: bool, playing: bool,
                     requested: nat, started: nat, plays: nat, repools: nat)

  function Fresh(): Cue
  {
    Cue(false, false, false, 0, 0, 0, 0)
  }

  /** Start: a manual cue starts its source at once. */
  function AfterStart(c: Cue, manual: bool): Cue
  {
    if manual then c.(playing := true, started := c.started + 1, plays := c.plays + 1) else c
  }

  /** Play: both queue flags are set; the source is not touched. */
  function AfterPlay(c: Cue): Cue
  {
    c.(queuedThisFrame := true, queuedPlay := true, requested := c.requested + 1)
  }

  /** CheckCueDeath: a cue that is idle and has nothing queued is repooled. */
  function AfterDeathCheck(c: Cue): Cue
  {
    if !c.playing && !c.queuedPlay then c.(repools := c.repools + 1) else c
  }

  /** Update: the death check (non-manual cues only), then the queue. */
  function AfterUpdate(c: Cue, manual: bool): Cue
  {
    var d := if manual then c else AfterDeathCheck(c);
    if !d.queuedPlay then d
    else if !d.queuedThisFrame then d.(playing := true, plays := d.plays + 1, queuedPlay := false, queuedThisFrame := false)
    else d.(queuedThisFrame := false)
  }

  /** The engine stops the source when its clip has finished. */
  function AfterClipEnd(c: Cue): Cue
  {
    c.(playing := false)
  }

  /** Reset stops the source; the queue flags are left as they are. */
  function AfterReset(c: Cue): Cue
  {
    c.(playing := false)
  }

  datatype Op = Start | Play | Update | ClipEnd | Reset

  function Apply(c: Cue, manual: bool, op: Op): Cue
  {
    match op
    case Start => AfterStart(c, manual)
    case Play => AfterPlay(c)
    case Update => AfterUpdate(c, manual)
    case ClipEnd => AfterClipEnd(c)
    case Reset => AfterReset(c)
  }

  function Run(c: Cue, manual: bool, ops: seq<Op>): Cue
    decreases |ops|
  {
    if ops == [] then c else Run(Apply(c, manual, ops[0]), manual, ops[1..])
  }

  /** The source is started at most once per Play or Start call, counting a
      play that is still queued; and a play is queued for this frame only
      while it is queued at all. */
  predicate PlaysAccounted(c: Cue)
  {
    && c.plays + (if c.queuedPlay then 1 else 0) <= c.requested + c.started
    && (c.queuedThisFrame ==> c.queuedPlay)
  }

  lemma {:induction false} RunAccountsPlays(c: Cue, manual: bool, ops: seq<Op>)
    requires PlaysAccounted(c)
    ensures PlaysAccounted(Run(c, manual, ops))
    decreases |ops|
  {
    if ops != [] {
      var next := Apply(c, manual, ops[0]);
      assert PlaysAccounted(next);
      RunAccountsPlays(next, manual, ops[1..]);
    }
  }

  /** From a fresh cue, no sequence of calls starts the source more often
      than Play and Start were called. */
  lemma FreshCuePlaysBounded(manual: bool, ops: seq<Op>)
    ensures var c := Run(Fresh(), manual, ops); c.plays <= c.requested + c.started
  {
    RunAccountsPlays(Fresh(), manual, ops);
  }

  /** The first Update after Play only clears the this-frame flag (and does
      not repool the cue); the second one starts the source once and empties
      the queue. */
  lemma PlayIsDeferredOneFrame(c: Cue, manual: bool)
    ensures var one := AfterUpdate(AfterPlay(c), manual);
      && one.plays == c.plays && one.repools == c.repools
      && one.queuedPlay && !one.queuedThisFrame && one.playing == c.playing
    ensures var two := AfterUpdate(AfterUpdate(AfterPlay(c), manual), manual);
      && two.plays == c.plays + 1 && two.playing && !two.queuedPlay && !two.queuedThisFrame
      && two.repools == c.repools
  {
  }

  /** A cue is never repooled while a play is queued or the source plays, and
      a manual cue is never repooled by Update. */
  lemma NoRepoolWhileBusy(c: Cue, manual: bool)
    ensures c.queuedPlay || c.playing ==> AfterUpdate(c, manual).repools == c.repools
    ensures manual ==> AfterUpdate(c, manual).repools == c.repools
    ensures !manual && !c.queuedPlay && !c.playing ==> AfterUpdate(c, manual).repools == c.repools + 1
  {
  }

  /** The pitch the cue gives its source, and that it stays in range. */
  function ScaledPitch(basePitch: real, timeScale: real): (p: real)
    ensures 0.6 <= p <= 1.4
    ensures 0.6 <= basePitch * timeScale <= 1.4 ==> p == basePitch * timeScale
  {
    Clamp(basePitch * timeScale, 0.6, 1.4)
  }

  class AudioCue {
    /** The Entity part of the cue: its own time-scale stack. */
    const entity: Entity
    const manual: bool
    var baseVolume: real
    var basePitch: real
    var pitch: real
    var volume: real
    var queuedPlay: bool
    var queuedThisFrame: bool
    var playing: bool
    var plays: nat
    var repools: nat
    ghost var requested: nat
    ghost var started: nat

    ghost function Snapshot(): Cue
      reads this
    {
      Cue(queuedPlay, queuedThisFrame, playing, requested, started, plays, repools)
    }

    constructor (entity: Entity, manual: bool)
      ensures this.entity == entity && this.manual == manual
      ensures Snapshot() == Fresh() && baseVolume == 1.0 && basePitch == 1.0
    {
      this.entity := entity;
      this.manual := manual;
      baseVolume := 1.0;
      basePitch := 1.0;
      pitch := 1.0;
      volume := 1.0;
      queuedPlay := false;
      queuedThisFrame := false;
      playing := false;
      plays := 0;
      repools := 0;
      requested := 0;
      started := 0;
    }

    method UpdateTimeScaledSound()
      modifies this
      ensures pitch == ScaledPitch(basePitch, entity.localTimeScale.Current())
      ensures volume == baseVolume
      ensures Snapshot() == old(Snapshot())
      ensures baseVolume == old(baseVolume) && basePitch == old(basePitch)
    {
      var timeScale := entity.CurrentTimeScale();
      pitch := Clamp(basePitch * timeScale, 0.6, 1.4);
      volume := baseVolume;
    }

    method Start()
      modifies this
      ensures Snapshot() == AfterStart(old(Snapshot()), manual)
      ensures manual ==> pitch == ScaledPitch(basePitch, entity.localTimeScale.Current()) && volume == baseVolume
      ensures baseVolume == old(baseVolume) && basePitch == old(basePitch)
    {
      if manual {
        UpdateTimeScaledSound();
        playing := true;
        plays := plays + 1;
        started := started + 1;
      }
    }

    /** Position, clip and spatial blend are not modelled. */
    method Play(volume: real, pitch: real)
      modifies this
      ensures Snapshot() == AfterPlay(old(Snapshot()))
      ensures baseVolume == volume && basePitch == pitch
      ensures this.pitch == ScaledPitch(pitch, entity.localTimeScale.Current()) && this.volume == volume
    {
      baseVolume := volume;
      basePitch := pitch;
      UpdateTimeScaledSound();
      queuedThisFrame := true;
      queuedPlay := true;
      requested := requested + 1;
    }

    method CheckCueDeath()
      modifies this
      ensures Snapshot() == AfterDeathCheck(old(Snapshot()))
      ensures baseVolume == old(baseVolume) && basePitch == old(basePitch)
      ensures pitch == old(pitch) && volume == old(volume)
    {
      if !playing && !queuedPlay {
        repools := repools + 1;
      }
    }

    method Update()
      modifies this
      ensures Snapshot() == AfterUpdate(old(Snapshot()), manual)
      ensures pitch == ScaledPitch(basePitch, entity.localTimeScale.Current()) && volume == baseVolume
      ensures baseVolume == old(baseVolume) && basePitch == old(basePitch)
    {
      if !manual {
        CheckCueDeath();
      }
      UpdateTimeScaledSound();
      if queuedPlay {
        if !queuedThisFrame {
          playing := true;
          plays := plays + 1;
          queuedPlay := false;
        }
        queuedThisFrame := false;
      }
    }

    /** The engine's side: the source's clip has finished playing. */
    method ClipEnd()
      modifies this
      ensures Snapshot() == AfterClipEnd(old(Snapshot()))
      ensures baseVolume == old(baseVolume) && basePitch == old(basePitch)
      ensures pitch == old(pitch) && volume == old(volume)
    {
      playing := false;
    }

    /** Stops the source and empties the cue's time-scale stack. */
    method Reset()
      modifies this, entity.localTimeScale
      ensures Snapshot() == AfterReset(old(Snapshot()))
      ensures baseVolume == old(baseVolume) && basePitch == old(basePitch)
      ensures pitch == old(pitch) && volume == old(volume)
      ensures entity.localTimeScale.Valid() && entity.localTimeScale.entries == []
      ensures entity.localTimeScale.Current() == entity.localTimeScale.defaultValue
      ensures entity.localTimeScale.changed == old(entity.localTimeScale.changed) + [entity.localTimeScale.defaultValue]
    {
      playing := false;
      entity.localTimeScale.Clear();
    }
  }
}
