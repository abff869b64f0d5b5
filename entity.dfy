/** Entity: the base of every simulated body. Each entity owns a time-scale
    effector stack that averages its contributions from a default of 1; the
    game-wide time-scale offset is a per-frame cache of the player's stack. */
module Entities {
  import opened EffectorStacks

  class Entity {
    const localTimeScale: EffectorStack<object>
    var isDead: bool

    constructor ()
      ensures fresh(localTimeScale) && localTimeScale.Valid()
      ensures localTimeScale.combine == RoughAverage && localTimeScale.defaultValue == 1.0
      ensures localTimeScale.entries == [] && localTimeScale.changed == []
      ensures localTimeScale.Current() == 1.0
      ensures !isDead
    {
      localTimeScale := new EffectorStack(RoughAverage, 1.0);
      isDead := false;
    }

    /** CurrentTimeScale is exactly the stack's value; the game offset is not
        added. */
    method CurrentTimeScale() returns (r: real)
      ensures r == Fold(localTimeScale.combine, localTimeScale.defaultValue, Weights(localTimeScale.entries))
      ensures localTimeScale.entries == [] ==> r == localTimeScale.defaultValue
    {
      r := localTimeScale.LookupValue();
    }
  }

  /** The static cache behind Entity.GameTimeScaleOffset: the offset and the
      frame at which it was computed. */
  class GameTimeScaleOffsetCache {
    var offset: real
    var frame: int

    constructor ()
      ensures offset == 0.0 && frame == -1
    {
      offset := 0.0;
      frame := -1;
    }

    /** Recomputes 1 - (player's time scale) only when the cached frame stamp
        is older than the current frame; otherwise returns the cached value,
        even if the player's stack changed since. */
    method Read(frameCount: int, playerTimeScale: EffectorStack<object>) returns (r: real)
      modifies this
      ensures old(frame) < frameCount ==> offset == 1.0 - playerTimeScale.Current() && frame == frameCount
      ensures frameCount <= old(frame) ==> offset == old(offset) && frame == old(frame)
      ensures r == offset
    {
      if frame < frameCount {
        var playerScale := playerTimeScale.LookupValue();
        offset := 1.0 - playerScale;
        frame := frameCount;
      }
      r := offset;
    }
  }
}
