/** Field: a trigger volume that, while a rigid body is inside it, applies its
    effect to the body's entity. Only the two time effects touch the entity's
    time-scale stack, and both are keyed by the field itself. */
module Fields {
  import opened Common
  import opened EffectorStacks
  import opened Entities

  datatype FieldEffect = TimeSlow | TimeSpeed | Gravity | UpDraft | Damage

  /** The weight a field with this effect pushes on enter, if any. */
  function EnterWeight(effect: FieldEffect): (w: Option<real>)
    ensures w.Some? <==> effect == TimeSlow || effect == TimeSpeed
    ensures effect == TimeSlow ==> w == Some(0.0)
    ensures effect == TimeSpeed ==> w == Some(2.0)
  {
    match effect
    case TimeSlow => Some(0.0)
    case TimeSpeed => Some(2.0)
    case _ => None
  }

  /** List<T>.Remove: drop the first occurrence of x, if there is one. */
  function RemoveFirst<T(==)>(s: seq<T>, x: T): (r: seq<T>)
    ensures x !in s ==> r == s
    ensures x in s ==> |r| == |s| - 1 && multiset(r) == multiset(s) - multiset{x}
  {
    if s == [] then []
    else if s[0] == x then
      assert s == [x] + s[1..];
      s[1..]
    else
      var r := [s[0]] + RemoveFirst(s[1..], x);
      assert s == [s[0]] + s[1..];
      r
  }

  /** Exiting removes the occurrence that entering appended, when the body was
      not already listed. */
  lemma {:induction false} RemoveFirstUndoesAppend<T>(s: seq<T>, x: T)
    requires x !in s
    ensures RemoveFirst(s + [x], x) == s
  {
    if s != [] {
      assert (s + [x])[1..] == s[1..] + [x];
      RemoveFirstUndoesAppend(s[1..], x);
    }
  }

  /** A body entered twice and exited once is still listed once. */
  lemma EnterTwiceExitOnce<T>(s: seq<T>, x: T)
    requires x !in s
    ensures multiset(RemoveFirst(s + [x] + [x], x)) == multiset(s + [x])
  {
  }

  /** A rigid body and the Entity component on it, if any. */
  class Rigidbody {
    const entity: Entity?

    constructor (entity: Entity?)
      ensures this.entity == entity
    {
      this.entity := entity;
    }
  }

  class Field {
    const effect: FieldEffect
    var affected: seq<Rigidbody>

    constructor (effect: FieldEffect)
      ensures this.effect == effect && affected == []
    {
      this.effect := effect;
      affected := [];
    }

    method ApplyEffect(ent: Entity)
      requires ent.localTimeScale.Valid()
      modifies ent.localTimeScale
      ensures ent.localTimeScale.Valid()
      ensures EnterWeight(effect).Some? ==>
        ent.localTimeScale.entries == Pushed(old(ent.localTimeScale.entries), this, EnterWeight(effect).value)
      ensures EnterWeight(effect).None? ==> unchanged(ent.localTimeScale)
    {
      match effect
      case TimeSlow => ent.localTimeScale.Push(this, 0.0);
      case TimeSpeed => ent.localTimeScale.Push(this, 2.0);
      case Gravity =>
      case UpDraft =>
      case Damage =>
    }

    /** Both time effects pop the field's own key, whichever it pushed. */
    method RemoveEffect(ent: Entity)
      requires ent.localTimeScale.Valid()
      modifies ent.localTimeScale
      ensures ent.localTimeScale.Valid()
      ensures EnterWeight(effect).Some? ==>
        ent.localTimeScale.entries == Popped(old(ent.localTimeScale.entries), this)
      ensures EnterWeight(effect).None? ==> unchanged(ent.localTimeScale)
    {
      match effect
      case TimeSlow => ent.localTimeScale.Pop(this);
      case TimeSpeed => ent.localTimeScale.Pop(this);
      case Gravity =>
      case UpDraft =>
      case Damage =>
    }

    /** The collider is represented by its attached rigid body (null if none). */
    method OnTriggerEnter(attached: Rigidbody?)
      requires attached != null && attached.entity != null ==> attached.entity.localTimeScale.Valid()
      modifies this, if attached != null && attached.entity != null then {attached.entity.localTimeScale} else {}
      ensures attached == null ==> affected == old(affected)
      ensures attached != null ==> affected == old(affected) + [attached]
      ensures attached != null && attached.entity != null ==>
        var stack := attached.entity.localTimeScale;
        && stack.Valid()
        && (EnterWeight(effect).Some? ==> stack.entries == Pushed(old(stack.entries), this, EnterWeight(effect).value))
        && (EnterWeight(effect).None? ==> unchanged(stack))
    {
      if attached == null {
        return;
      }
      var entity := attached.entity;
      if entity != null {
        ApplyEffect(entity);
      }
      affected := affected + [attached];
    }

    method OnTriggerExit(attached: Rigidbody?)
      requires attached != null && attached.entity != null ==> attached.entity.localTimeScale.Valid()
      modifies this, if attached != null && attached.entity != null then {attached.entity.localTimeScale} else {}
      ensures attached == null ==> affected == old(affected)
      ensures attached != null ==> affected == RemoveFirst<Rigidbody>(old(affected), attached)
      ensures attached != null && attached.entity != null ==>
        var stack := attached.entity.localTimeScale;
        && stack.Valid()
        && (EnterWeight(effect).Some? ==> stack.entries == Popped(old(stack.entries), this))
        && (EnterWeight(effect).None? ==> unchanged(stack))
    {
      if attached == null {
        return;
      }
      var entity := attached.entity;
      if entity != null {
        RemoveEffect(entity);
      }
      affected := RemoveFirst<Rigidbody>(affected, attached);
    }
  }
}
