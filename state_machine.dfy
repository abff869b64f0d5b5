/** StateMachine: a current and a previous state, with an optional change
    notification. Notifications are modelled as the log of StateChange values
    handed to OnStateChange, whether or not anybody is subscribed. */
module StateMachines {

  datatype StateChange<T> = StateChange(newState: T, previousState: T)

  /** A snapshot of a machine's observable state. */
  datatype Machine<T> = Machine(current: T, previous: T, triggerEvents: bool, events: seq<StateChange<T>>)

  /** ChangeState: nothing happens when the target is already current;
      otherwise the old current becomes previous, and the change is announced
      when events are on. */
  function Changed<T(==)>(m: Machine<T>, newState: T): Machine<T>
  {
    if newState == m.current then m
    else
      var n := m.(previous := m.current, current := newState);
      if m.triggerEvents then n.(events := n.events + [StateChange(newState, m.current)]) else n
  }

  /** RestorePreviousState: the previous state becomes current again (previous
      itself is kept), announced unconditionally when events are on. */
  function Restored<T(==)>(m: Machine<T>): Machine<T>
  {
    var n := m.(current := m.previous);
    if m.triggerEvents then n.(events := n.events + [StateChange(m.previous, m.previous)]) else n
  }

  /** The operations a caller can perform on a machine. */
  datatype Op<T> = Change(newState: T) | Restore | SetEvents(on: bool)

  function Apply<T(==)>(m: Machine<T>, op: Op<T>): Machine<T>
  {
    match op
    case Change(x) => Changed(m, x)
    case Restore => Restored(m)
    case SetEvents(on) => m.(triggerEvents := on)
  }

  function Run<T(==)>(m: Machine<T>, ops: seq<Op<T>>): Machine<T>
    decreases |ops|
  {
    if ops == [] then m else Run(Apply(m, ops[0]), ops[1..])
  }

  /** Changing to the current state is a no-op: no state change, no event. */
  lemma ChangeToCurrentIsNoop<T>(m: Machine<T>)
    ensures Changed(m, m.current) == m
  {
  }

  /** A real change remembers where it came from, and emits exactly one event
      describing the move exactly when events are on. */
  lemma ChangeRecordsPrevious<T>(m: Machine<T>, x: T)
    requires x != m.current
    ensures Changed(m, x).current == x && Changed(m, x).previous == m.current
    ensures m.triggerEvents ==> Changed(m, x).events == m.events + [StateChange(x, m.current)]
    ensures !m.triggerEvents ==> Changed(m, x).events == m.events
  {
  }

  /** Change followed by restore returns to the state before the change; a
      change to the current state does not move previous, so the restore then
      goes back to the older previous state instead. */
  lemma ChangeThenRestore<T>(m: Machine<T>, x: T)
    ensures x != m.current ==> Restored(Changed(m, x)).current == m.current
    ensures x == m.current ==> Restored(Changed(m, x)).current == m.previous
  {
  }

  /** A second restore leaves both states where the first one put them, and
      its event reports the same state as new and previous. */
  lemma RestoreTwice<T>(m: Machine<T>)
    ensures var once := Restored(m);
      Restored(once).current == once.current && Restored(once).previous == once.previous
    ensures m.triggerEvents ==> Restored(m).events[|m.events|] == StateChange(m.previous, m.previous)
  {
  }

  /** While events stay on, the latest notification always describes the
      machine's current pair (current, previous). */
  predicate LastEventDescribes<T(==)>(m: Machine<T>)
  {
    m.events != [] ==> m.events[|m.events| - 1] == StateChange(m.current, m.previous)
  }

  predicate NeverSilences<T(==)>(ops: seq<Op<T>>)
  {
    forall i :: 0 <= i < |ops| ==> ops[i] != SetEvents(false)
  }

  lemma {:induction false} LastEventDescribesCurrent<T>(m: Machine<T>, ops: seq<Op<T>>)
    requires m.triggerEvents && LastEventDescribes(m) && NeverSilences(ops)
    ensures LastEventDescribes(Run(m, ops))
    decreases |ops|
  {
    if ops != [] {
      var next := Apply(m, ops[0]);
      assert ops[0] != SetEvents(false);
      assert next.triggerEvents && LastEventDescribes(next);
      assert NeverSilences(ops[1..]) by {
        forall i | 0 <= i < |ops| - 1
          ensures ops[1..][i] != SetEvents(false)
        {
          assert ops[1..][i] == ops[i + 1];
        }
      }
      LastEventDescribesCurrent(next, ops[1..]);
    }
  }

  /** With events off, no sequence of changes and restores emits anything. */
  lemma {:induction false} SilentRunEmitsNothing<T>(m: Machine<T>, ops: seq<Op<T>>)
    requires !m.triggerEvents
    requires forall i :: 0 <= i < |ops| ==> !ops[i].SetEvents?
    ensures Run(m, ops).events == m.events
    decreases |ops|
  {
    if ops != [] {
      var next := Apply(m, ops[0]);
      assert !next.triggerEvents && next.events == m.events;
      forall i | 0 <= i < |ops[1..]|
        ensures !ops[1..][i].SetEvents?
      {
        assert ops[1..][i] == ops[i + 1];
      }
      SilentRunEmitsNothing(next, ops[1..]);
    }
  }

  class StateMachine<T(==)> {
    var triggerEvents: bool
    var current: T
    var previous: T
    var events: seq<StateChange<T>>

    ghost function Snapshot(): Machine<T>
      reads this
    {
      Machine(current, previous, triggerEvents, events)
    }

    /** The parameterless constructor: both states start at the type's
        default value, given here as `initial`; events are off. */
    constructor Basic(initial: T)
      ensures Snapshot() == Machine(initial, initial, false, [])
    {
      triggerEvents := false;
      current := initial;
      previous := initial;
      events := [];
    }

    constructor (initial: T, triggerEvents: bool)
      ensures Snapshot() == Machine(initial, initial, triggerEvents, [])
    {
      this.triggerEvents := triggerEvents;
      current := initial;
      previous := initial;
      events := [];
    }

    method SetTriggerEvents(on: bool)
      modifies this
      ensures Snapshot() == Apply(old(Snapshot()), SetEvents(on))
    {
      triggerEvents := on;
    }

    method ChangeState(newState: T)
      modifies this
      ensures Snapshot() == Changed(old(Snapshot()), newState)
    {
      if newState == current {
        return;
      }
      previous := current;
      current := newState;
      if triggerEvents {
        events := events + [StateChange(current, previous)];
      }
    }

    method RestorePreviousState()
      modifies this
      ensures Snapshot() == Restored(old(Snapshot()))
    {
      current := previous;
      if triggerEvents {
        events := events + [StateChange(current, previous)];
      }
    }
  }
}
