/** SingletonBehaviour: the first object of a behaviour type to wake up
    registers itself as the type's Instance and is initialised; any later one
    is marked a duplicate (and destroyed by the engine). Destroying the
    registered object clears Instance and shuts it down. */
module Singletons {
  import opened Common

  /** The static Instance of one behaviour type, with what the engine and the
      hooks have seen: the objects woken, marked duplicate, destroyed and
      initialised, and the order of the Initialize and Shutdown calls. */
  datatype World<T> = World(instance: Option<T>, awake: set<T>, duplicates: set<T>, destroyed: set<T>,
                            initialized: set<T>, initializeCalls: seq<T>, shutdownCalls: seq<T>)

  function Empty<T>(): World<T>
  {
    World(None, {}, {}, {}, {}, [], [])
  }

  /** Awake of x. */
  function AfterAwake<T>(w: World<T>, x: T): World<T>
  {
    if w.instance.Some? then w.(awake := w.awake + {x}, duplicates := w.duplicates + {x})
    else w.(awake := w.awake + {x}, instance := Some(x), initializeCalls := w.initializeCalls + [x],
            initialized := w.initialized + {x})
  }

  /** OnDestroy of x: a non-duplicate clears Instance, is shut down and is no
      longer initialised; either way x stops being a duplicate. */
  function AfterDestroy<T>(w: World<T>, x: T): World<T>
  {
    var v := if x !in w.duplicates then w.(instance := None, shutdownCalls := w.shutdownCalls + [x],
                                           initialized := w.initialized - {x})
             else w;
    v.(duplicates := v.duplicates - {x}, destroyed := v.destroyed + {x})
  }

  datatype Op<T> = Awake(x: T) | Destroy(x: T)

  /** The engine wakes each object once and destroys only a woken object,
      once; other calls do not happen and change nothing. */
  function Apply<T>(w: World<T>, op: Op<T>): World<T>
  {
    match op
    case Awake(x) => if x in w.awake then w else AfterAwake(w, x)
    case Destroy(x) => if x !in w.awake || x in w.destroyed then w else AfterDestroy(w, x)
  }

  function Run<T>(w: World<T>, ops: seq<Op<T>>): World<T>
    decreases |ops|
  {
    if ops == [] then w else Run(Apply(w, ops[0]), ops[1..])
  }

  /** The registration invariant. */
  predicate Inv<T>(w: World<T>)
  {
    && w.destroyed <= w.awake
    && w.duplicates <= w.awake - w.destroyed
    // A live object that is not a duplicate is the registered instance.
    && (forall x :: x in w.awake && x !in w.destroyed && x !in w.duplicates ==> w.instance == Some(x))
    && (w.instance.Some? ==> w.instance.value in w.awake && w.instance.value !in w.destroyed
                             && w.instance.value !in w.duplicates)
    // Only the registered instance is initialised.
    && w.initialized == (if w.instance.Some? then {w.instance.value} else {})
    // Shutdown follows Initialize, object by object, in order.
    && |w.shutdownCalls| <= |w.initializeCalls|
    && w.shutdownCalls == w.initializeCalls[..|w.shutdownCalls|]
    && |w.initializeCalls| == |w.shutdownCalls| + (if w.instance.Some? then 1 else 0)
    && (w.instance.Some? ==> w.initializeCalls[|w.initializeCalls| - 1] == w.instance.value)
    // Each object is initialised at most once, and never a duplicate.
    && (forall i, j :: 0 <= i < j < |w.initializeCalls| ==> w.initializeCalls[i] != w.initializeCalls[j])
    && (forall i :: 0 <= i < |w.initializeCalls| ==>
          w.initializeCalls[i] in w.awake && w.initializeCalls[i] !in w.duplicates)
  }

  lemma AwakeKeepsInv<T>(w: World<T>, x: T)
    requires Inv(w) && x !in w.awake
    ensures Inv(AfterAwake(w, x))
  {
    var v := AfterAwake(w, x);
    forall y | y in v.awake && y !in v.destroyed && y !in v.duplicates
      ensures v.instance == Some(y)
    {
      if y != x {
        assert y in w.awake && y !in w.destroyed && y !in w.duplicates;
      }
    }
    if w.instance.None? {
      assert v.initializeCalls[..|v.shutdownCalls|] == w.initializeCalls[..|w.shutdownCalls|];
      forall i | 0 <= i < |v.initializeCalls|
        ensures v.initializeCalls[i] in v.awake && v.initializeCalls[i] !in v.duplicates
      {
        if i < |w.initializeCalls| {
          assert v.initializeCalls[i] == w.initializeCalls[i];
        }
      }
    }
  }

  lemma DestroyKeepsInv<T>(w: World<T>, x: T)
    requires Inv(w) && x in w.awake && x !in w.destroyed
    ensures Inv(AfterDestroy(w, x))
  {
    var v := AfterDestroy(w, x);
    if x !in w.duplicates {
      assert w.instance == Some(x);
      assert v.shutdownCalls == w.initializeCalls;
      assert v.initializeCalls[..|v.shutdownCalls|] == w.initializeCalls;
    }
  }

  lemma {:induction false} RunKeepsInv<T>(w: World<T>, ops: seq<Op<T>>)
    requires Inv(w)
    ensures Inv(Run(w, ops))
    decreases |ops|
  {
    if ops != [] {
      match ops[0] {
        case Awake(x) =>
          if x !in w.awake {
            AwakeKeepsInv(w, x);
          }
        case Destroy(x) =>
          if x in w.awake && x !in w.destroyed {
            DestroyKeepsInv(w, x);
          }
      }
      RunKeepsInv(Apply(w, ops[0]), ops[1..]);
    }
  }

  /** Over any lifetime of a behaviour type: at most one object is
      initialised, no object is initialised twice, a duplicate never is, and
      the Shutdown calls are the Initialize calls in the same order, missing
      at most the live instance's. */
  lemma OneInstanceAtATime<T>(ops: seq<Op<T>>)
    ensures var w := Run(Empty<T>(), ops);
      && |w.initialized| <= 1
      && (forall i, j :: 0 <= i < j < |w.initializeCalls| ==> w.initializeCalls[i] != w.initializeCalls[j])
      && (forall x :: x in w.duplicates ==> x !in w.initializeCalls)
      && w.shutdownCalls <= w.initializeCalls
      && |w.initializeCalls| - |w.shutdownCalls| == (if w.instance.Some? then 1 else 0)
  {
    RunKeepsInv(Empty<T>(), ops);
  }

  /** A duplicate's Awake leaves Instance as it was; its OnDestroy too. */
  lemma DuplicateLeavesInstance<T>(w: World<T>, x: T)
    requires w.instance.Some?
    ensures AfterAwake(w, x).instance == w.instance && x in AfterAwake(w, x).duplicates
    ensures AfterAwake(w, x).initializeCalls == w.initializeCalls
    ensures AfterDestroy(AfterAwake(w, x), x).instance == w.instance
    ensures AfterDestroy(AfterAwake(w, x), x).shutdownCalls == w.shutdownCalls
    ensures x !in AfterDestroy(AfterAwake(w, x), x).duplicates
  {
  }

  /** The slot behind a type's static Instance property. The sets and the
      hook-call log are bookkeeping for the registration invariant. */
  class InstanceSlot {
    var instance: object?
    ghost var awake: set<object>
    ghost var duplicates: set<object>
    ghost var destroyed: set<object>
    ghost var initialized: set<object>
    ghost var initializeCalls: seq<object>
    ghost var shutdownCalls: seq<object>

    ghost function Registry(): World<object>
      reads this
    {
      var registered: Option<object> := if instance == null then None else Some(instance as object);
      World(registered, awake, duplicates, destroyed, initialized, initializeCalls, shutdownCalls)
    }

    constructor ()
      ensures Registry() == Empty<object>()
    {
      instance := null;
      awake := {};
      duplicates := {};
      destroyed := {};
      initialized := {};
      initializeCalls := [];
      shutdownCalls := [];
    }
  }

  /** The SingletonBehaviour part of a behaviour object. */
  class Singleton {
    const slot: InstanceSlot
    var isInitialized: bool
    var isDuplicate: bool

    /** This object's own fields agree with the slot's bookkeeping. */
    ghost predicate Tracked()
      reads this, slot
    {
      && (isDuplicate <==> this in slot.duplicates)
      && (isInitialized <==> this in slot.initialized)
    }

    constructor (slot: InstanceSlot)
      ensures this.slot == slot && !isInitialized && !isDuplicate
    {
      this.slot := slot;
      isInitialized := false;
      isDuplicate := false;
    }

    /** Returns whether the subclass's Initialize is to run: exactly when no
        instance was registered. */
    method Awake() returns (initialize: bool)
      requires this !in slot.awake && this !in slot.duplicates && this !in slot.initialized
      requires !isInitialized && !isDuplicate
      modifies this, slot
      ensures slot.Registry() == AfterAwake(old(slot.Registry()), this) && Tracked()
      ensures initialize <==> old(slot.instance) == null
      ensures old(slot.instance) != null ==> isDuplicate && !isInitialized && slot.instance == old(slot.instance)
      ensures old(slot.instance) == null ==> !isDuplicate && isInitialized && slot.instance == this
    {
      slot.awake := slot.awake + {this};
      if slot.instance != null {
        isDuplicate := true;
        slot.duplicates := slot.duplicates + {this};
        return false;
      }
      slot.instance := this;
      slot.initializeCalls := slot.initializeCalls + [this];
      isInitialized := true;
      slot.initialized := slot.initialized + {this};
      return true;
    }

    /** Returns whether the subclass's Shutdown is to run: exactly when this
        object is not a duplicate. */
    method OnDestroy() returns (shutdown: bool)
      requires Tracked()
      modifies this, slot
      ensures slot.Registry() == AfterDestroy(old(slot.Registry()), this) && Tracked()
      ensures shutdown <==> !old(isDuplicate)
      ensures !isDuplicate
      ensures !old(isDuplicate) ==> slot.instance == null && !isInitialized
      ensures old(isDuplicate) ==> slot.instance == old(slot.instance) && isInitialized == old(isInitialized)
    {
      shutdown := !isDuplicate;
      if !isDuplicate {
        slot.instance := null;
        slot.shutdownCalls := slot.shutdownCalls + [this];
        isInitialized := false;
        slot.initialized := slot.initialized - {this};
      }
      isDuplicate := false;
      slot.duplicates := slot.duplicates - {this};
      slot.destroyed := slot.destroyed + {this};
    }
  }
}
