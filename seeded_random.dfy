/** SeededRandomContext: a private random stream on top of the engine's one
    global random generator. Each draw swaps the context's saved state into
    the global generator, draws, saves the advanced state back and restores
    the global state, so the context behaves as if it had a generator of its
    own. The generator's algorithm is left abstract: an initial state per
    seed and a step per kind of draw. */
module SeededRandom {

  /** The kinds of draw the context passes through. */
  datatype Draw = Value | RangeFloat(minF: real, maxF: real) | RangeInt(minI: int, maxI: int)
                | OnUnitSphere | InsideUnitSphere | InsideUnitCircle | Rotation | RotationUniform

  /** A drawn value: a float, an int, or the components of a vector or
      quaternion. */
  datatype Sample = Real(r: real) | Int(i: int) | Vector(components: seq<real>)

  /** The engine's generator over states S: InitState and one step per draw,
      giving the next state and the value drawn. */
  datatype Generator<!S> = Generator(init: int -> S, step: (S, Draw) -> (S, Sample))

  /** The draws ds made one after another from state s: the final state and
      the values, in order. */
  function DrawAll<S>(gen: Generator<S>, s: S, ds: seq<Draw>): (r: (S, seq<Sample>))
    ensures |r.1| == |ds|
    decreases |ds|
  {
    if ds == [] then (s, [])
    else
      var next := gen.step(s, ds[0]);
      var rest := DrawAll(gen, next.0, ds[1..]);
      (rest.0, [next.1] + rest.1)
  }

  /** Drawing one more continues the stream where it stopped. */
  lemma {:induction false} DrawAllSnoc<S>(gen: Generator<S>, s: S, ds: seq<Draw>, d: Draw)
    ensures var before := DrawAll(gen, s, ds);
      DrawAll(gen, s, ds + [d]) == (gen.step(before.0, d).0, before.1 + [gen.step(before.0, d).1])
    decreases |ds|
  {
    if ds == [] {
      assert ds + [d] == [d] && [d][1..] == [];
      var v := gen.step(s, d).1;
      assert [v] + [] == [] + [v];
    } else {
      assert (ds + [d])[0] == ds[0] && (ds + [d])[1..] == ds[1..] + [d];
      var first := gen.step(s, ds[0]);
      var tail := DrawAll(gen, first.0, ds[1..]);
      DrawAllSnoc(gen, first.0, ds[1..], d);
      assert [first.1] + (tail.1 + [gen.step(tail.0, d).1]) == ([first.1] + tail.1) + [gen.step(tail.0, d).1];
    }
  }

  /** A draw request from one of several contexts. */
  datatype Request = Request(context: nat, draw: Draw)

  predicate Addressed<S>(internals: seq<S>, rs: seq<Request>)
  {
    forall i :: 0 <= i < |rs| ==> rs[i].context < |internals|
  }

  /** Requests served in order by contexts whose saved states are internals:
      each request advances only its own context's state. */
  function Served<S>(gen: Generator<S>, internals: seq<S>, rs: seq<Request>): (r: (seq<S>, seq<Sample>))
    requires Addressed(internals, rs)
    ensures |r.0| == |internals| && |r.1| == |rs|
    decreases |rs|
  {
    if rs == [] then (internals, [])
    else
      var c := rs[0].context;
      var next := gen.step(internals[c], rs[0].draw);
      var rest := Served(gen, internals[c := next.0], rs[1..]);
      (rest.0, [next.1] + rest.1)
  }

  /** The draws context c asked for, in order. */
  function Only(rs: seq<Request>, c: nat): seq<Draw>
    decreases |rs|
  {
    if rs == [] then []
    else if rs[0].context == c then [rs[0].draw] + Only(rs[1..], c)
    else Only(rs[1..], c)
  }

  /** The values handed to context c. */
  function OutputsOf(rs: seq<Request>, outputs: seq<Sample>, c: nat): seq<Sample>
    requires |outputs| == |rs|
    decreases |rs|
  {
    if rs == [] then []
    else if rs[0].context == c then [outputs[0]] + OutputsOf(rs[1..], outputs[1..], c)
    else OutputsOf(rs[1..], outputs[1..], c)
  }

  /** However the requests of several contexts interleave, each context gets
      exactly the values (and ends in the state) its own draws would give
      from its own saved state. */
  lemma {:induction false} InterleavingIrrelevant<S>(gen: Generator<S>, internals: seq<S>, rs: seq<Request>, c: nat)
    requires Addressed(internals, rs) && c < |internals|
    ensures var served := Served(gen, internals, rs);
      && OutputsOf(rs, served.1, c) == DrawAll(gen, internals[c], Only(rs, c)).1
      && served.0[c] == DrawAll(gen, internals[c], Only(rs, c)).0
    decreases |rs|
  {
    if rs != [] {
      var k := rs[0].context;
      var next := gen.step(internals[k], rs[0].draw);
      var after := internals[k := next.0];
      assert Addressed(after, rs[1..]);
      InterleavingIrrelevant(gen, after, rs[1..], c);
      var served := Served(gen, internals, rs);
      var rest := Served(gen, after, rs[1..]);
      assert served.1[1..] == rest.1;
      if k == c {
        assert Only(rs, c)[1..] == Only(rs[1..], c);
      }
    }
  }

  /** Two contexts made from the same seed that ask for the same draws get
      the same values, whatever else happens in between. */
  lemma SameSeedSameDraws<S>(gen: Generator<S>, seed: int, internals: seq<S>, rs: seq<Request>, a: nat, b: nat)
    requires Addressed(internals, rs) && a < |internals| && b < |internals|
    requires internals[a] == gen.init(seed) && internals[b] == gen.init(seed)
    requires Only(rs, a) == Only(rs, b)
    ensures var served := Served(gen, internals, rs); OutputsOf(rs, served.1, a) == OutputsOf(rs, served.1, b)
  {
    InterleavingIrrelevant(gen, internals, rs, a);
    InterleavingIrrelevant(gen, internals, rs, b);
  }

  /** The engine's global generator: Random.state and the calls on it. */
  class GlobalRandom<S> {
    const gen: Generator<S>
    var state: S

    constructor (gen: Generator<S>, state: S)
      ensures this.gen == gen && this.state == state
    {
      this.gen := gen;
      this.state := state;
    }

    method InitState(seed: int)
      modifies this
      ensures state == gen.init(seed)
    {
      state := gen.init(seed);
    }

    method Next(d: Draw) returns (value: Sample)
      modifies this
      ensures (state, value) == gen.step(old(state), d)
    {
      var next := gen.step(state, d);
      state := next.0;
      value := next.1;
    }
  }

  class SeededRandomContext<S> {
    const seed: int
    const random: GlobalRandom<S>
    var internalState: S
    var tempState: S

    /** The integer-seed constructor. */
    constructor (seed: int, random: GlobalRandom<S>)
      modifies random
      ensures this.seed == seed && this.random == random
      ensures internalState == random.gen.init(seed) && random.state == old(random.state)
    {
      this.seed := seed;
      this.random := random;
      internalState := random.state;
      tempState := random.state;
      new;
      Reset();
    }

    /** The saved state goes back to the seed's initial state; the global
        state is left as it was. */
    method Reset()
      modifies this, random
      ensures internalState == random.gen.init(seed) && random.state == old(random.state)
      ensures tempState == old(tempState)
    {
      var outOfScopeState := random.state;
      random.InitState(seed);
      internalState := random.state;
      random.state := outOfScopeState;
    }

    method PushState()
      modifies this, random
      ensures tempState == old(random.state) && random.state == old(internalState)
      ensures internalState == old(internalState)
    {
      tempState := random.state;
      random.state := internalState;
    }

    method PopState()
      modifies this, random
      ensures internalState == old(random.state) && random.state == old(tempState)
      ensures tempState == old(tempState)
    {
      internalState := random.state;
      random.state := tempState;
    }

    /** Every draw: the value and the next saved state come from the
        context's own saved state, and the global state is unchanged. */
    method Sampled(d: Draw) returns (value: Sample)
      modifies this, random
      ensures (internalState, value) == random.gen.step(old(internalState), d)
      ensures random.state == old(random.state)
    {
      PushState();
      value := random.Next(d);
      PopState();
    }

    method NextValue() returns (value: Sample)
      modifies this, random
      ensures (internalState, value) == random.gen.step(old(internalState), Value)
      ensures random.state == old(random.state)
    {
      value := Sampled(Value);
    }

    method RangeReal(min: real, max: real) returns (value: Sample)
      modifies this, random
      ensures (internalState, value) == random.gen.step(old(internalState), RangeFloat(min, max))
      ensures random.state == old(random.state)
    {
      value := Sampled(RangeFloat(min, max));
    }

    method RangeWhole(min: int, max: int) returns (value: Sample)
      modifies this, random
      ensures (internalState, value) == random.gen.step(old(internalState), RangeInt(min, max))
      ensures random.state == old(random.state)
    {
      value := Sampled(RangeInt(min, max));
    }

    method UnitSphere() returns (value: Sample)
      modifies this, random
      ensures (internalState, value) == random.gen.step(old(internalState), OnUnitSphere)
      ensures random.state == old(random.state)
    {
      value := Sampled(OnUnitSphere);
    }

    method InUnitSphere() returns (value: Sample)
      modifies this, random
      ensures (internalState, value) == random.gen.step(old(internalState), InsideUnitSphere)
      ensures random.state == old(random.state)
    {
      value := Sampled(InsideUnitSphere);
    }

    method InUnitCircle() returns (value: Sample)
      modifies this, random
      ensures (internalState, value) == random.gen.step(old(internalState), InsideUnitCircle)
      ensures random.state == old(random.state)
    {
      value := Sampled(InsideUnitCircle);
    }

    method NextRotation() returns (value: Sample)
      modifies this, random
      ensures (internalState, value) == random.gen.step(old(internalState), Rotation)
      ensures random.state == old(random.state)
    {
      value := Sampled(Rotation);
    }

    method NextRotationUniform() returns (value: Sample)
      modifies this, random
      ensures (internalState, value) == random.gen.step(old(internalState), RotationUniform)
      ensures random.state == old(random.state)
    {
      value := Sampled(RotationUniform);
    }
  }

  /** The disposable scope: while open, the engine's global generator runs
      on the context's saved state. */
  class ScopedSeed<S> {
    const context: SeededRandomContext<S>
    const previousState: S
    var disposed: bool

    constructor (context: SeededRandomContext<S>)
      modifies context.random
      ensures this.context == context && !disposed
      ensures previousState == old(context.random.state) && context.random.state == context.internalState
    {
      this.context := context;
      previousState := context.random.state;
      disposed := false;
      new;
      context.random.state := context.internalState;
    }

    /** The first call hands the global state back to the context and
        restores the state seen on creation; later calls do nothing. */
    method Dispose()
      modifies this, context, context.random
      ensures disposed
      ensures old(disposed) ==> unchanged(this, context, context.random)
      ensures !old(disposed) ==>
        && context.internalState == old(context.random.state)
        && context.random.state == previousState
        && context.tempState == old(context.tempState)
    {
      if disposed {
        return;
      }
      context.internalState := context.random.state;
      context.random.state := previousState;
      disposed := true;
    }
  }
}
