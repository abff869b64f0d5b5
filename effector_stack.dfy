/** FloatEffectorStack: a dictionary from an owner key to a contribution,
    reduced to one value by folding a combine function over the stored
    contributions, starting from a default.

    The dictionary is modelled as the sequence of its entries in iteration
    order, with no owner stored twice. Add appends; Remove closes the gap. */
module EffectorStacks {
  import opened Common

  /** One stored contribution: the owner key and its weight. */
  datatype Effector<K> = Effector(owner: K, weight: real)

  /** The stored weights in iteration order (the dictionary's Values). */
  function Weights<K>(es: seq<Effector<K>>): (ws: seq<real>)
    ensures |ws| == |es| && forall i :: 0 <= i < |es| ==> ws[i] == es[i].weight
  {
    seq(|es|, i requires 0 <= i < |es| => es[i].weight)
  }

  /** Left fold: f(...f(f(acc, ws[0]), ws[1])..., ws[n-1]). */
  function Fold(f: (real, real) -> real, acc: real, ws: seq<real>): real
    decreases |ws|
  {
    if ws == [] then acc else Fold(f, f(acc, ws[0]), ws[1..])
  }

  predicate HasOwner<K(==)>(es: seq<Effector<K>>, k: K)
  {
    exists i :: 0 <= i < |es| && es[i].owner == k
  }

  predicate UniqueOwners<K(==)>(es: seq<Effector<K>>)
  {
    forall i, j :: 0 <= i < j < |es| ==> es[i].owner != es[j].owner
  }

  lemma HasOwnerSplit<K>(es: seq<Effector<K>>, k: K)
    requires es != []
    ensures HasOwner(es, k) <==> es[0].owner == k || HasOwner(es[1..], k)
  {
    if HasOwner(es, k) && es[0].owner != k {
      var i :| 0 <= i < |es| && es[i].owner == k;
      assert es[1..][i - 1].owner == k;
    }
    if HasOwner(es[1..], k) {
      var i :| 0 <= i < |es[1..]| && es[1..][i].owner == k;
      assert es[i + 1].owner == k;
    }
  }

  /** The dictionary's lookup: the weight stored for k, if any. */
  function WeightOf<K(==)>(es: seq<Effector<K>>, k: K): (r: Option<real>)
    ensures r.Some? <==> HasOwner(es, k)
  {
    if es == [] then None
    else if es[0].owner == k then Some(es[0].weight)
    else
      HasOwnerSplit(es, k);
      WeightOf(es[1..], k)
  }

  lemma {:induction false} WeightOfAppend<K>(es: seq<Effector<K>>, e: Effector<K>, o: K)
    ensures WeightOf(es + [e], o) ==
      if HasOwner(es, o) then WeightOf(es, o)
      else if e.owner == o then Some(e.weight) else None
  {
    if es != [] {
      assert (es + [e])[0] == es[0];
      assert (es + [e])[1..] == es[1..] + [e];
      WeightOfAppend(es[1..], e, o);
    }
  }

  /** Push: Add under a ContainsKey guard, so the first write wins. The new
      owner goes last in iteration order. */
  function Pushed<K(==)>(es: seq<Effector<K>>, k: K, v: real): (r: seq<Effector<K>>)
    ensures WeightOf(r, k) == if HasOwner(es, k) then WeightOf(es, k) else Some(v)
    ensures Weights(r) == Weights(es) + (if HasOwner(es, k) then [] else [v])
    ensures UniqueOwners(es) ==> UniqueOwners(r)
  {
    if HasOwner(es, k) then es
    else
      WeightOfAppend(es, Effector(k, v), k);
      es + [Effector(k, v)]
  }

  /** Push changes no other owner's weight. */
  lemma PushedKeepsOthers<K>(es: seq<Effector<K>>, k: K, v: real, o: K)
    requires o != k
    ensures WeightOf(Pushed(es, k, v), o) == WeightOf(es, o)
  {
    if !HasOwner(es, k) {
      WeightOfAppend(es, Effector(k, v), o);
    }
  }

  /** Update: the indexer overwrites the weight of an owner already present,
      in place; an absent owner leaves the entries as they were. */
  function Updated<K(==)>(es: seq<Effector<K>>, k: K, v: real): (r: seq<Effector<K>>)
    ensures |r| == |es| && forall i :: 0 <= i < |es| ==> r[i].owner == es[i].owner
    ensures WeightOf(r, k) == if HasOwner(es, k) then Some(v) else None
    ensures !HasOwner(es, k) ==> r == es
  {
    if es == [] then []
    else
      var rest := Updated(es[1..], k, v);
      var r := [if es[0].owner == k then Effector(k, v) else es[0]] + rest;
      assert r[1..] == rest;
      HasOwnerSplit(es, k);
      assert !HasOwner(es, k) ==> es == [es[0]] + es[1..];
      r
  }

  /** Update changes no other owner's weight. */
  lemma {:induction false} UpdatedKeepsOthers<K>(es: seq<Effector<K>>, k: K, v: real, o: K)
    requires o != k
    ensures WeightOf(Updated(es, k, v), o) == WeightOf(es, o)
  {
    if es != [] {
      var r := Updated(es, k, v);
      assert r[1..] == Updated(es[1..], k, v);
      UpdatedKeepsOthers(es[1..], k, v, o);
    }
  }

  /** Pop: Remove the owner. The remaining entries keep their order. */
  function Popped<K(==)>(es: seq<Effector<K>>, k: K): seq<Effector<K>>
  {
    if es == [] then []
    else if es[0].owner == k then Popped(es[1..], k)
    else [es[0]] + Popped(es[1..], k)
  }

  /** After Pop the owner is gone, and an absent owner leaves the entries as
      they were. */
  lemma {:induction false} PoppedRemovesOwner<K>(es: seq<Effector<K>>, k: K)
    ensures !HasOwner(Popped(es, k), k)
    ensures !HasOwner(es, k) ==> Popped(es, k) == es
  {
    if es != [] {
      PoppedRemovesOwner(es[1..], k);
      var rest := Popped(es[1..], k);
      HasOwnerSplit(es, k);
      if es[0].owner != k {
        var r := [es[0]] + rest;
        assert r[1..] == rest;
        HasOwnerSplit(r, k);
        assert !HasOwner(es, k) ==> es == [es[0]] + es[1..];
      }
    }
  }

  /** Pop adds nothing: every remaining entry was stored before. */
  lemma {:induction false} PoppedIsSubset<K>(es: seq<Effector<K>>, k: K)
    ensures forall i :: 0 <= i < |Popped(es, k)| ==> Popped(es, k)[i] in es
  {
    if es != [] {
      PoppedIsSubset(es[1..], k);
      var rest := Popped(es[1..], k);
      var r := Popped(es, k);
      forall i | 0 <= i < |r| ensures r[i] in es {
        if es[0].owner != k && i == 0 {
        } else {
          var j := if es[0].owner == k then i else i - 1;
          assert r[i] == rest[j] && rest[j] in es[1..];
        }
      }
    }
  }

  /** Pop keeps owners unique. */
  lemma {:induction false} PoppedKeepsUnique<K>(es: seq<Effector<K>>, k: K)
    requires UniqueOwners(es)
    ensures UniqueOwners(Popped(es, k))
  {
    if es != [] {
      assert UniqueOwners(es[1..]);
      PoppedKeepsUnique(es[1..], k);
      if es[0].owner != k {
        var rest := Popped(es[1..], k);
        var r := [es[0]] + rest;
        PoppedIsSubset(es[1..], k);
        forall i, j | 0 <= i < j < |r| ensures r[i].owner != r[j].owner {
          if i == 0 {
            assert r[j] == rest[j - 1] && rest[j - 1] in es[1..];
            var m :| 0 <= m < |es[1..]| && es[1..][m] == rest[j - 1];
            assert es[m + 1] == r[j];
          } else {
            assert r[i] == rest[i - 1] && r[j] == rest[j - 1];
          }
        }
      }
    }
  }

  /** Pop changes no other owner's weight. */
  lemma {:induction false} PoppedKeepsOthers<K>(es: seq<Effector<K>>, k: K, o: K)
    requires o != k
    ensures WeightOf(Popped(es, k), o) == WeightOf(es, o)
  {
    if es != [] {
      var rest := Popped(es[1..], k);
      PoppedKeepsOthers(es[1..], k, o);
      if es[0].owner != k {
        assert ([es[0]] + rest)[1..] == rest;
      }
    }
  }

  /** Popping the owner a Push just added restores the previous entries:
      a field's enter and exit cancel out. */
  lemma {:induction false} PopUndoesPush<K>(es: seq<Effector<K>>, k: K, v: real)
    requires !HasOwner(es, k)
    ensures Popped(Pushed(es, k, v), k) == es
  {
    if es != [] {
      HasOwnerSplit(es, k);
      var pushed := es + [Effector(k, v)];
      assert pushed[1..] == es[1..] + [Effector(k, v)];
      assert !HasOwner(es[1..], k) ==> Pushed(es[1..], k, v) == es[1..] + [Effector(k, v)];
      PopUndoesPush(es[1..], k, v);
    } else {
      assert Pushed(es, k, v) == [Effector(k, v)];
      assert [Effector(k, v)][1..] == [];
    }
  }

  lemma {:induction false} FoldSnoc(f: (real, real) -> real, acc: real, ws: seq<real>, w: real)
    ensures Fold(f, acc, ws + [w]) == f(Fold(f, acc, ws), w)
    decreases |ws|
  {
    if ws != [] {
      assert (ws + [w])[1..] == ws[1..] + [w];
      FoldSnoc(f, f(acc, ws[0]), ws[1..], w);
    }
  }

  /** The combine function the game uses: the midpoint of the two values. */
  function RoughAverage(left: real, right: real): (m: real)
    ensures m - left == right - m
    ensures left <= right ==> left <= m <= right
    ensures right <= left ==> right <= m <= left
  {
    (left + right) * 0.5
  }

  lemma RoughAverageCommutes(a: real, b: real)
    ensures RoughAverage(a, b) == RoughAverage(b, a)
  {
  }

  /** RoughAverage is not associative. */
  lemma RoughAverageNotAssociative()
    ensures RoughAverage(RoughAverage(0.0, 0.0), 4.0) != RoughAverage(0.0, RoughAverage(0.0, 4.0))
  {
  }

  /** With two contributions the stack's value depends on iteration order:
      from default 1, pushing 0 then 2 gives 1.25, pushing 2 then 0 gives 0.75. */
  lemma RoughAverageFoldIsOrderDependent()
    ensures Fold(RoughAverage, 1.0, [0.0, 2.0]) == 1.25
    ensures Fold(RoughAverage, 1.0, [2.0, 0.0]) == 0.75
  {
    assert [0.0, 2.0][1..] == [2.0];
    assert [2.0, 0.0][1..] == [0.0];
    assert [2.0][1..] == [];
    assert [0.0][1..] == [];
  }

  /** The condition under which fold order does not matter: the combine can
      absorb two values in either order. */
  ghost predicate RightCommutative(f: (real, real) -> real)
  {
    forall a, x, y :: f(f(a, x), y) == f(f(a, y), x)
  }

  lemma RoughAverageNotRightCommutative()
    ensures !RightCommutative(RoughAverage)
  {
    assert RoughAverage(RoughAverage(1.0, 0.0), 2.0) != RoughAverage(RoughAverage(1.0, 2.0), 0.0);
  }

  lemma RightCommute(f: (real, real) -> real, a: real, x: real, y: real)
    requires RightCommutative(f)
    ensures f(f(a, x), y) == f(f(a, y), x)
  {
  }

  lemma {:induction false} FoldMoveToFront(f: (real, real) -> real, a: real, u: seq<real>, x: real, v: seq<real>)
    requires RightCommutative(f)
    ensures Fold(f, a, u + [x] + v) == Fold(f, f(a, x), u + v)
    decreases |u|
  {
    if u == [] {
      assert u + [x] + v == [x] + v;
      assert ([x] + v)[1..] == v;
      assert u + v == v;
    } else {
      assert (u + [x] + v)[1..] == u[1..] + [x] + v;
      assert (u + v)[1..] == u[1..] + v;
      FoldMoveToFront(f, f(a, u[0]), u[1..], x, v);
      RightCommute(f, a, u[0], x);
    }
  }

  /** For a right-commutative combine the stack's value does not depend on the
      dictionary's iteration order: any permutation folds to the same value. */
  lemma {:induction false} FoldPermutationInvariant(f: (real, real) -> real, a: real, xs: seq<real>, ys: seq<real>)
    requires RightCommutative(f)
    requires multiset(xs) == multiset(ys)
    ensures Fold(f, a, xs) == Fold(f, a, ys)
    decreases |xs|
  {
    if xs == [] {
      assert |ys| == |multiset(ys)| == 0;
    } else {
      var x := xs[0];
      assert x in multiset(ys);
      var j :| 0 <= j < |ys| && ys[j] == x;
      var rest := ys[..j] + ys[j + 1..];
      assert ys == ys[..j] + [x] + ys[j + 1..];
      FoldMoveToFront(f, a, ys[..j], x, ys[j + 1..]);
      assert xs == [x] + xs[1..];
      assert multiset(ys) == multiset(ys[..j]) + multiset([x]) + multiset(ys[j + 1..]);
      assert multiset(xs) == multiset([x]) + multiset(xs[1..]);
      assert multiset(rest) == multiset(ys[..j]) + multiset(ys[j + 1..]);
      assert multiset(xs[1..]) == multiset(xs) - multiset{x};
      assert multiset(rest) == multiset(ys) - multiset{x};
      FoldPermutationInvariant(f, f(a, x), xs[1..], rest);
    }
  }

  /** The stack object. Changed notifications are recorded in `changed`: the
      value each notification would carry, oldest first. */
  class EffectorStack<K(==)> {
    const combine: (real, real) -> real
    const defaultValue: real
    var entries: seq<Effector<K>>
    var changed: seq<real>

    ghost predicate Valid()
      reads this
    {
      UniqueOwners(entries)
    }

    /** Value, as a function of the current entries. */
    ghost function Current(): real
      reads this
    {
      Fold(combine, defaultValue, Weights(entries))
    }

    constructor (compare: (real, real) -> real, defaultValue: real)
      ensures Valid() && combine == compare && this.defaultValue == defaultValue
      ensures entries == [] && changed == []
      ensures Current() == defaultValue
    {
      combine := compare;
      this.defaultValue := defaultValue;
      entries := [];
      changed := [];
    }

    /** LookupValue (and the Value property): the fold of the stored weights
        in iteration order, seeded with the default. */
    method LookupValue() returns (r: real)
      ensures r == Fold(combine, defaultValue, Weights(entries))
      ensures entries == [] ==> r == defaultValue
    {
      ghost var ws := Weights(entries);
      r := defaultValue;
      var i := 0;
      while i < |entries|
        invariant 0 <= i <= |entries|
        invariant r == Fold(combine, defaultValue, ws[..i])
      {
        FoldSnoc(combine, defaultValue, ws[..i], ws[i]);
        assert ws[..i + 1] == ws[..i] + [ws[i]];
        r := combine(r, entries[i].weight);
        i := i + 1;
      }
      assert ws[..i] == ws;
    }

    method Push(owner: K, value: real)
      requires Valid()
      modifies this
      ensures Valid()
      ensures entries == Pushed(old(entries), owner, value)
      ensures changed == old(changed) + (if HasOwner(old(entries), owner) then [] else [Current()])
    {
      if !HasOwner(entries, owner) {
        entries := entries + [Effector(owner, value)];
        var v := LookupValue();
        changed := changed + [v];
      }
    }

    method Update(owner: K, value: real)
      requires Valid()
      modifies this
      ensures Valid()
      ensures entries == Updated(old(entries), owner, value)
      ensures changed == old(changed) + (if HasOwner(old(entries), owner) then [Current()] else [])
    {
      if HasOwner(entries, owner) {
        entries := Updated(entries, owner, value);
        var v := LookupValue();
        changed := changed + [v];
      }
    }

    /** Pop fails silently for an owner that is not present. */
    method Pop(owner: K)
      requires Valid()
      modifies this
      ensures Valid()
      ensures entries == Popped(old(entries), owner)
      ensures changed == old(changed) + (if HasOwner(old(entries), owner) then [Current()] else [])
    {
      PoppedRemovesOwner(entries, owner);
      if HasOwner(entries, owner) {
        PoppedKeepsUnique(entries, owner);
        entries := Popped(entries, owner);
        var v := LookupValue();
        changed := changed + [v];
      }
    }

    /** Clear always empties the stack and always notifies, with the default. */
    method Clear()
      modifies this
      ensures Valid()
      ensures entries == [] && Current() == defaultValue
      ensures changed == old(changed) + [defaultValue]
    {
      entries := [];
      var v := LookupValue();
      changed := changed + [v];
    }
  }
}
