/** CollectionUtils: index clamping and wrapping, defaulting lookups, a
    HashSet-like add on lists, counting and quantifier helpers, and
    element-wise list equality. A C# list reference that may be null is an
    Option; default(T) is passed in as `fallback`. */
module Collections {
  import opened Common

  /** The index ClampIndex returns: 0 for an empty list, the index clamped
      to the list without wrap, and with wrap the index brought into range by
      whole list lengths (Dafny's % is the Euclidean remainder). */
  function Clamped(index: int, count: int, wrap: bool): int
  {
    if count <= 0 then 0
    else if !wrap then ClampInt(index, 0, count - 1)
    else index % count
  }

  /** What Clamped means: an index of a non-empty list; without wrap the
      nearest one to `index`; with wrap the one that differs from `index` by
      a whole number of list lengths. */
  lemma ClampedMeaning(index: int, count: int, wrap: bool)
    ensures count <= 0 ==> Clamped(index, count, wrap) == 0
    ensures count > 0 ==> 0 <= Clamped(index, count, wrap) < count
    ensures count > 0 && 0 <= index < count ==> Clamped(index, count, wrap) == index
    ensures count > 0 && !wrap && index < 0 ==> Clamped(index, count, wrap) == 0
    ensures count > 0 && !wrap && index >= count ==> Clamped(index, count, wrap) == count - 1
    ensures count > 0 && wrap ==> (index - Clamped(index, count, wrap)) % count == 0
  {
    if count > 0 {
      if 0 <= index < count {
        EuclideanUnique(index, count, 0, index);
      }
      if wrap {
        var q := index / count;
        EuclideanUnique(index - index % count, count, q, 0);
      }
    }
  }

  /** int.ClampIndex: the wrapping case steps by whole list lengths, as the
      source's two loops do. */
  method ClampIndex(index: int, listCount: int, wrap: bool) returns (r: int)
    ensures r == Clamped(index, listCount, wrap)
  {
    if listCount <= 0 {
      return 0;
    }
    if !wrap {
      return ClampInt(index, 0, listCount - 1);
    }
    r := index;
    ghost var k := 0;
    while r >= listCount
      invariant index == k * listCount + r
      decreases r
    {
      r := r - listCount;
      k := k + 1;
    }
    while r < 0
      invariant r < listCount && index == k * listCount + r
      decreases -r
    {
      r := r + listCount;
      k := k - 1;
    }
    EuclideanUnique(index, listCount, k, r);
  }

  /** IList.ClampIndex: 0 for a null list. */
  function ClampIndexOf<T>(list: Option<seq<T>>, index: int, wrap: bool): (r: int)
    ensures list.None? ==> r == 0
    ensures list.Some? ==> r == Clamped(index, |list.value|, wrap)
  {
    if list.None? then 0 else Clamped(index, |list.value|, wrap)
  }

  /** GetClamped: the default for a null or empty list, otherwise the element
      at the clamped (or wrapped) index, which always exists. */
  function GetClamped<T>(list: Option<seq<T>>, index: int, wrap: bool, fallback: T): (r: T)
    ensures list.None? || list.value == [] ==> r == fallback
    ensures list.Some? && list.value != [] ==> exists i :: 0 <= i < |list.value| && r == list.value[i]
  {
    if list.None? || |list.value| == 0 then fallback
    else
      ClampedMeaning(index, |list.value|, wrap);
      list.value[Clamped(index, |list.value|, wrap)]
  }

  function IsValidIndex<T>(list: seq<T>, index: int): (r: bool)
    ensures r <==> 0 <= index < |list|
  {
    |list| > 0 && index >= 0 && index < |list|
  }

  function GetOrDefault<T>(list: seq<T>, index: int, fallback: T): (r: T)
    ensures 0 <= index < |list| ==> r == list[index]
    ensures !(0 <= index < |list|) ==> r == fallback
  {
    if IsValidIndex(list, index) then list[index] else fallback
  }

  function GetLastOrDefault<T>(list: seq<T>, fallback: T): (r: T)
    ensures list == [] ==> r == fallback
    ensures list != [] ==> r == list[|list| - 1]
  {
    if |list| > 0 then list[|list| - 1] else fallback
  }

  /** The lookups agree wherever the index is valid, and the last element is
      the lookup at Count - 1. */
  lemma LookupsAgree<T>(list: seq<T>, index: int, wrap: bool, fallback: T, x: T)
    ensures 0 <= index < |list| ==> GetClamped(Some(list), index, wrap, fallback) == GetOrDefault(list, index, fallback)
    ensures GetLastOrDefault(list, fallback) == GetOrDefault(list, |list| - 1, fallback)
    ensures GetLastOrDefault(list + [x], fallback) == x
  {
    if 0 <= index < |list| {
      ClampedMeaning(index, |list|, wrap);
    }
  }

  /** The list AddUnique leaves behind. */
  function AddedUnique<T(==)>(items: seq<T>, item: T): seq<T>
  {
    if item in items then items else items + [item]
  }

  predicate NoDuplicates<T(==)>(items: seq<T>)
  {
    forall i, j :: 0 <= i < j < |items| ==> items[i] != items[j]
  }

  /** AddUnique behaves as a set insertion: the item is then present, nothing
      else is added, a duplicate-free list stays so, and a second add of the
      same item changes nothing. */
  lemma AddedUniqueIsInsertion<T>(items: seq<T>, item: T)
    ensures item in AddedUnique(items, item)
    ensures forall y :: y in AddedUnique(items, item) <==> y in items || y == item
    ensures NoDuplicates(items) ==> NoDuplicates(AddedUnique(items, item))
    ensures AddedUnique(AddedUnique(items, item), item) == AddedUnique(items, item)
  {
  }

  /** An IList<T> that the helpers mutate or compare by reference. */
  class ListRef<T(==)> {
    var items: seq<T>

    constructor (items: seq<T>)
      ensures this.items == items
    {
      this.items := items;
    }

    /** Appends the item only when it is absent; the result says whether it
        was appended. */
    method AddUnique(item: T) returns (added: bool)
      modifies this
      ensures added <==> item !in old(items)
      ensures items == AddedUnique(old(items), item)
    {
      if item !in items {
        items := items + [item];
        return true;
      }
      return false;
    }
  }

  /** The number of items satisfying the predicate. */
  function Count<T>(items: seq<T>, p: T -> bool): (n: nat)
    ensures n <= |items|
    decreases |items|
  {
    if items == [] then 0 else Count(items[..|items| - 1], p) + (if p(items[|items| - 1]) then 1 else 0)
  }

  /** Count is zero exactly when no item matches, and the length exactly when
      all do. */
  lemma {:induction false} CountMeaning<T>(items: seq<T>, p: T -> bool)
    ensures Count(items, p) == 0 <==> forall i :: 0 <= i < |items| ==> !p(items[i])
    ensures Count(items, p) == |items| <==> forall i :: 0 <= i < |items| ==> p(items[i])
    decreases |items|
  {
    if items != [] {
      var init := items[..|items| - 1];
      CountMeaning(init, p);
      assert forall i :: 0 <= i < |init| ==> init[i] == items[i];
    }
  }

  method CountIf<T>(items: seq<T>, p: T -> bool) returns (sum: nat)
    ensures sum == Count(items, p)
  {
    sum := 0;
    var i := 0;
    while i < |items|
      invariant 0 <= i <= |items|
      invariant sum == Count(items[..i], p)
    {
      assert items[..i + 1][..i] == items[..i];
      if p(items[i]) {
        sum := sum + 1;
      }
      i := i + 1;
    }
    assert items[..i] == items;
  }

  method HasAny<T>(items: seq<T>, p: T -> bool) returns (r: bool)
    ensures r <==> exists i :: 0 <= i < |items| && p(items[i])
  {
    for i := 0 to |items|
      invariant forall j :: 0 <= j < i ==> !p(items[j])
    {
      if p(items[i]) {
        return true;
      }
    }
    return false;
  }

  /** True on an empty input. */
  method HasAll<T>(items: seq<T>, p: T -> bool) returns (r: bool)
    ensures r <==> forall i :: 0 <= i < |items| ==> p(items[i])
  {
    for i := 0 to |items|
      invariant forall j :: 0 <= j < i ==> p(items[j])
    {
      if !p(items[i]) {
        return false;
      }
    }
    return true;
  }

  /** Reference equality first, then element by element with the default
      equality. */
  method ShallowEquals<T(==)>(first: ListRef?<T>, second: ListRef?<T>) returns (r: bool)
    ensures r <==> first == second || (first != null && second != null && first.items == second.items)
  {
    if first == second {
      return true;
    }
    if first == null || second == null {
      return false;
    }
    if |first.items| != |second.items| {
      return false;
    }
    for i := 0 to |first.items|
      invariant forall j :: 0 <= j < i ==> first.items[j] == second.items[j]
    {
      if first.items[i] != second.items[i] {
        return false;
      }
    }
    return true;
  }
}
