/** Small shared definitions: an Option type for nullable references and the
    engine's float helpers (Mathf.Clamp, Mathf.MoveTowards) over reals. */
module Common {

  /** A value that may be absent; stands for a C# reference that may be null. */
  datatype Option<T> = None | Some(value: T)

  /** Mathf.Clamp(float, float, float): the lower bound is tested first. */
  function Clamp(v: real, lo: real, hi: real): (r: real)
    ensures lo <= hi ==> lo <= r <= hi
    ensures lo <= v <= hi ==> r == v
    ensures v < lo ==> r == lo
    ensures lo <= v && hi < v ==> r == hi
  {
    if v < lo then lo else if v > hi then hi else v
  }

  /** Mathf.Clamp(int, int, int), same branch order as the float version;
      a separate overload because Dafny has no numeric type shared by int and real. */
  function ClampInt(v: int, lo: int, hi: int): (r: int)
    ensures lo <= hi ==> lo <= r <= hi
    ensures lo <= v <= hi ==> r == v
    ensures v < lo ==> r == lo
    ensures lo <= v && hi < v ==> r == hi
  {
    if v < lo then lo else if v > hi then hi else v
  }

  function Abs(x: real): real { if x < 0.0 then -x else x }

  /** Mathf.Sign: 1 for zero and positive values, -1 otherwise. */
  function Sign(x: real): real { if x >= 0.0 then 1.0 else -1.0 }

  /** Mathf.MoveTowards: step from current towards target by at most maxDelta,
      landing exactly on target when it is within reach. */
  function MoveTowards(current: real, target: real, maxDelta: real): (r: real)
    ensures 0.0 <= maxDelta ==> Abs(r - current) <= maxDelta
    ensures 0.0 <= maxDelta && current <= target ==> current <= r <= target
    ensures 0.0 <= maxDelta && target <= current ==> target <= r <= current
    ensures Abs(target - current) <= maxDelta <==> r == target
    ensures r != target ==> Abs(r - current) == Abs(maxDelta)
  {
    if Abs(target - current) <= maxDelta then target
    else current + Sign(target - current) * maxDelta
  }

  /** Euclidean division is unique: a quotient and a remainder in [0, n)
      that rebuild x are x / n and x % n. */
  lemma EuclideanUnique(x: int, n: int, q: int, r: int)
    requires 0 < n && 0 <= r < n && x == q * n + r
    ensures x / n == q && x % n == r
  {
    var q0, r0 := x / n, x % n;
    assert (q0 - q) * n == r - r0;
    if q0 > q {
      MultipleAtLeast(q0 - q, n);
    } else if q0 < q {
      MultipleAtLeast(q - q0, n);
    }
  }

  lemma {:induction false} MultipleAtLeast(d: int, n: int)
    requires 1 <= d && 0 < n
    ensures d * n >= n
    decreases d
  {
    if d > 1 {
      MultipleAtLeast(d - 1, n);
      assert d * n == (d - 1) * n + n;
    }
  }
}
