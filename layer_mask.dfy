/** GameObjectExtensions: a game object's layer as a one-bit mask, and the
    test of a layer mask against it. C#'s 32-bit ints, the layer and the
    mask, are bv32 here; the shift uses only the low five bits of its count,
    as C# does. */
module LayerMasks {

  /** The shift count C# uses for `1 << layer`: the low five bits. */
  function ShiftCount(layer: bv32): (n: bv32)
    ensures n < 32
  {
    layer & 31
  }

  function GetLayerAsMask(layer: bv32): bv32
  {
    (1 as bv32) << ShiftCount(layer)
  }

  predicate MatchesLayerMask(layer: bv32, layerMask: bv32)
  {
    (GetLayerAsMask(layer) & layerMask) != 0
  }

  predicate HasBit(mask: bv32, i: bv32)
    requires i < 32
  {
    (mask >> i) & 1 == 1
  }

  /** The layer mask has exactly the layer's bit set. */
  lemma LayerMaskIsOneHot(layer: bv32, i: bv32)
    requires i < 32
    ensures HasBit(GetLayerAsMask(layer), i) <==> i == ShiftCount(layer)
  {
    var k := ShiftCount(layer);
    if i == k {
      OwnBitSet(k);
    } else {
      OtherBitClear(k, i);
    }
  }

  lemma OwnBitSet(k: bv32)
    requires k < 32
    ensures (((1 as bv32) << k) >> k) & 1 == 1
  {
  }

  lemma OtherBitClear(k: bv32, i: bv32)
    requires k < 32 && i < 32 && i != k
    ensures (((1 as bv32) << k) >> i) & 1 == 0
  {
  }

  /** A game object matches a mask exactly when the mask has its layer's
      bit. */
  lemma MatchesIffBitSet(layer: bv32, layerMask: bv32)
    ensures MatchesLayerMask(layer, layerMask) <==> HasBit(layerMask, ShiftCount(layer))
  {
    ShiftedBitHits(ShiftCount(layer), layerMask);
  }

  lemma ShiftedBitHits(k: bv32, m: bv32)
    requires k < 32
    ensures ((1 as bv32) << k) & m != 0 <==> HasBit(m, k)
  {
    MatchImpliesBit(k, m);
    BitImpliesMatch(k, m);
  }

  lemma MatchImpliesBit(k: bv32, m: bv32)
    requires k < 32
    ensures ((1 as bv32) << k) & m != 0 ==> (m >> k) & 1 == 1
  {
  }

  lemma BitImpliesMatch(k: bv32, m: bv32)
    requires k < 32
    ensures (m >> k) & 1 == 1 ==> ((1 as bv32) << k) & m != 0
  {
  }

  /** Layers 32 apart give the same mask, since only five bits of the shift
      count are used. */
  lemma ShiftWraps(layer: bv32)
    ensures GetLayerAsMask(layer + 32) == GetLayerAsMask(layer)
    ensures layer < 32 ==> ShiftCount(layer) == layer
  {
  }
}
