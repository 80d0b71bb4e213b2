/** Collision-layer masks. A Unity `LayerMask` converts to a 32-bit integer in
    which bit `k` stands for layer `k`; a collider's layer qualifies when its bit
    is set in the mask. */
module Layers {

  /** The shift count C# actually uses in `1 << layer` on an `int`: only the low
      five bits of the count, i.e. `layer & 31`, which for two's-complement
      integers is the non-negative remainder modulo 32. */
  function ShiftCount(layer: int): (n: bv32)
    ensures n < 32
  {
    (layer % 32) as bv32
  }

  /** `1 << layer` as a 32-bit word. */
  function LayerBit(layer: int): (b: bv32)
    ensures b != 0
  {
    1 << ShiftCount(layer)
  }

  /** `((1 << layer) & mask) != 0`. */
  predicate InMask(layer: int, mask: bv32)
  {
    LayerBit(layer) & mask != 0
  }

  lemma DistinctBits(n: bv32, m: bv32)
    requires n < 32 && m < 32
    ensures ((1 as bv32) << n) & ((1 as bv32) << m) != 0 <==> n == m
  {
  }

  /** The mask of a single layer admits exactly the layers whose wrapped shift
      count is the same. */
  lemma InSingleLayerMask(layer: int, other: int)
    ensures InMask(other, LayerBit(layer)) <==> ShiftCount(other) == ShiftCount(layer)
  {
    DistinctBits(ShiftCount(other), ShiftCount(layer));
  }

  /** No layer is in the empty mask; every layer is in the full mask. */
  lemma InMaskExtremes(layer: int)
    ensures !InMask(layer, 0)
    ensures InMask(layer, 0xFFFF_FFFF)
  {
  }

  /** Because the shift count wraps, layers 32 apart test the same bit. */
  lemma InMaskWraps(layer: int, mask: bv32)
    ensures LayerBit(layer + 32) == LayerBit(layer)
    ensures InMask(layer + 32, mask) <==> InMask(layer, mask)
  {
    assert (layer + 32) % 32 == layer % 32;
    assert ShiftCount(layer + 32) == ShiftCount(layer);
  }
}
