/**
  Bit orders of the byte transfers. Commands go out most-significant bit
  first; data read back comes in least-significant bit first.
 */
module Bits {

  /** The mask of bit `k`, `1 << k`; 0 once `k` reaches 8. */
  function LsbMask(k: nat): bv8
    requires k <= 8
  {
    if k == 0 then 0x01 else if k == 1 then 0x02 else if k == 2 then 0x04 else if k == 3 then 0x08
    else if k == 4 then 0x10 else if k == 5 then 0x20 else if k == 6 then 0x40 else if k == 7 then 0x80
    else 0
  }

  /** The mask of the `k`-th bit sent MSB-first, `0x80 >> k`; 0 once `k` reaches 8. */
  function MsbMask(k: nat): bv8
    requires k <= 8
  {
    if k < 8 then LsbMask(7 - k) else 0
  }

  /** Bit `i` of `v` (bit 0 is the least significant). */
  function Bit(v: bv8, i: nat): bool
    requires i < 8
  {
    v & LsbMask(i) != 0
  }

  /** The bits of `v` in the order a command byte is shifted out: bit 7 first. */
  function MsbFirst(v: bv8): (bits: seq<bool>)
    ensures |bits| == 8
  {
    seq(8, i requires 0 <= i < 8 => Bit(v, 7 - i))
  }

  /** The bits of `v` in the order a data byte is shifted in: bit 0 first. */
  function LsbFirst(v: bv8): (bits: seq<bool>)
    ensures |bits| == 8
  {
    seq(8, i requires 0 <= i < 8 => Bit(v, i))
  }

  /**
    The accumulator after the first `k` of `bits` have been read
    least-significant first: the `i`-th bit read sets bit `i`.
   */
  function Assemble(bits: seq<bool>, k: nat): bv8
    requires k <= |bits| && k <= 8
  {
    if k == 0 then 0 else Assemble(bits, k - 1) | (if bits[k - 1] then LsbMask(k - 1) else 0)
  }

  /** The byte assembled from `bits` read least-significant first. */
  function LsbValue(bits: seq<bool>): bv8
    requires |bits| <= 8
  {
    Assemble(bits, |bits|)
  }

  lemma MasksAreShifts(k: nat)
    requires k <= 8
    ensures LsbMask(k) == (1 as bv8) << k
    ensures MsbMask(k) == (0x80 as bv8) >> k
  {
  }

  lemma MsbMaskStep(k: nat)
    requires k < 8
    ensures MsbMask(k) != 0 && MsbMask(k) >> 1 == MsbMask(k + 1)
  {
  }

  lemma LsbMaskStep(k: nat)
    requires k < 8
    ensures LsbMask(k) != 0 && LsbMask(k) << 1 == LsbMask(k + 1)
  {
  }

  /** Reading bit `k` into the accumulator: OR in its mask when the bit is high. */
  lemma AssembleStep(bits: seq<bool>, k: nat, value: bv8, m: bv8)
    requires k < |bits| && k < 8
    requires value == Assemble(bits, k) && m == LsbMask(k)
    ensures (if bits[k] then value | m else value) == Assemble(bits, k + 1)
  {
  }

  /** The `k`-th bit sent MSB-first is the one the mask `MsbMask(k)` selects. */
  lemma MsbFirstAt(v: bv8, k: nat)
    requires k < 8
    ensures MsbFirst(v)[k] == (v & MsbMask(k) != 0)
  {
  }

  /** Two bytes with the same eight bits are the same byte. */
  lemma BitsDetermineByte(a: bv8, b: bv8)
    requires forall i :: 0 <= i < 8 ==> Bit(a, i) == Bit(b, i)
    ensures a == b
  {
    assert Bit(a, 0) == Bit(b, 0) && Bit(a, 1) == Bit(b, 1) && Bit(a, 2) == Bit(b, 2) && Bit(a, 3) == Bit(b, 3);
    assert Bit(a, 4) == Bit(b, 4) && Bit(a, 5) == Bit(b, 5) && Bit(a, 6) == Bit(b, 6) && Bit(a, 7) == Bit(b, 7);
  }

  /** After `k` bits have been read, bits below `k` are the bits read and bits above are still clear. */
  lemma {:induction false} AssembleBits(bits: seq<bool>, k: nat)
    requires k <= |bits| && k <= 8
    ensures forall i :: 0 <= i < 8 ==> Bit(Assemble(bits, k), i) == (i < k && bits[i])
  {
    if k > 0 {
      AssembleBits(bits, k - 1);
    }
  }

  /** Reading eight bits LSB-first and splitting the byte again gives back the bits. */
  lemma LsbValueThenBits(bits: seq<bool>)
    requires |bits| == 8
    ensures LsbFirst(LsbValue(bits)) == bits
  {
    AssembleBits(bits, 8);
  }

  /** Shifting the bits of `v` in LSB-first reassembles `v`. */
  lemma BitsThenLsbValue(v: bv8)
    ensures LsbValue(LsbFirst(v)) == v
  {
    AssembleBits(LsbFirst(v), 8);
    BitsDetermineByte(LsbValue(LsbFirst(v)), v);
  }
}
