/**
  The opcode table of the programming protocol: the selectors that tag each
  8-bit field of a flash address, the read and write opcodes, and the value
  that enters programming mode. Addresses are 32-bit (`bv32`) as on the wire
  side of the engine; only their low 24 bits are ever sent.
 */
module IcpOpcodes {

  const ICP_ADDRESS_7B0: bv8 := 0x40
  const ICP_ADDRESS_7B0_MASK: bv32 := 0x0000_00FF
  const ICP_ADDRESS_7B0_SHIFT: bv32 := 0
  const ICP_ADDRESS_15B8: bv8 := 0x41
  const ICP_ADDRESS_15B8_MASK: bv32 := 0x0000_FF00
  const ICP_ADDRESS_15B8_SHIFT: bv32 := 8
  const ICP_ADDRESS_23B16: bv8 := 0x4C
  const ICP_ADDRESS_23B16_MASK: bv32 := 0x00FF_0000
  const ICP_ADDRESS_23B16_SHIFT: bv32 := 16

  const ICP_READ: bv8 := 0x44
  const ICP_READ_CUSTOM_BLOCK: bv8 := 0x4A
  const ICP_WRITE: bv8 := 0x42

  const MODE_ICP: bv8 := 0x96

  /**
    The field `(address & mask) >> shift` as the byte the engine sends: the
    conversion to an 8-bit argument keeps the low 8 bits.
   */
  function Field(address: bv32, mask: bv32, shift: bv32): bv8
    requires shift <= 32
  {
    (((address & mask) >> shift) & 0xFF) as bv8
  }

  function Low(address: bv32): bv8
  {
    Field(address, ICP_ADDRESS_7B0_MASK, ICP_ADDRESS_7B0_SHIFT)
  }

  function Middle(address: bv32): bv8
  {
    Field(address, ICP_ADDRESS_15B8_MASK, ICP_ADDRESS_15B8_SHIFT)
  }

  function High(address: bv32): bv8
  {
    Field(address, ICP_ADDRESS_23B16_MASK, ICP_ADDRESS_23B16_SHIFT)
  }

  /** Each mask is eight contiguous bits starting at its shift, and no two masks overlap. */
  lemma MasksAreByteFields()
    ensures ICP_ADDRESS_7B0_MASK == 0xFF << ICP_ADDRESS_7B0_SHIFT
    ensures ICP_ADDRESS_15B8_MASK == 0xFF << ICP_ADDRESS_15B8_SHIFT
    ensures ICP_ADDRESS_23B16_MASK == 0xFF << ICP_ADDRESS_23B16_SHIFT
    ensures ICP_ADDRESS_7B0_MASK & ICP_ADDRESS_15B8_MASK == 0
    ensures ICP_ADDRESS_7B0_MASK & ICP_ADDRESS_23B16_MASK == 0
    ensures ICP_ADDRESS_15B8_MASK & ICP_ADDRESS_23B16_MASK == 0
  {
  }

  /** Masking and shifting leaves a value below 256, so the 8-bit conversion loses nothing. */
  lemma FieldsFitInAByte(address: bv32)
    ensures (address & ICP_ADDRESS_7B0_MASK) >> ICP_ADDRESS_7B0_SHIFT < 256
    ensures (address & ICP_ADDRESS_15B8_MASK) >> ICP_ADDRESS_15B8_SHIFT < 256
    ensures (address & ICP_ADDRESS_23B16_MASK) >> ICP_ADDRESS_23B16_SHIFT < 256
    ensures Low(address) as bv32 == (address & ICP_ADDRESS_7B0_MASK) >> ICP_ADDRESS_7B0_SHIFT
    ensures Middle(address) as bv32 == (address & ICP_ADDRESS_15B8_MASK) >> ICP_ADDRESS_15B8_SHIFT
    ensures High(address) as bv32 == (address & ICP_ADDRESS_23B16_MASK) >> ICP_ADDRESS_23B16_SHIFT
  {
  }

  /** The three fields put back in place give the address back, for every 24-bit address. */
  lemma FieldsRecombine(address: bv32)
    requires address < 0x100_0000
    ensures ((Low(address) as bv32) << ICP_ADDRESS_7B0_SHIFT)
          | ((Middle(address) as bv32) << ICP_ADDRESS_15B8_SHIFT)
          | ((High(address) as bv32) << ICP_ADDRESS_23B16_SHIFT) == address
  {
    LowInPlace(address);
    MiddleInPlace(address);
    HighInPlace(address);
  }

  lemma LowInPlace(address: bv32)
    ensures (Low(address) as bv32) << ICP_ADDRESS_7B0_SHIFT == address & ICP_ADDRESS_7B0_MASK
  {
  }

  lemma MiddleInPlace(address: bv32)
    ensures (Middle(address) as bv32) << ICP_ADDRESS_15B8_SHIFT == address & ICP_ADDRESS_15B8_MASK
  {
  }

  lemma HighInPlace(address: bv32)
    ensures (High(address) as bv32) << ICP_ADDRESS_23B16_SHIFT == address & ICP_ADDRESS_23B16_MASK
  {
  }

  /** No two opcodes share a wire value, so a reader of the wire can tell every command apart. */
  lemma OpcodesDistinct()
    ensures |{ICP_ADDRESS_7B0, ICP_ADDRESS_15B8, ICP_ADDRESS_23B16, ICP_READ, ICP_READ_CUSTOM_BLOCK, ICP_WRITE}| == 6
    ensures ICP_READ != ICP_READ_CUSTOM_BLOCK
  {
  }
}
