/** Register map of the AD5781 (18-bit) and AD5791 (20-bit) DACs, as the
    current driver declares it: the read/write flag, the four register
    addresses, the control-register field positions and codes, the default
    control-register image and the per-variant construction defaults. */
module Registers {

  /** A value shift: the driver's `uint8_t` offset, restricted to the amounts
      a 32-bit shift is defined for in C++. */
  type ValueOffset = k: bv8 | k < 32

  /** An Arduino pin number (`uint8_t`). */
  type PinId = p: nat | p < 0x100

  /** The `int16_t` used for the optional LDAC pin; a negative value means
      "no LDAC pin". */
  type Int16 = x: int | -0x8000 <= x < 0x8000

  /** A `uint32_t` configuration value (the SPI clock). */
  type Uint32 = x: nat | x < 0x1_0000_0000

  // direction flag (bit 23)
  const WRITE_REGISTERS: bv32 := 0 << 23
  const READ_REGISTERS: bv32 := 1 << 23

  // register addresses (bits 20-22)
  const DAC_REGISTER: bv32 := 0x1 << 20
  const CONTROL_REGISTER: bv32 := 0x2 << 20
  const CLEARCODE_REGISTER: bv32 := 0x3 << 20
  const SW_CONTROL_REGISTER: bv32 := 0x4 << 20

  // control-register bit positions (`uint8_t` in the driver)
  const RBUF_REGISTER: bv8 := 1
  const OUTPUT_CLAMP_TO_GND_REGISTER: bv8 := 2
  const OUTPUT_TRISTATE_REGISTER: bv8 := 3
  const OFFSET_BINARY_REGISTER: bv8 := 4
  const SDO_DISABLE_REGISTER: bv8 := 5
  const LINEARITY_COMPENSATION_REGISTER: bv8 := 6

  // linearity-compensation codes (4-bit field at LINEARITY_COMPENSATION_REGISTER)
  const REFERENCE_RANGE_10V: bv32 := 0x0  // 0b0000
  const REFERENCE_RANGE_20V: bv32 := 0xC  // 0b1100

  // software-control register: the "load DAC" bit
  const SW_CONTROL_LDAC: bv32 := 0x1

  /** The 20-bit payload mask applied to value and clear-code writes. */
  const PAYLOAD_MASK: bv32 := 0xFFFFF

  /** The control register after a chip reset (amplifier disabled, output
      clamped to ground, tristate, offset binary, SDO enabled, 10 V range). */
  const DEFAULT_CONTROL_REGISTER: bv32 :=
    (1 << RBUF_REGISTER)
    | (1 << OUTPUT_CLAMP_TO_GND_REGISTER)
    | (1 << OUTPUT_TRISTATE_REGISTER)
    | (1 << OFFSET_BINARY_REGISTER)
    | (0 << SDO_DISABLE_REGISTER)
    | (REFERENCE_RANGE_10V << LINEARITY_COMPENSATION_REGISTER)

  // per-variant construction parameters
  const AD5781_VALUE_OFFSET: ValueOffset := 2
  const AD5791_VALUE_OFFSET: ValueOffset := 0
  const DEFAULT_SPI_CLOCK_FREQUENCY: Uint32 := 1 * 1000 * 1000
  const DEFAULT_LDAC_PIN: Int16 := -1
  const DEFAULT_CS_POLARITY: bool := true

  /** Bit 23 is the only direction bit; each address sits in bits 20-22,
      the four addresses are distinct and none touches the payload or the
      direction bit. */
  lemma FrameLayout()
    ensures WRITE_REGISTERS == 0 && READ_REGISTERS == 0x80_0000
    ensures DAC_REGISTER >> 20 == 1 && CONTROL_REGISTER >> 20 == 2
    ensures CLEARCODE_REGISTER >> 20 == 3 && SW_CONTROL_REGISTER >> 20 == 4
    ensures forall a :: a in [DAC_REGISTER, CONTROL_REGISTER, CLEARCODE_REGISTER, SW_CONTROL_REGISTER] ==>
      a & PAYLOAD_MASK == 0 && a & READ_REGISTERS == 0 && a & !(0x7 << 20) == 0
    ensures |{DAC_REGISTER, CONTROL_REGISTER, CLEARCODE_REGISTER, SW_CONTROL_REGISTER}| == 4
  {
  }

  /** The control fields occupy bits 1, 2, 3, 4, 5 and 6-9, pairwise
      disjoint; both range codes fit the 4-bit field; the load bit is bit 0. */
  lemma ControlFieldLayout()
    ensures [RBUF_REGISTER, OUTPUT_CLAMP_TO_GND_REGISTER, OUTPUT_TRISTATE_REGISTER,
             OFFSET_BINARY_REGISTER, SDO_DISABLE_REGISTER] == [1, 2, 3, 4, 5]
    ensures LINEARITY_COMPENSATION_REGISTER == 6
    ensures ((1 as bv32) << SDO_DISABLE_REGISTER) & ((0xF as bv32) << LINEARITY_COMPENSATION_REGISTER) == 0
    ensures REFERENCE_RANGE_10V <= 0xF && REFERENCE_RANGE_20V <= 0xF
    ensures REFERENCE_RANGE_10V != REFERENCE_RANGE_20V
    ensures SW_CONTROL_LDAC == 1 << 0
    ensures SW_CONTROL_REGISTER | SW_CONTROL_LDAC == 0x40_0001
  {
  }

  /** The default image is 0x1E: bits 1-4 set, SDO enabled, 10 V range.
      Bit 4 set means offset binary, although the driver's comment on the
      offset-binary setter calls two's complement (bit 4 clear) the default. */
  lemma DefaultControlImage()
    ensures DEFAULT_CONTROL_REGISTER == 0x1E
    ensures (DEFAULT_CONTROL_REGISTER >> OFFSET_BINARY_REGISTER) & 1 == 1
    ensures (DEFAULT_CONTROL_REGISTER >> SDO_DISABLE_REGISTER) & 1 == 0
    ensures (DEFAULT_CONTROL_REGISTER >> LINEARITY_COMPENSATION_REGISTER) & 0xF == REFERENCE_RANGE_10V
  {
  }
}
