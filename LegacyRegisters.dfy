/** Register map of the legacy, AD5781-only driver. It declares its own copy
    of every constant, with a fixed value offset of 2 instead of a per-variant
    one; `AgreesWithCurrent` shows the copy is bit-identical to the current
    map, so both versions build the same frames from the same inputs. */
module LegacyRegisters {
  import Registers

  // direction flag (bit 23)
  const WRITE_REGISTERS: bv32 := 0 << 23
  const READ_REGISTERS: bv32 := 1 << 23

  /** The 18-bit value sits two bits up in the 20-bit payload (the name is
      spelled as in the driver). */
  const DAC_REGSISTER_VALUE_OFFSET: Registers.ValueOffset := 2

  // register addresses (bits 20-22)
  const DAC_REGISTER: bv32 := 0x1 << 20
  const CONTROL_REGISTER: bv32 := 0x2 << 20
  const CLEARCODE_REGISTER: bv32 := 0x3 << 20
  const SW_CONTROL_REGISTER: bv32 := 0x4 << 20

  // control-register bit positions
  const RBUF_REGISTER: bv8 := 1
  const OUTPUT_CLAMP_TO_GND_REGISTER: bv8 := 2
  const OUTPUT_TRISTATE_REGISTER: bv8 := 3
  const OFFSET_BINARY_REGISTER: bv8 := 4
  const SDO_DISABLE_REGISTER: bv8 := 5
  const LINEARITY_COMPENSATION_REGISTER: bv8 := 6

  // linearity-compensation codes
  const REFERENCE_RANGE_10V: bv32 := 0x0  // 0b0000
  const REFERENCE_RANGE_20V: bv32 := 0xC  // 0b1100

  // software-control register: the "load DAC" bit
  const SW_CONTROL_LDAC: bv32 := 0x1

  /** The member initializer of the legacy `controlRegister`. */
  const DEFAULT_CONTROL_REGISTER: bv32 :=
    (1 << RBUF_REGISTER)
    | (1 << OUTPUT_CLAMP_TO_GND_REGISTER)
    | (1 << OUTPUT_TRISTATE_REGISTER)
    | (1 << OFFSET_BINARY_REGISTER)
    | (0 << SDO_DISABLE_REGISTER)
    | (REFERENCE_RANGE_10V << LINEARITY_COMPENSATION_REGISTER)

  /** Every legacy constant equals its current counterpart, the fixed offset
      equals the AD5781's, and the default image is 0x1E in both. */
  lemma AgreesWithCurrent()
    ensures WRITE_REGISTERS == Registers.WRITE_REGISTERS && READ_REGISTERS == Registers.READ_REGISTERS
    ensures DAC_REGSISTER_VALUE_OFFSET == Registers.AD5781_VALUE_OFFSET
    ensures DAC_REGISTER == Registers.DAC_REGISTER && CONTROL_REGISTER == Registers.CONTROL_REGISTER
    ensures CLEARCODE_REGISTER == Registers.CLEARCODE_REGISTER
    ensures SW_CONTROL_REGISTER == Registers.SW_CONTROL_REGISTER
    ensures RBUF_REGISTER == Registers.RBUF_REGISTER
    ensures OUTPUT_CLAMP_TO_GND_REGISTER == Registers.OUTPUT_CLAMP_TO_GND_REGISTER
    ensures OUTPUT_TRISTATE_REGISTER == Registers.OUTPUT_TRISTATE_REGISTER
    ensures OFFSET_BINARY_REGISTER == Registers.OFFSET_BINARY_REGISTER
    ensures SDO_DISABLE_REGISTER == Registers.SDO_DISABLE_REGISTER
    ensures LINEARITY_COMPENSATION_REGISTER == Registers.LINEARITY_COMPENSATION_REGISTER
    ensures REFERENCE_RANGE_10V == Registers.REFERENCE_RANGE_10V
    ensures REFERENCE_RANGE_20V == Registers.REFERENCE_RANGE_20V
    ensures SW_CONTROL_LDAC == Registers.SW_CONTROL_LDAC
    ensures DEFAULT_CONTROL_REGISTER == Registers.DEFAULT_CONTROL_REGISTER == 0x1E
  {
  }
}
