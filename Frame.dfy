/** The 24-bit command frame: the read/write flag in bit 23, a 3-bit register
    address in bits 20-22 and a 20-bit payload in bits 0-19. The driver builds
    every frame inline by OR-ing these parts; `Decode` reads a frame back into
    its parts and is the reference the builders are checked against. */
module Frame {
  import opened Registers

  /** A frame taken apart. */
  datatype Command = Command(read: bool, address: bv32, payload: bv32)

  /** The low 24 bits of a 32-bit word: the part of it that goes on the bus. */
  const FRAME_MASK: bv32 := 0xFF_FFFF

  /** The parts of a frame: the read flag, the 3-bit address and the
      20-bit payload. */
  function Decode(frame: bv32): (c: Command)
    ensures c.address <= 0x7 && c.payload <= PAYLOAD_MASK
  {
    Command(frame & READ_REGISTERS != 0, (frame >> 20) & 0x7, frame & PAYLOAD_MASK)
  }

  /** The flag, address and payload of a 24-bit frame, put back together,
      give the frame again: `Decode` loses nothing. */
  lemma DecodeRebuilds(frame: bv32)
    requires frame <= FRAME_MASK
    ensures frame == (if Decode(frame).read then READ_REGISTERS else WRITE_REGISTERS)
                     | (Decode(frame).address << 20) | Decode(frame).payload
  {
    if frame & READ_REGISTERS != 0 {} else {}
  }

  /** A mask of the `n` low bits. */
  function LowBits(n: bv8): (m: bv32)
    requires n <= 20
    ensures m < (1 as bv32) << n
  {
    ((1 as bv32) << n) - 1
  }

  /** The payload of a value or clear-code write: the value shifted left by
      the variant's offset, then cut to 20 bits. Bits of `value` that do not
      fit are dropped, not rejected. */
  function Payload(offset: ValueOffset, value: bv32): (p: bv32)
    ensures p <= PAYLOAD_MASK
  {
    (value << offset) & PAYLOAD_MASK
  }

  /** The DAC-register write sent by `setValue`. */
  function DacCommand(offset: ValueOffset, value: bv32): (frame: bv32)
    ensures frame <= FRAME_MASK
    ensures Decode(frame) == Command(false, 0x1, Payload(offset, value))
  {
    WRITE_REGISTERS | DAC_REGISTER | Payload(offset, value)
  }

  /** The clear-code-register write sent by `setClearCodeValue`. */
  function ClearCodeCommand(offset: ValueOffset, value: bv32): (frame: bv32)
    ensures frame <= FRAME_MASK
    ensures Decode(frame) == Command(false, 0x3, Payload(offset, value))
  {
    WRITE_REGISTERS | CLEARCODE_REGISTER | Payload(offset, value)
  }

  /** The control-register write sent by `updateControlRegister`. The image
      is OR-ed in unmasked; an image below 2^20 is carried as the payload. */
  function ControlCommand(image: bv32): (frame: bv32)
    ensures image <= PAYLOAD_MASK ==> Decode(frame) == Command(false, 0x2, image)
  {
    WRITE_REGISTERS | CONTROL_REGISTER | image
  }

  /** The software-control write that latches the DAC register into the
      output: the load bit alone. */
  const LOAD_COMMAND: bv32 := SW_CONTROL_REGISTER | SW_CONTROL_LDAC

  /** A read request for a register: the read flag and the address, with a
      zero payload. */
  function ReadCommand(register: bv32): (frame: bv32)
    requires register in {DAC_REGISTER, CONTROL_REGISTER, CLEARCODE_REGISTER, SW_CONTROL_REGISTER}
    ensures Decode(frame) == Command(true, register >> 20, 0)
  {
    READ_REGISTERS | register
  }

  /** The load frame is a write to the software-control register with only
      bit 0 set: 0x400001. */
  lemma LoadCommandIs()
    ensures LOAD_COMMAND == 0x40_0001
    ensures Decode(LOAD_COMMAND) == Command(false, 0x4, 0x1)
  {
  }

  /** For an offset up to 20 the payload is the low `20 - offset` bits of the
      value, moved up by `offset`. (The proof names each offset so that every
      shift the solver sees is by a constant.) */
  lemma PayloadKeepsLowBits(offset: ValueOffset, value: bv32)
    requires offset <= 20
    ensures Payload(offset, value) == (value & LowBits(20 - offset)) << offset
  {
    if offset == 0 {} else if offset == 1 {} else if offset == 2 {} else if offset == 3 {}
    else if offset == 4 {} else if offset == 5 {} else if offset == 6 {} else if offset == 7 {}
    else if offset == 8 {} else if offset == 9 {} else if offset == 10 {} else if offset == 11 {}
    else if offset == 12 {} else if offset == 13 {} else if offset == 14 {} else if offset == 15 {}
    else if offset == 16 {} else if offset == 17 {} else if offset == 18 {} else if offset == 19 {}
    else {}
  }

  /** Values equal modulo 2^(20 - offset) give the same payload: the frame
      depends on nothing else of the value. */
  lemma PayloadDependsOnLowBits(offset: ValueOffset, value: bv32, other: bv32)
    requires offset <= 20
    requires value & LowBits(20 - offset) == other & LowBits(20 - offset)
    ensures Payload(offset, value) == Payload(offset, other)
  {
    PayloadKeepsLowBits(offset, value);
    PayloadKeepsLowBits(offset, other);
  }

  /** The 18-bit AD5781 carries 18 value bits at bits 2-19. */
  lemma AD5781Payload(value: bv32)
    ensures Payload(AD5781_VALUE_OFFSET, value) == (value & 0x3_FFFF) << 2
  {
    PayloadKeepsLowBits(AD5781_VALUE_OFFSET, value);
  }

  /** The 20-bit AD5791 carries 20 value bits at bits 0-19. */
  lemma AD5791Payload(value: bv32)
    ensures Payload(AD5791_VALUE_OFFSET, value) == value & 0xF_FFFF
  {
    PayloadKeepsLowBits(AD5791_VALUE_OFFSET, value);
  }

  /** What `readValue` makes of a raw readback: shifted right by the offset,
      with nothing masked, so echoed flag and address bits stay in the upper
      bits of the result. */
  function ReadbackValue(raw: bv32, offset: ValueOffset): (v: bv32)
    ensures offset <= 20 ==> v & LowBits(20 - offset) == (raw & PAYLOAD_MASK) >> offset
  {
    raw >> offset
  }

  /** Read-back round trip: if the chip answers with the payload last written
      by `setValue(value)`, the low `20 - offset` bits of what `readValue`
      returns are the low `20 - offset` bits of `value`. */
  lemma ReadbackRoundTrip(raw: bv32, value: bv32, offset: ValueOffset)
    requires offset <= 20
    requires raw & PAYLOAD_MASK == Payload(offset, value)
    ensures ReadbackValue(raw, offset) & LowBits(20 - offset) == value & LowBits(20 - offset)
  {
  }

  /** The flag and address bits the chip echoes in bits 20-23 of a readback
      reach `readValue`'s result, at bits `20 - offset` and up. */
  lemma ReadbackKeepsEcho(raw: bv32, offset: ValueOffset)
    requires raw <= FRAME_MASK && offset <= 20
    ensures ReadbackValue(raw, offset) >> (20 - offset) == raw >> 20
  {
  }
}
