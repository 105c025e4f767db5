/** The cached control-register image and its field setters. Every setter is
    a read-modify-write of one field of a 32-bit word: clear the field's bits,
    then OR in the new code. The image is a write-side cache; nothing here
    reads it back from the chip. */
module Control {
  import opened Registers

  /** `reg` with bit `pos` replaced by `on` (the shape of the one-bit
      setters). */
  function WithBit(reg: bv32, pos: bv8, on: bool): bv32
    requires pos < 32
  {
    (reg & !((1 as bv32) << pos)) | ((if on then 1 else 0) << pos)
  }

  /** `reg` with the 4-bit field at `pos` replaced by `code` (the shape of
      the reference-range setter). */
  function WithField(reg: bv32, pos: bv8, code: bv32): bv32
    requires pos <= 28 && code <= 0xF
  {
    (reg & !((0xF as bv32) << pos)) | (code << pos)
  }

  /** One call of a field setter, with its argument. */
  datatype Setter =
    | InternalAmplifier(enable: bool)
    | OutputClamp(enable: bool)
    | TristateMode(enable: bool)
    | OffsetBinaryEncoding(enable: bool)
    | ReferenceInputRange(enableCompensation: bool)

  /** The image after one setter call. What each setter does to its own
      field and to every other bit is stated by the lemmas below. */
  function Apply(reg: bv32, s: Setter): bv32 {
    match s
    case InternalAmplifier(enable) => WithBit(reg, RBUF_REGISTER, !enable)
    case OutputClamp(enable) => WithBit(reg, OUTPUT_CLAMP_TO_GND_REGISTER, enable)
    case TristateMode(enable) => WithBit(reg, OUTPUT_TRISTATE_REGISTER, enable)
    case OffsetBinaryEncoding(enable) => WithBit(reg, OFFSET_BINARY_REGISTER, enable)
    case ReferenceInputRange(enableCompensation) =>
      WithField(reg, LINEARITY_COMPENSATION_REGISTER,
                if enableCompensation then REFERENCE_RANGE_20V else REFERENCE_RANGE_10V)
  }

  /** The image after a sequence of setter calls, in order. */
  function ApplyAll(reg: bv32, ss: seq<Setter>): bv32
    decreases |ss|
  {
    if ss == [] then reg else ApplyAll(Apply(reg, ss[0]), ss[1..])
  }

  /** The bits any sequence of setters can leave set, starting from the
      default image: bits 1-4 and the two set bits (8, 9) of the 20 V code. */
  const REACHABLE_BITS: bv32 := 0x31E

  predicate Reachable(reg: bv32) {
    reg & !REACHABLE_BITS == 0
  }

  /** `setInternalAmplifier` writes `!enable` into bit 1 (1 = amplifier disabled)
      and leaves every other bit as it was. */
  lemma InternalAmplifierField(reg: bv32, enable: bool)
    ensures Apply(reg, InternalAmplifier(enable)) & !0x2 == reg & !0x2
    ensures Apply(reg, InternalAmplifier(enable)) & 0x2 == (if enable then 0 else 0x2)
  {
    if enable {} else {}
  }

  /** Calling `setInternalAmplifier` twice is the same as calling it once
      with the second argument: last write wins, and the setter is idempotent. */
  lemma {:induction false} InternalAmplifierLastWriteWins(reg: bv32, enable: bool, next: bool)
    ensures Apply(Apply(reg, InternalAmplifier(enable)), InternalAmplifier(next)) == Apply(reg, InternalAmplifier(next))
  {
    InternalAmplifierField(reg, enable);
    InternalAmplifierField(Apply(reg, InternalAmplifier(enable)), next);
    InternalAmplifierField(reg, next);
    AgreeOnMask(Apply(Apply(reg, InternalAmplifier(enable)), InternalAmplifier(next)), Apply(reg, InternalAmplifier(next)), 0x2);
  }

  /** `setOutputClamp` writes `enable` into bit 2
      and leaves every other bit as it was. */
  lemma OutputClampField(reg: bv32, enable: bool)
    ensures Apply(reg, OutputClamp(enable)) & !0x4 == reg & !0x4
    ensures Apply(reg, OutputClamp(enable)) & 0x4 == (if enable then 0x4 else 0)
  {
    if enable {} else {}
  }

  /** Calling `setOutputClamp` twice is the same as calling it once with the
      second argument: last write wins, and the setter is idempotent. */
  lemma {:induction false} OutputClampLastWriteWins(reg: bv32, enable: bool, next: bool)
    ensures Apply(Apply(reg, OutputClamp(enable)), OutputClamp(next)) == Apply(reg, OutputClamp(next))
  {
    OutputClampField(reg, enable);
    OutputClampField(Apply(reg, OutputClamp(enable)), next);
    OutputClampField(reg, next);
    AgreeOnMask(Apply(Apply(reg, OutputClamp(enable)), OutputClamp(next)), Apply(reg, OutputClamp(next)), 0x4);
  }

  /** `setTristateMode` writes `enable` into bit 3
      and leaves every other bit as it was. */
  lemma TristateModeField(reg: bv32, enable: bool)
    ensures Apply(reg, TristateMode(enable)) & !0x8 == reg & !0x8
    ensures Apply(reg, TristateMode(enable)) & 0x8 == (if enable then 0x8 else 0)
  {
    if enable {} else {}
  }

  /** Calling `setTristateMode` twice is the same as calling it once with the
      second argument: last write wins, and the setter is idempotent. */
  lemma {:induction false} TristateModeLastWriteWins(reg: bv32, enable: bool, next: bool)
    ensures Apply(Apply(reg, TristateMode(enable)), TristateMode(next)) == Apply(reg, TristateMode(next))
  {
    TristateModeField(reg, enable);
    TristateModeField(Apply(reg, TristateMode(enable)), next);
    TristateModeField(reg, next);
    AgreeOnMask(Apply(Apply(reg, TristateMode(enable)), TristateMode(next)), Apply(reg, TristateMode(next)), 0x8);
  }

  /** `setOffsetBinaryEncoding` writes `enable` into bit 4
      and leaves every other bit as it was. */
  lemma OffsetBinaryEncodingField(reg: bv32, enable: bool)
    ensures Apply(reg, OffsetBinaryEncoding(enable)) & !0x10 == reg & !0x10
    ensures Apply(reg, OffsetBinaryEncoding(enable)) & 0x10 == (if enable then 0x10 else 0)
  {
    if enable {} else {}
  }

  /** Calling `setOffsetBinaryEncoding` twice is the same as calling it once
      with the second argument: last write wins, and the setter is idempotent. */
  lemma {:induction false} OffsetBinaryEncodingLastWriteWins(reg: bv32, enable: bool, next: bool)
    ensures Apply(Apply(reg, OffsetBinaryEncoding(enable)), OffsetBinaryEncoding(next)) == Apply(reg, OffsetBinaryEncoding(next))
  {
    OffsetBinaryEncodingField(reg, enable);
    OffsetBinaryEncodingField(Apply(reg, OffsetBinaryEncoding(enable)), next);
    OffsetBinaryEncodingField(reg, next);
    AgreeOnMask(Apply(Apply(reg, OffsetBinaryEncoding(enable)), OffsetBinaryEncoding(next)), Apply(reg, OffsetBinaryEncoding(next)), 0x10);
  }

  /** `setReferenceInputRange` writes 0b1100 (20 V) or 0b0000 (10 V) into bits 6-9
      and leaves every other bit as it was. */
  lemma ReferenceInputRangeField(reg: bv32, enableCompensation: bool)
    ensures Apply(reg, ReferenceInputRange(enableCompensation)) & !0x3C0 == reg & !0x3C0
    ensures Apply(reg, ReferenceInputRange(enableCompensation)) & 0x3C0 == (if enableCompensation then 0x300 else 0)
  {
    if enableCompensation {} else {}
  }

  /** Calling `setReferenceInputRange` twice is the same as calling it once
      with the second argument: last write wins, and the setter is idempotent. */
  lemma {:induction false} ReferenceInputRangeLastWriteWins(reg: bv32, enableCompensation: bool, next: bool)
    ensures Apply(Apply(reg, ReferenceInputRange(enableCompensation)), ReferenceInputRange(next)) == Apply(reg, ReferenceInputRange(next))
  {
    ReferenceInputRangeField(reg, enableCompensation);
    ReferenceInputRangeField(Apply(reg, ReferenceInputRange(enableCompensation)), next);
    ReferenceInputRangeField(reg, next);
    AgreeOnMask(Apply(Apply(reg, ReferenceInputRange(enableCompensation)), ReferenceInputRange(next)), Apply(reg, ReferenceInputRange(next)), 0x3C0);
  }

  /** Two images that agree inside and outside a mask are equal. */
  lemma AgreeOnMask(x: bv32, y: bv32, m: bv32)
    requires x & !m == y & !m && x & m == y & m
    ensures x == y
  {
  }

  /** Each setter keeps an image reachable. */
  lemma ApplyKeepsReachable(reg: bv32, s: Setter)
    requires Reachable(reg)
    ensures Reachable(Apply(reg, s))
  {
  }

  /** Starting from a reachable image, any sequence of setters leaves the
      image inside bits 1-4, 8 and 9. */
  lemma {:induction false} ApplyAllKeepsReachable(reg: bv32, ss: seq<Setter>)
    requires Reachable(reg)
    ensures Reachable(ApplyAll(reg, ss))
    decreases |ss|
  {
    if ss != [] {
      ApplyKeepsReachable(reg, ss[0]);
      ApplyAllKeepsReachable(Apply(reg, ss[0]), ss[1..]);
    }
  }

  /** Appending one setter call to a history applies it last. */
  lemma {:induction false} ApplyAllSnoc(reg: bv32, ss: seq<Setter>, s: Setter)
    ensures ApplyAll(reg, ss + [s]) == Apply(ApplyAll(reg, ss), s)
    decreases |ss|
  {
    if ss == [] {
      assert ss + [s] == [s];
    } else {
      assert (ss + [s])[1..] == ss[1..] + [s];
      ApplyAllSnoc(Apply(reg, ss[0]), ss[1..], s);
    }
  }

  /** A reachable image stays below 2^20, so OR-ing it into a control frame
      leaves the direction bit and the address bits alone. */
  lemma ReachableFitsPayload(reg: bv32)
    requires Reachable(reg)
    ensures reg <= PAYLOAD_MASK
    ensures (WRITE_REGISTERS | CONTROL_REGISTER | reg) >> 20 == 0x2
    ensures (WRITE_REGISTERS | CONTROL_REGISTER | reg) & PAYLOAD_MASK == reg
  {
  }

  /** The default image is reachable, and each setter called with the value
      the initializer gives its field leaves the image unchanged. */
  lemma DefaultIsReachable()
    ensures Reachable(DEFAULT_CONTROL_REGISTER)
    ensures Apply(DEFAULT_CONTROL_REGISTER, InternalAmplifier(false)) == DEFAULT_CONTROL_REGISTER
    ensures Apply(DEFAULT_CONTROL_REGISTER, OutputClamp(true)) == DEFAULT_CONTROL_REGISTER
    ensures Apply(DEFAULT_CONTROL_REGISTER, TristateMode(true)) == DEFAULT_CONTROL_REGISTER
    ensures Apply(DEFAULT_CONTROL_REGISTER, OffsetBinaryEncoding(true)) == DEFAULT_CONTROL_REGISTER
    ensures Apply(DEFAULT_CONTROL_REGISTER, ReferenceInputRange(false)) == DEFAULT_CONTROL_REGISTER
  {
  }
}
