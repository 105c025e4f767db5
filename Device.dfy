/** The current driver: one `AD57X1` object per chip, with the value offset,
    the chip-select pin and polarity and the optional LDAC pin fixed at
    construction, a cached control-register image that only the field setters
    change, and every bus and pin action appended to `trace`. `AD5781` and
    `AD5791` are its two named constructors (offset 2 and offset 0). */
module Device {
  import opened Registers
  import opened Control
  import opened Frame
  import opened Bus

  /** What a read appends: the read command in one transfer, then a second
      transfer clocking out three zero bytes while the reply comes in. No
      LDAC write is among them. */
  function ReadEvents(active: bool, command: bv32): (t: seq<Event>)
    ensures |t| == 10 && t[5..] == Transfer(active, 0)
    ensures forall i :: 0 <= i < |t| ==> !t[i].Ldac?
  {
    Transfer(active, command) + Transfer(active, 0)
  }

  /** The commit after a DAC write: an LDAC pulse (high, then low) when an
      LDAC pin is configured, otherwise the software load frame. Exactly one
      of the two happens. */
  function CommitEvents(active: bool, ldacPin: Int16): (t: seq<Event>)
    ensures ldacPin >= 0 <==> Ldac(true) in t
    ensures ldacPin >= 0 <==> Cs(active) !in t
  {
    if ldacPin >= 0 then [Ldac(true), Ldac(false)] else Transfer(active, LOAD_COMMAND)
  }

  /** What `setValue` appends: the DAC write, then the commit; seven events
      with an LDAC pin, ten without. */
  function SetValueEvents(active: bool, ldacPin: Int16, offset: ValueOffset, value: bv32): (t: seq<Event>)
    ensures |t| == if ldacPin >= 0 then 7 else 10
    ensures t[..5] == Transfer(active, DacCommand(offset, value))
  {
    Transfer(active, DacCommand(offset, value)) + CommitEvents(active, ldacPin)
  }

  /** What `begin` appends: chip-select made an output and deasserted; the
      LDAC pin made an output and driven low if there is one; the SPI bus
      started if asked. Chip-select is never asserted. */
  function BeginEvents(active: bool, ldacPin: Int16, initSpi: bool): (t: seq<Event>)
    ensures |t| >= 2 && t[..2] == [CsOutput, Cs(!active)]
    ensures forall i :: 0 <= i < |t| ==> t[i] != Cs(active)
    ensures (SpiBegin in t) == initSpi && (LdacOutput in t) == (ldacPin >= 0)
  {
    [CsOutput, Cs(!active)]
    + (if ldacPin >= 0 then [LdacOutput, Ldac(false)] else [])
    + (if initSpi then [SpiBegin] else [])
  }

  /** `setValue` sends exactly one frame, the DAC write, and pulses LDAC high
      then low when an LDAC pin is configured; otherwise it sends exactly two
      frames, the DAC write and the load frame 0x400001, and never touches
      the LDAC pin. */
  lemma SetValueFrames(active: bool, ldacPin: Int16, offset: ValueOffset, value: bv32)
    ensures Frames(SetValueEvents(active, ldacPin, offset, value), active)
         == if ldacPin >= 0 then [DacCommand(offset, value)] else [DacCommand(offset, value), 0x40_0001]
    ensures LdacLevels(SetValueEvents(active, ldacPin, offset, value))
         == if ldacPin >= 0 then [true, false] else []
  {
    if ldacPin >= 0 {
      PulseCommit(active, DacCommand(offset, value));
    } else {
      SoftwareCommit(active, DacCommand(offset, value));
    }
  }

  /** A frame followed by an LDAC pulse: one frame, levels high then low. */
  lemma {:induction false} PulseCommit(active: bool, frame: bv32)
    requires frame <= FRAME_MASK
    ensures Frames(Transfer(active, frame) + [Ldac(true), Ldac(false)], active) == [frame]
    ensures LdacLevels(Transfer(active, frame) + [Ldac(true), Ldac(false)]) == [true, false]
  {
    FramesOfTransfer(active, frame, [Ldac(true), Ldac(false)]);
    FramesOfLdac(true, active, [Ldac(false)]);
    assert [Ldac(false)] == [Ldac(false)] + [];
    FramesOfLdac(false, active, []);
  }

  /** A frame followed by the load frame: those two frames, no LDAC level. */
  lemma {:induction false} SoftwareCommit(active: bool, frame: bv32)
    requires frame <= FRAME_MASK
    ensures Frames(Transfer(active, frame) + Transfer(active, LOAD_COMMAND), active) == [frame, 0x40_0001]
    ensures LdacLevels(Transfer(active, frame) + Transfer(active, LOAD_COMMAND)) == []
  {
    LoadCommandIs();
    assert Transfer(active, LOAD_COMMAND) == Transfer(active, LOAD_COMMAND) + [];
    FramesOfTransfer(active, frame, Transfer(active, LOAD_COMMAND));
    FramesOfTransfer(active, LOAD_COMMAND, []);
  }

  /** `setClearCodeValue` sends exactly one frame, a clear-code write, and
      no commit: neither an LDAC write nor the load frame. */
  lemma {:induction false} ClearCodeSendsOneFrame(active: bool, offset: ValueOffset, value: bv32)
    ensures Frames(Transfer(active, ClearCodeCommand(offset, value)), active) == [ClearCodeCommand(offset, value)]
    ensures LdacLevels(Transfer(active, ClearCodeCommand(offset, value))) == []
    ensures ClearCodeCommand(offset, value) != LOAD_COMMAND
  {
    var frame := ClearCodeCommand(offset, value);
    SingleTransfer(active, frame);
    LoadCommandIs();
    assert Decode(frame).address != Decode(LOAD_COMMAND).address;
  }

  /** A lone transfer of a 24-bit frame delivers that frame and nothing
      else. */
  lemma {:induction false} SingleTransfer(active: bool, frame: bv32)
    requires frame <= FRAME_MASK
    ensures Frames(Transfer(active, frame), active) == [frame]
    ensures LdacLevels(Transfer(active, frame)) == []
  {
    assert Transfer(active, frame) + [] == Transfer(active, frame);
    FramesOfTransfer(active, frame, []);
  }

  /** A read sends the read command and then one zero frame, and never
      touches the LDAC pin. */
  lemma {:induction false} ReadFrames(active: bool, command: bv32)
    ensures Frames(ReadEvents(active, command), active) == [command & FRAME_MASK, 0]
    ensures LdacLevels(ReadEvents(active, command)) == []
  {
    assert Transfer(active, 0) == Transfer(active, 0) + [];
    FramesOfTransfer(active, command, Transfer(active, 0));
    FramesOfTransfer(active, 0, []);
  }

  /** `begin` sends no frame, leaves chip-select deasserted, and drives LDAC
      low exactly when an LDAC pin is configured. */
  lemma {:induction false} BeginSendsNoFrame(active: bool, ldacPin: Int16, initSpi: bool)
    ensures Frames(BeginEvents(active, ldacPin, initSpi), active) == []
    ensures LdacLevels(BeginEvents(active, ldacPin, initSpi)) == if ldacPin >= 0 then [false] else []
    ensures Cs(!active) in BeginEvents(active, ldacPin, initSpi)
    ensures Cs(active) !in BeginEvents(active, ldacPin, initSpi)
  {
    var t := BeginEvents(active, ldacPin, initSpi);
    assert t + [] == t;
    FramesSkip(t, [], active);
    BeginLdacLevels(active, ldacPin, initSpi);
    assert t[1] == Cs(!active);
  }

  /** The LDAC levels of `begin`: one low write if there is a pin. */
  lemma {:induction false} BeginLdacLevels(active: bool, ldacPin: Int16, initSpi: bool)
    ensures LdacLevels(BeginEvents(active, ldacPin, initSpi)) == if ldacPin >= 0 then [false] else []
  {
    var tail := (if ldacPin >= 0 then [LdacOutput, Ldac(false)] else []) + (if initSpi then [SpiBegin] else []);
    assert BeginEvents(active, ldacPin, initSpi) == [CsOutput, Cs(!active)] + tail;
    BeginTailQuiet(ldacPin, initSpi);
    LdacLevelsAppend([CsOutput, Cs(!active)], tail);
    assert LdacLevels([CsOutput, Cs(!active)]) == [];
  }

  /** The part of `begin` after the chip-select set-up writes no
      chip-select, and LDAC low once if there is an LDAC pin. */
  lemma {:induction false} BeginTailQuiet(ldacPin: Int16, initSpi: bool)
    ensures var tail := (if ldacPin >= 0 then [LdacOutput, Ldac(false)] else [])
                        + (if initSpi then [SpiBegin] else []);
      && (forall i :: 0 <= i < |tail| ==> !tail[i].Cs?)
      && LdacLevels(tail) == if ldacPin >= 0 then [false] else []
  {
    var ldac: seq<Event> := if ldacPin >= 0 then [LdacOutput, Ldac(false)] else [];
    var spi: seq<Event> := if initSpi then [SpiBegin] else [];
    LdacLevelsAppend(ldac, spi);
    assert LdacLevels(spi) == [];
    if ldacPin >= 0 {
      assert LdacLevels(ldac) == LdacLevels([Ldac(false)]) == [false];
    }
  }

  /** Whatever follows `begin` delivers exactly the frames it would deliver
      on its own: `begin` neither sends a frame nor disturbs later ones. */
  lemma BeginThenFrames(active: bool, ldacPin: Int16, initSpi: bool, rest: seq<Event>)
    ensures Frames(BeginEvents(active, ldacPin, initSpi) + rest, active) == Frames(rest, active)
    ensures LdacLevels(BeginEvents(active, ldacPin, initSpi) + rest)
         == (if ldacPin >= 0 then [false] else []) + LdacLevels(rest)
  {
    FramesSkip(BeginEvents(active, ldacPin, initSpi), rest, active);
    BeginSendsNoFrame(active, ldacPin, initSpi);
    LdacLevelsAppend(BeginEvents(active, ldacPin, initSpi), rest);
  }

  /** From power-on, `begin()`, `setReferenceInputRange(true)` and
      `updateControlRegister()` deliver exactly one frame, 0x20031E: the
      default image with the 20 V range code in bits 6-9. */
  lemma BeginRangeUpdate(active: bool, ldacPin: Int16)
    ensures Frames(BeginEvents(active, ldacPin, true)
                   + Transfer(active, ControlCommand(Apply(DEFAULT_CONTROL_REGISTER, ReferenceInputRange(true)))),
                   active)
         == [0x20_031E]
  {
    var image := Apply(DEFAULT_CONTROL_REGISTER, ReferenceInputRange(true));
    ReferenceInputRangeField(DEFAULT_CONTROL_REGISTER, true);
    AgreeOnMask(image, 0x31E, 0x3C0);
    BeginThenFrames(active, ldacPin, true, Transfer(active, ControlCommand(image)));
    SingleTransfer(active, ControlCommand(image));
  }

  /** A trace without chip-select writes carries no frame. */
  lemma {:induction false} NoFramesWithoutCs(t: seq<Event>, active: bool)
    requires forall i :: 0 <= i < |t| ==> !t[i].Cs?
    ensures Frames(t, active) == []
    decreases |t|
  {
    if t != [] {
      NoFramesWithoutCs(t[1..], active);
    }
  }

  /** `enableOutput` (and so `reset`) clears the clamp bit 2 and the
      tristate bit 3 and keeps every other bit of the image. */
  lemma EnableOutputImage(reg: bv32)
    ensures ApplyAll(reg, [OutputClamp(false), TristateMode(false)]) & !0xC == reg & !0xC
    ensures ApplyAll(reg, [OutputClamp(false), TristateMode(false)]) & 0xC == 0
  {
    var x := Apply(reg, OutputClamp(false));
    OutputClampField(reg, false);
    TristateModeField(x, false);
    assert ApplyAll(reg, [OutputClamp(false), TristateMode(false)]) == Apply(x, TristateMode(false));
  }

  class AD57X1 {
    const valueOffset: ValueOffset
    const pinCs: PinId
    const pinLdac: Int16
    const csPolarity: bool
    const spiClockFrequency: Uint32

    /** The write-side cache of the chip's control register. */
    var controlRegister: bv32
    /** Everything done on the bus and the pins so far, oldest first. */
    var trace: seq<Event>
    /** The setter calls made so far, oldest first. */
    ghost var setters: seq<Setter>

    /** The image is the default after all setter calls so far, and stays
        inside the bits the setters can reach. */
    ghost predicate Valid()
      reads this
    {
      controlRegister == ApplyAll(DEFAULT_CONTROL_REGISTER, setters) && Reachable(controlRegister)
    }

    constructor (csPin: PinId, valueOffset: ValueOffset, spiClockFrequency: Uint32, ldacPin: Int16, csPolarity: bool)
      ensures Valid()
      ensures this.valueOffset == valueOffset && pinCs == csPin && pinLdac == ldacPin
      ensures this.csPolarity == csPolarity && this.spiClockFrequency == spiClockFrequency
      ensures controlRegister == DEFAULT_CONTROL_REGISTER && setters == [] && trace == []
    {
      this.valueOffset := valueOffset;
      pinCs := csPin;
      pinLdac := ldacPin;
      this.csPolarity := csPolarity;
      this.spiClockFrequency := spiClockFrequency;
      controlRegister := DEFAULT_CONTROL_REGISTER;
      trace := [];
      setters := [];
      DefaultIsReachable();
    }

    /** The 18-bit chip: offset 2; 1 MHz, no LDAC pin and an active-high
        chip-select unless given. */
    constructor AD5781(csPin: PinId, spiClockFrequency: Uint32 := DEFAULT_SPI_CLOCK_FREQUENCY,
                       ldacPin: Int16 := DEFAULT_LDAC_PIN, csPolarity: bool := DEFAULT_CS_POLARITY)
      ensures Valid()
      ensures valueOffset == 2 && pinCs == csPin && pinLdac == ldacPin
      ensures this.csPolarity == csPolarity && this.spiClockFrequency == spiClockFrequency
      ensures controlRegister == DEFAULT_CONTROL_REGISTER && setters == [] && trace == []
    {
      valueOffset := AD5781_VALUE_OFFSET;
      pinCs := csPin;
      pinLdac := ldacPin;
      this.csPolarity := csPolarity;
      this.spiClockFrequency := spiClockFrequency;
      controlRegister := DEFAULT_CONTROL_REGISTER;
      trace := [];
      setters := [];
      DefaultIsReachable();
    }

    /** The 20-bit chip: offset 0; the same defaults as the AD5781. */
    constructor AD5791(csPin: PinId, spiClockFrequency: Uint32 := DEFAULT_SPI_CLOCK_FREQUENCY,
                       ldacPin: Int16 := DEFAULT_LDAC_PIN, csPolarity: bool := DEFAULT_CS_POLARITY)
      ensures Valid()
      ensures valueOffset == 0 && pinCs == csPin && pinLdac == ldacPin
      ensures this.csPolarity == csPolarity && this.spiClockFrequency == spiClockFrequency
      ensures controlRegister == DEFAULT_CONTROL_REGISTER && setters == [] && trace == []
    {
      valueOffset := AD5791_VALUE_OFFSET;
      pinCs := csPin;
      pinLdac := ldacPin;
      this.csPolarity := csPolarity;
      this.spiClockFrequency := spiClockFrequency;
      controlRegister := DEFAULT_CONTROL_REGISTER;
      trace := [];
      setters := [];
      DefaultIsReachable();
    }

    /** Assert chip-select, send the frame's three bytes MSB first, deassert. */
    method WriteSpi(value: bv32)
      modifies this`trace
      ensures trace == old(trace) + Transfer(csPolarity, value)
    {
      trace := trace + [Cs(csPolarity)];
      trace := trace + [Byte(((value >> 16) & 0xFF) as bv8)];
      trace := trace + [Byte(((value >> 8) & 0xFF) as bv8)];
      trace := trace + [Byte(((value >> 0) & 0xFF) as bv8)];
      trace := trace + [Cs(!csPolarity)];
    }

    /** Send a command, then clock out three zero bytes in a second
        chip-select group; `reply` is what the chip shifts back meanwhile. */
    method ReadSpi(value: bv32, reply: seq<bv8>) returns (result: bv32)
      requires |reply| == 3
      modifies this`trace
      ensures trace == old(trace) + ReadEvents(csPolarity, value)
      ensures result == Assemble(reply) && result <= FRAME_MASK
    {
      WriteSpi(value);
      trace := trace + [Cs(csPolarity)];
      result := (reply[0] as bv32) << 16;
      trace := trace + [Byte(0x00)];
      result := result | ((reply[1] as bv32) << 8);
      trace := trace + [Byte(0x00)];
      result := result | (reply[2] as bv32);
      trace := trace + [Byte(0x00)];
      trace := trace + [Cs(!csPolarity)];
    }

    /** Send the cached image as a control-register write. */
    method UpdateControlRegister()
      requires Valid()
      modifies this`trace
      ensures trace == old(trace) + Transfer(csPolarity, ControlCommand(controlRegister))
      ensures Decode(ControlCommand(controlRegister)) == Command(false, 0x2, controlRegister)
    {
      ReachableFitsPayload(controlRegister);
      WriteSpi(ControlCommand(controlRegister));
    }

    /** Write the clear-code register; no commit follows. */
    method SetClearCodeValue(value: bv32)
      modifies this`trace
      ensures trace == old(trace) + Transfer(csPolarity, ClearCodeCommand(valueOffset, value))
    {
      WriteSpi(ClearCodeCommand(valueOffset, value));
    }

    method Reset()
      requires Valid()
      modifies this`controlRegister, this`trace, this`setters
      ensures Valid()
      ensures setters == old(setters) + [OutputClamp(false), TristateMode(false)]
      ensures controlRegister == ApplyAll(old(controlRegister), [OutputClamp(false), TristateMode(false)])
      ensures trace == old(trace) + Transfer(csPolarity, ControlCommand(controlRegister))
    {
      EnableOutput();
    }

    /** Write the DAC register, then commit it by an LDAC pulse or, without
        an LDAC pin, by the software load frame. */
    method SetValue(value: bv32)
      modifies this`trace
      ensures trace == old(trace) + SetValueEvents(csPolarity, pinLdac, valueOffset, value)
    {
      WriteSpi(DacCommand(valueOffset, value));
      if pinLdac >= 0 {
        trace := trace + [Ldac(true)];
        trace := trace + [Ldac(false)];
      } else {
        WriteSpi(LOAD_COMMAND);
      }
    }

    /** Read the DAC register back and undo the offset shift. */
    method ReadValue(reply: seq<bv8>) returns (result: bv32)
      requires |reply| == 3
      modifies this`trace
      ensures trace == old(trace) + ReadEvents(csPolarity, ReadCommand(DAC_REGISTER))
      ensures result == ReadbackValue(Assemble(reply), valueOffset)
    {
      var raw := ReadSpi(ReadCommand(DAC_REGISTER), reply);
      result := ReadbackValue(raw, valueOffset);
    }

    /** Take the output out of clamp and tristate and send the image. */
    method EnableOutput()
      requires Valid()
      modifies this`controlRegister, this`trace, this`setters
      ensures Valid()
      ensures setters == old(setters) + [OutputClamp(false), TristateMode(false)]
      ensures controlRegister == ApplyAll(old(controlRegister), [OutputClamp(false), TristateMode(false)])
      ensures trace == old(trace) + Transfer(csPolarity, ControlCommand(controlRegister))
    {
      SetOutputClamp(false);
      SetTristateMode(false);
      UpdateControlRegister();
    }

    /** Record one setter call whose result is already in `controlRegister`. */
    ghost method Record(s: Setter, before: bv32)
      requires before == ApplyAll(DEFAULT_CONTROL_REGISTER, setters) && Reachable(before)
      requires controlRegister == Apply(before, s)
      modifies this`setters
      ensures setters == old(setters) + [s]
      ensures Valid()
    {
      ApplyAllSnoc(DEFAULT_CONTROL_REGISTER, setters, s);
      ApplyKeepsReachable(before, s);
      setters := setters + [s];
    }

    method SetInternalAmplifier(enable: bool)
      requires Valid()
      modifies this`controlRegister, this`setters
      ensures Valid() && trace == old(trace)
      ensures setters == old(setters) + [InternalAmplifier(enable)]
      ensures controlRegister == Apply(old(controlRegister), InternalAmplifier(enable))
    {
      ghost var before := controlRegister;
      controlRegister := (controlRegister & !(1 << RBUF_REGISTER))
                         | ((if !enable then 1 else 0) << RBUF_REGISTER);
      Record(InternalAmplifier(enable), before);
    }

    method SetOutputClamp(enable: bool)
      requires Valid()
      modifies this`controlRegister, this`setters
      ensures Valid() && trace == old(trace)
      ensures setters == old(setters) + [OutputClamp(enable)]
      ensures controlRegister == Apply(old(controlRegister), OutputClamp(enable))
    {
      ghost var before := controlRegister;
      controlRegister := (controlRegister & !(1 << OUTPUT_CLAMP_TO_GND_REGISTER))
                         | ((if enable then 1 else 0) << OUTPUT_CLAMP_TO_GND_REGISTER);
      Record(OutputClamp(enable), before);
    }

    method SetTristateMode(enable: bool)
      requires Valid()
      modifies this`controlRegister, this`setters
      ensures Valid() && trace == old(trace)
      ensures setters == old(setters) + [TristateMode(enable)]
      ensures controlRegister == Apply(old(controlRegister), TristateMode(enable))
    {
      ghost var before := controlRegister;
      controlRegister := (controlRegister & !(1 << OUTPUT_TRISTATE_REGISTER))
                         | ((if enable then 1 else 0) << OUTPUT_TRISTATE_REGISTER);
      Record(TristateMode(enable), before);
    }

    method SetOffsetBinaryEncoding(enable: bool)
      requires Valid()
      modifies this`controlRegister, this`setters
      ensures Valid() && trace == old(trace)
      ensures setters == old(setters) + [OffsetBinaryEncoding(enable)]
      ensures controlRegister == Apply(old(controlRegister), OffsetBinaryEncoding(enable))
    {
      ghost var before := controlRegister;
      controlRegister := (controlRegister & !(1 << OFFSET_BINARY_REGISTER))
                         | ((if enable then 1 else 0) << OFFSET_BINARY_REGISTER);
      Record(OffsetBinaryEncoding(enable), before);
    }

    method SetReferenceInputRange(enableCompensation: bool)
      requires Valid()
      modifies this`controlRegister, this`setters
      ensures Valid() && trace == old(trace)
      ensures setters == old(setters) + [ReferenceInputRange(enableCompensation)]
      ensures controlRegister == Apply(old(controlRegister), ReferenceInputRange(enableCompensation))
    {
      ghost var before := controlRegister;
      controlRegister := (controlRegister & !(0xF << LINEARITY_COMPENSATION_REGISTER))
                         | ((if enableCompensation then REFERENCE_RANGE_20V else REFERENCE_RANGE_10V)
                            << LINEARITY_COMPENSATION_REGISTER);
      Record(ReferenceInputRange(enableCompensation), before);
    }

    /** Read the control register from the chip; the result is returned as
        received and the cached image is left alone. */
    method ReadControlRegister(reply: seq<bv8>) returns (result: bv32)
      requires |reply| == 3
      modifies this`trace
      ensures trace == old(trace) + ReadEvents(csPolarity, ReadCommand(CONTROL_REGISTER))
      ensures result == Assemble(reply) && controlRegister == old(controlRegister)
    {
      result := ReadSpi(ReadCommand(CONTROL_REGISTER), reply);
    }

    /** Configure the pins and, if asked, start the SPI bus. The image is not
        touched, so calling it again repeats the same events. */
    method Begin(initSpi: bool := true)
      modifies this`trace
      ensures trace == old(trace) + BeginEvents(csPolarity, pinLdac, initSpi)
      ensures controlRegister == old(controlRegister)
    {
      trace := trace + [CsOutput];
      trace := trace + [Cs(!csPolarity)];
      if pinLdac >= 0 {
        trace := trace + [LdacOutput];
        trace := trace + [Ldac(false)];
      }
      if initSpi {
        trace := trace + [SpiBegin];
      }
    }
  }
}
