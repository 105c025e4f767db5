/** The legacy, AD5781-only driver: chip-select fixed active-low, the value
    offset fixed at 2, every value committed by the software load frame even
    when an LDAC pin is given, and an `enableOutput` that also disables the
    amplifier buffer, selects two's complement and chooses the linearity
    range from the reference voltage. */
module LegacyDevice {
  import Registers
  import opened LegacyRegisters
  import opened Control
  import opened Frame
  import opened Bus
  import Device

  /** Chip-select is asserted low. */
  const CS_ACTIVE: bool := false

  /** The DAC-register write of the legacy `setValue`, built from the legacy
      constants; it is the current driver's frame for offset 2. */
  function DacFrame(value: bv32): (frame: bv32)
    ensures frame == DacCommand(Registers.AD5781_VALUE_OFFSET, value)
  {
    WRITE_REGISTERS | DAC_REGISTER | ((value << DAC_REGSISTER_VALUE_OFFSET) & 0xFFFFF)
  }

  /** The control-register write of the legacy `updateControlRegister`; the
      same frame as the current driver's. */
  function ControlFrame(image: bv32): (frame: bv32)
    ensures frame == ControlCommand(image)
  {
    WRITE_REGISTERS | CONTROL_REGISTER | image
  }

  /** The legacy load frame, the same as the current driver's 0x400001. */
  function LoadFrame(): (frame: bv32)
    ensures frame == LOAD_COMMAND == 0x40_0001
  {
    SW_CONTROL_REGISTER | SW_CONTROL_LDAC
  }

  /** The setter calls of the legacy `enableOutput`, in order; `highReference`
      stands for "the reference voltage is above 10 V". Offset binary is
      switched off, unlike in the current driver. */
  function EnableSetters(highReference: bool): (ss: seq<Setter>)
    ensures |ss| == 5 && ss[3] == OffsetBinaryEncoding(false) && ss[4] == ReferenceInputRange(highReference)
    ensures forall i :: 0 <= i < |ss| ==> ss[i] != OutputClamp(true) && ss[i] != TristateMode(true)
  {
    [InternalAmplifier(false), OutputClamp(false), TristateMode(false),
     OffsetBinaryEncoding(false), ReferenceInputRange(highReference)]
  }

  /** What the legacy `setValue` appends: the DAC write, then the load
      frame, always. */
  function SetValueEvents(value: bv32): (t: seq<Event>)
    ensures |t| == 10 && forall i :: 0 <= i < |t| ==> !t[i].Ldac?
  {
    Transfer(CS_ACTIVE, DacFrame(value)) + Transfer(CS_ACTIVE, LoadFrame())
  }

  /** The legacy `setValue` sends exactly two frames, the DAC write with the
      value shifted by 2 and then 0x400001, and never writes the LDAC pin. */
  lemma SetValueFrames(value: bv32)
    ensures Frames(SetValueEvents(value), CS_ACTIVE) == [DacCommand(2, value), 0x40_0001]
    ensures LdacLevels(SetValueEvents(value)) == []
  {
    Device.SoftwareCommit(CS_ACTIVE, DacFrame(value));
  }

  /** A current `AD5781` with an active-low chip-select and no LDAC pin does
      on the bus exactly what the legacy `setValue` does. */
  lemma SetValueMatchesCurrent(value: bv32)
    ensures Device.SetValueEvents(false, Registers.DEFAULT_LDAC_PIN, Registers.AD5781_VALUE_OFFSET, value)
         == SetValueEvents(value)
  {
  }

  /** With an LDAC pin configured the two versions differ: the current one
      pulses the pin, the legacy one sends the load frame regardless. */
  lemma SetValueDivergesWithLdac(ldacPin: Registers.PinId, value: bv32)
    ensures Frames(Device.SetValueEvents(CS_ACTIVE, ldacPin, 2, value), CS_ACTIVE) != Frames(SetValueEvents(value), CS_ACTIVE)
    ensures LdacLevels(Device.SetValueEvents(CS_ACTIVE, ldacPin, 2, value)) == [true, false]
  {
    Device.SetValueFrames(CS_ACTIVE, ldacPin, 2, value);
    SetValueFrames(value);
  }

  /** Setting bit 1 (amplifier disabled). */
  lemma AmplifierOff(reg: bv32)
    ensures Apply(reg, InternalAmplifier(false)) == reg | 0x2
  {
  }

  /** Clearing one of bits 2, 3 and 4. */
  lemma ClampOff(reg: bv32)
    ensures Apply(reg, OutputClamp(false)) == reg & !0x4
  {
  }

  lemma TristateOff(reg: bv32)
    ensures Apply(reg, TristateMode(false)) == reg & !0x8
  {
  }

  lemma OffsetBinaryOff(reg: bv32)
    ensures Apply(reg, OffsetBinaryEncoding(false)) == reg & !0x10
  {
  }

  lemma RangeCode(reg: bv32, highReference: bool)
    ensures Apply(reg, ReferenceInputRange(highReference)) == (reg & !0x3C0) | (if highReference then 0x300 else 0)
  {
    if highReference {} else {}
  }

  /** The five setter calls of `enableOutput`, one after the other. */
  lemma {:induction false} EnableSettersInOrder(reg: bv32, highReference: bool)
    ensures ApplyAll(reg, EnableSetters(highReference))
         == Apply(Apply(Apply(Apply(Apply(reg, InternalAmplifier(false)), OutputClamp(false)),
                  TristateMode(false)), OffsetBinaryEncoding(false)), ReferenceInputRange(highReference))
  {
    var ss := EnableSetters(highReference);
    assert ss[1..][1..][1..][1..][1..] == [];
  }

  /** The history after the five setter calls of `enableOutput`. */
  lemma EnableHistory(history: seq<Setter>, highReference: bool)
    ensures history + [InternalAmplifier(false)] + [OutputClamp(false)] + [TristateMode(false)]
            + [OffsetBinaryEncoding(false)] + [ReferenceInputRange(highReference)]
         == history + EnableSetters(highReference)
  {
  }

  /** The legacy `enableOutput` forces bit 1 to 1, bits 2-4 to 0 and bits 6-9
      to the range code (0b1100 above 10 V, else 0b0000), and keeps every
      other bit of the image. */
  lemma {:induction false} EnableOutputImage(reg: bv32, highReference: bool)
    ensures ApplyAll(reg, EnableSetters(highReference))
         == (reg & !0x3DE) | 0x2 | (if highReference then 0x300 else 0)
  {
    EnableSettersInOrder(reg, highReference);
    var x1 := Apply(reg, InternalAmplifier(false));
    AmplifierOff(reg);
    var x2 := Apply(x1, OutputClamp(false));
    ClampOff(x1);
    var x3 := Apply(x2, TristateMode(false));
    TristateOff(x2);
    var x4 := Apply(x3, OffsetBinaryEncoding(false));
    OffsetBinaryOff(x3);
    RangeCode(x4, highReference);
    ClosedForm(reg, if highReference then 0x300 else 0);
  }

  /** The bit-level step of EnableOutputImage. */
  lemma ClosedForm(reg: bv32, code: bv32)
    ensures (((((reg | 0x2) & !0x4) & !0x8) & !0x10) & !0x3C0) | code == (reg & !0x3DE) | 0x2 | code
  {
  }

  /** From the power-on image the legacy reset sends 0x200002 (reference up
      to 10 V) or 0x200302 (above 10 V), while the current driver's reset
      sends 0x200012: the two versions leave the chip in different modes. */
  lemma ResetFrameFromDefault(highReference: bool)
    ensures ControlCommand(ApplyAll(DEFAULT_CONTROL_REGISTER, EnableSetters(highReference)))
         == if highReference then 0x20_0302 else 0x20_0002
    ensures ControlCommand(ApplyAll(Registers.DEFAULT_CONTROL_REGISTER, [OutputClamp(false), TristateMode(false)]))
         == 0x20_0012
  {
    EnableOutputImage(DEFAULT_CONTROL_REGISTER, highReference);
    Device.EnableOutputImage(Registers.DEFAULT_CONTROL_REGISTER);
  }

  class AD5781 {
    const csPin: Registers.PinId
    const ldacPin: Registers.Int16
    /** Whether the reference voltage given at construction exceeds 10 V. */
    const highReference: bool

    /** The write-side cache of the chip's control register. */
    var controlRegister: bv32
    /** Everything done on the bus and the pins so far, oldest first. */
    var trace: seq<Event>
    /** The setter calls made so far, oldest first. */
    ghost var setters: seq<Setter>

    /** The image is the default after all setter calls so far, and stays
        inside the bits the setters can reach. */
    ghost predicate Valid()
      reads this
    {
      controlRegister == ApplyAll(DEFAULT_CONTROL_REGISTER, setters) && Reachable(controlRegister)
    }

    /** With an LDAC pin: an unsigned pin number, so always non-negative. */
    constructor (csPin: Registers.PinId, ldacPin: Registers.PinId, highReference: bool)
      ensures Valid()
      ensures this.csPin == csPin && this.ldacPin == ldacPin && this.ldacPin >= 0
      ensures this.highReference == highReference
      ensures controlRegister == 0x1E && setters == [] && trace == []
    {
      this.csPin := csPin;
      this.ldacPin := ldacPin;
      this.highReference := highReference;
      controlRegister := DEFAULT_CONTROL_REGISTER;
      trace := [];
      setters := [];
      DefaultIsReachable();
    }

    /** Without an LDAC pin: stored as -1. */
    constructor WithoutLdac(csPin: Registers.PinId, highReference: bool)
      ensures Valid()
      ensures this.csPin == csPin && ldacPin == -1
      ensures this.highReference == highReference
      ensures controlRegister == 0x1E && setters == [] && trace == []
    {
      this.csPin := csPin;
      ldacPin := -1;
      this.highReference := highReference;
      controlRegister := DEFAULT_CONTROL_REGISTER;
      trace := [];
      setters := [];
      DefaultIsReachable();
    }

    /** Pull chip-select low, send the frame's three bytes MSB first, pull
        it high again. */
    method WriteSpi(value: bv32)
      modifies this`trace
      ensures trace == old(trace) + Transfer(CS_ACTIVE, value)
    {
      trace := trace + [Cs(false)];
      trace := trace + [Byte(((value >> 16) & 0xFF) as bv8)];
      trace := trace + [Byte(((value >> 8) & 0xFF) as bv8)];
      trace := trace + [Byte(((value >> 0) & 0xFF) as bv8)];
      trace := trace + [Cs(true)];
    }

    /** Send the cached image as a control-register write. */
    method UpdateControlRegister()
      requires Valid()
      modifies this`trace
      ensures trace == old(trace) + Transfer(CS_ACTIVE, ControlFrame(controlRegister))
      ensures Decode(ControlFrame(controlRegister)) == Command(false, 0x2, controlRegister)
    {
      ReachableFitsPayload(controlRegister);
      WriteSpi(WRITE_REGISTERS | CONTROL_REGISTER | controlRegister);
    }

    method Reset()
      requires Valid()
      modifies this`controlRegister, this`trace, this`setters
      ensures Valid()
      ensures setters == old(setters) + EnableSetters(highReference)
      ensures controlRegister == ApplyAll(old(controlRegister), EnableSetters(highReference))
      ensures trace == old(trace) + Transfer(CS_ACTIVE, ControlFrame(controlRegister))
    {
      EnableOutput();
    }

    /** Write the DAC register with the value shifted by 2, then send the
        load frame; the LDAC pin is never used. */
    method SetValue(value: bv32)
      modifies this`trace
      ensures trace == old(trace) + SetValueEvents(value)
    {
      var command := DacFrame(value);
      WriteSpi(command);
      WriteSpi(SW_CONTROL_REGISTER | SW_CONTROL_LDAC);
    }

    /** Disable the amplifier buffer, lift clamp and tristate, select two's
        complement, choose the range from the reference, and send the image. */
    method EnableOutput()
      requires Valid()
      modifies this`controlRegister, this`trace, this`setters
      ensures Valid()
      ensures setters == old(setters) + EnableSetters(highReference)
      ensures controlRegister == ApplyAll(old(controlRegister), EnableSetters(highReference))
      ensures trace == old(trace) + Transfer(CS_ACTIVE, ControlFrame(controlRegister))
    {
      EnableSettersInOrder(controlRegister, highReference);
      EnableHistory(setters, highReference);
      SetInternalAmplifier(false);
      SetOutputClamp(false);
      SetTristateMode(false);
      SetOffsetBinaryEncoding(false);
      SetReferenceInputRange(highReference);
      UpdateControlRegister();
    }

    /** Record one setter call whose result is already in `controlRegister`. */
    ghost method Record(s: Setter, before: bv32)
      requires before == ApplyAll(DEFAULT_CONTROL_REGISTER, setters) && Reachable(before)
      requires controlRegister == Apply(before, s)
      modifies this`setters
      ensures setters == old(setters) + [s]
      ensures Valid()
    {
      ApplyAllSnoc(DEFAULT_CONTROL_REGISTER, setters, s);
      ApplyKeepsReachable(before, s);
      setters := setters + [s];
    }

    method SetInternalAmplifier(enable: bool)
      requires Valid()
      modifies this`controlRegister, this`setters
      ensures Valid() && trace == old(trace)
      ensures setters == old(setters) + [InternalAmplifier(enable)]
      ensures controlRegister == Apply(old(controlRegister), InternalAmplifier(enable))
    {
      ghost var before := controlRegister;
      controlRegister := (controlRegister & !(1 << RBUF_REGISTER))
                         | ((if !enable then 1 else 0) << RBUF_REGISTER);
      Record(InternalAmplifier(enable), before);
    }

    method SetOutputClamp(enable: bool)
      requires Valid()
      modifies this`controlRegister, this`setters
      ensures Valid() && trace == old(trace)
      ensures setters == old(setters) + [OutputClamp(enable)]
      ensures controlRegister == Apply(old(controlRegister), OutputClamp(enable))
    {
      ghost var before := controlRegister;
      controlRegister := (controlRegister & !(1 << OUTPUT_CLAMP_TO_GND_REGISTER))
                         | ((if enable then 1 else 0) << OUTPUT_CLAMP_TO_GND_REGISTER);
      Record(OutputClamp(enable), before);
    }

    method SetTristateMode(enable: bool)
      requires Valid()
      modifies this`controlRegister, this`setters
      ensures Valid() && trace == old(trace)
      ensures setters == old(setters) + [TristateMode(enable)]
      ensures controlRegister == Apply(old(controlRegister), TristateMode(enable))
    {
      ghost var before := controlRegister;
      controlRegister := (controlRegister & !(1 << OUTPUT_TRISTATE_REGISTER))
                         | ((if enable then 1 else 0) << OUTPUT_TRISTATE_REGISTER);
      Record(TristateMode(enable), before);
    }

    method SetOffsetBinaryEncoding(enable: bool)
      requires Valid()
      modifies this`controlRegister, this`setters
      ensures Valid() && trace == old(trace)
      ensures setters == old(setters) + [OffsetBinaryEncoding(enable)]
      ensures controlRegister == Apply(old(controlRegister), OffsetBinaryEncoding(enable))
    {
      ghost var before := controlRegister;
      controlRegister := (controlRegister & !(1 << OFFSET_BINARY_REGISTER))
                         | ((if enable then 1 else 0) << OFFSET_BINARY_REGISTER);
      Record(OffsetBinaryEncoding(enable), before);
    }

    method SetReferenceInputRange(enableCompensation: bool)
      requires Valid()
      modifies this`controlRegister, this`setters
      ensures Valid() && trace == old(trace)
      ensures setters == old(setters) + [ReferenceInputRange(enableCompensation)]
      ensures controlRegister == Apply(old(controlRegister), ReferenceInputRange(enableCompensation))
    {
      ghost var before := controlRegister;
      controlRegister := (controlRegister & !(0xF << LINEARITY_COMPENSATION_REGISTER))
                         | ((if enableCompensation then REFERENCE_RANGE_20V else REFERENCE_RANGE_10V)
                            << LINEARITY_COMPENSATION_REGISTER);
      Record(ReferenceInputRange(enableCompensation), before);
    }

    /** Make chip-select an output and pull it high; make the LDAC pin an
        output and pull it low if there is one. No bus start-up, no reset. */
    method Begin()
      modifies this`trace
      ensures trace == old(trace) + Device.BeginEvents(CS_ACTIVE, ldacPin, false)
      ensures controlRegister == old(controlRegister)
    {
      trace := trace + [CsOutput];
      trace := trace + [Cs(true)];
      if ldacPin >= 0 {
        trace := trace + [LdacOutput];
        trace := trace + [Ldac(false)];
      }
    }
  }
}
