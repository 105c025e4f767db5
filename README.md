# AD5781 / AD5791 DAC driver, modelled in Dafny

The Arduino driver for the Analog Devices AD5781 (18-bit) and AD5791 (20-bit)
digital-to-analog converters talks to the chip in 24-bit SPI frames. Each
frame has a read/write flag in bit 23, a 3-bit register address in bits
20-22 and a 20-bit payload. The driver keeps a cached image of the chip's
control register and changes it with five field setters. It commits a
written value either by pulsing the LDAC pin or by sending a software
"load" frame.

This project models both versions of the driver:

- the current one in `src/`: a class `AD57X1` with the named constructors
  `AD5781` (value offset 2) and `AD5791` (value offset 0);
- the legacy, AD5781-only one at the repository root.

Modules:

- `Registers`: the current register map, the default control image and the
  construction defaults.
- `Control`: the control image and its setters, as values.
  - `Apply` is one setter call; `ApplyAll` is a sequence of them.
  - It proves what each setter does to its own field and to every other bit,
    that the last of two calls wins, and that the image stays inside bits
    1-4, 8 and 9 (`Reachable`).
- `Frame`: the frame builders, with `Decode` as the reference that takes a
  frame apart.
  - The payload is shifted by the variant's offset, then masked to 20 bits.
  - The readback is shifted back without a mask.
- `Bus`: the pins and the bus as an append-only trace of events.
  - The events are chip-select writes, LDAC writes, bytes sent, pin set-up
    and bus start-up.
  - `Frames` decodes the frames a chip receives from a trace.
  - `LdacLevels` lists the levels written to LDAC.
- `Device`: the current driver as class `AD57X1`.
  - It holds `controlRegister`, `trace` and a ghost history of setter calls.
  - Every method's `ensures` gives the new trace and image in terms of the
    `Bus`, `Frame` and `Control` functions.
  - Lemmas say which frames and LDAC levels each operation produces.
- `LegacyRegisters`, `LegacyDevice`: the legacy driver as class `AD5781`.
  - Chip-select is fixed active-low and the offset is fixed at 2.
  - `setValue` always sends the load frame.
  - `enableOutput` also disables the amplifier buffer, selects two's
    complement and sets the range from the reference voltage.
  - Lemmas compare it with the current driver: `setValue` is bit-identical
    without an LDAC pin and diverges with one, and the reset frames differ.

Bytes received on the bus are an input to the model: `reply`, three bytes,
for every read.

## Model

| member | source | states |
|---|---|---|
| Registers.FrameLayout | src/ad57X1.h:45-67 | Write flag 0, read flag bit 23; addresses 1-4 in bits 20-22, pairwise distinct, clear of payload and flag |
| Registers.ControlFieldLayout | src/ad57X1.h:53-68 | Field positions 1-5 and 6-9 are disjoint; both range codes fit 4 bits; load bit is bit 0; load frame 0x400001 |
| Registers.DefaultControlImage | src/ad57X1.h:76-82 | Default image is 0x1E: bits 1-4 set (so bit 4 selects offset binary), SDO-disable clear, range field 0b0000 |
| Control.Apply | src/ad57X1.cpp:92-126 | The value model of the five setters: one read-modify-write of the setter's own field. It has no contract of its own; its meaning is stated by the `*Field` lemmas below |
| Control.InternalAmplifierField | src/ad57X1.cpp:92-96 | `setInternalAmplifier(e)` sets bit 1 to `!e` and leaves every other bit unchanged |
| Control.InternalAmplifierLastWriteWins | src/ad57X1.cpp:92-96 | Two calls equal the second call alone (idempotent, last write wins) |
| Control.OutputClampField | src/ad57X1.cpp:99-103 | `setOutputClamp(e)` sets bit 2 to `e`, every other bit unchanged |
| Control.OutputClampLastWriteWins | src/ad57X1.cpp:99-103 | Two calls equal the second call alone |
| Control.TristateModeField | src/ad57X1.cpp:105-109 | `setTristateMode(e)` sets bit 3 to `e`, every other bit unchanged |
| Control.TristateModeLastWriteWins | src/ad57X1.cpp:105-109 | Two calls equal the second call alone |
| Control.OffsetBinaryEncodingField | src/ad57X1.cpp:111-115 | `setOffsetBinaryEncoding(e)` sets bit 4 to `e`, every other bit unchanged |
| Control.OffsetBinaryEncodingLastWriteWins | src/ad57X1.cpp:111-115 | Two calls equal the second call alone |
| Control.ReferenceInputRangeField | src/ad57X1.cpp:122-126 | Bits 6-9 become 0b1100 (true) or 0b0000 (false); every other bit unchanged |
| Control.ReferenceInputRangeLastWriteWins | src/ad57X1.cpp:122-126 | Two calls equal the second call alone |
| Control.ApplyKeepsReachable | src/ad57X1.cpp:92-126 | No setter sets a bit outside 0x31E |
| Control.ApplyAllKeepsReachable | src/ad57X1.cpp:92-126 | From a reachable image, any sequence of setters gives `image & ~0x31E == 0` |
| Control.ReachableFitsPayload | src/ad57X1.cpp:52-54 | A reachable image is below 2^20, so the control frame keeps address 0b010 in bits 20-23 and carries the image as its payload |
| Control.DefaultIsReachable | src/ad57X1.h:76-82 | The default is reachable, and each setter called with the value the initializer gives its field leaves it unchanged |
| Frame.Decode | src/ad57X1.h:45-67 | Splits a frame into a flag, an address of at most 3 bits and a payload of at most 20 bits |
| Frame.DecodeRebuilds | src/ad57X1.h:45-67 | The flag, address and payload of a 24-bit frame rebuild it: nothing is lost |
| Frame.Payload | src/ad57X1.cpp:68 | The shifted, masked value is below 2^20 |
| Frame.DacCommand | src/ad57X1.cpp:68 | `setValue`'s frame is a 24-bit write to address 1 whose payload is the shifted, masked value |
| Frame.ClearCodeCommand | src/ad57X1.cpp:57 | `setClearCodeValue`'s frame is a write to address 3 with the same payload |
| Frame.ControlCommand | src/ad57X1.cpp:53 | For an image below 2^20 the control frame is a write to address 2 carrying the image |
| Frame.ReadCommand | src/ad57X1.cpp:81 | A read request carries the read flag, the register's address and a zero payload |
| Frame.LoadCommandIs | src/ad57X1.cpp:76 | The software load frame is 0x400001: a write to address 4 with payload 1 |
| Frame.PayloadKeepsLowBits | src/ad57X1.cpp:68 | For offsets up to 20 the payload is the low `20 - offset` bits of the value, moved up by the offset |
| Frame.PayloadDependsOnLowBits | src/ad57X1.cpp:67-70 | Values equal modulo 2^(20 - offset) give the same DAC frame |
| Frame.AD5781Payload | src/ad57X1.h:88 | With the AD5781's offset 2, the payload is `(v & 0x3FFFF) << 2` |
| Frame.AD5791Payload | src/ad57X1.h:93 | With the AD5791's offset 0, the payload is `v & 0xFFFFF` |
| Frame.ReadbackValue | src/ad57X1.cpp:82 | The low `20 - offset` bits of the result are the raw payload shifted down by the offset |
| Frame.ReadbackRoundTrip | src/ad57X1.cpp:80-84 | If the reply's payload is what `setValue(v)` wrote, `readValue` returns `v` in its low `20 - offset` bits |
| Frame.ReadbackKeepsEcho | src/ad57X1.cpp:82 | Unmasked: bits 20-23 of the reply reappear in `readValue`'s result from bit `20 - offset` up |
| Bus.FrameBytes | src/ad57X1.cpp:30-32 | A frame goes out as exactly three bytes |
| Bus.Assemble | src/ad57X1.cpp:43-45 | Three received bytes assemble into a value below 2^24 |
| Bus.BytesRoundTrip | src/ad57X1.cpp:26-50 | Reassembling a frame's three bytes gives the frame modulo 2^24 |
| Bus.AssembleRoundTrip | src/ad57X1.cpp:43-45 | Splitting an assembled value gives back the three bytes |
| Bus.Transfer | src/ad57X1.cpp:26-36 | One chip-select-bracketed transfer is five events |
| Bus.Frames | src/ad57X1.cpp:26-36 | Every frame decoded from a trace is below 2^24 |
| Bus.LdacLevels | src/ad57X1.cpp:72-77 | The list of LDAC levels is empty exactly when the trace has no LDAC write |
| Bus.FramesOfTransfer | src/ad57X1.cpp:26-36 | A transfer delivers exactly its frame modulo 2^24 and writes nothing to LDAC |
| Bus.FramesSkip | src/ad57X1.cpp:134-146 | Events that never assert chip-select deliver no frame and leave the frames of whatever follows unchanged |
| Bus.FramesOfLdac | src/ad57X1.cpp:73-74 | An LDAC write carries no frame and records its level |
| Device.ReadEvents | src/ad57X1.cpp:38-50 | `readSPI`'s events: ten, ending with the zero transfer, with no LDAC write |
| Device.CommitEvents | src/ad57X1.cpp:72-77 | The commit pulses LDAC exactly when a pin is configured, and asserts chip-select (the load frame) exactly when none is |
| Device.SetValueEvents | src/ad57X1.cpp:67-78 | `setValue`'s events: the DAC transfer first; seven events with an LDAC pin, ten without |
| Device.BeginEvents | src/ad57X1.cpp:134-146 | `begin`'s events: chip-select made an output and deasserted first; chip-select never asserted; bus start-up exactly when asked; LDAC set up exactly when a pin is configured |
| Device.SetValueFrames | src/ad57X1.cpp:67-78 | With an LDAC pin: one DAC frame, then LDAC high, then low. Without one: the DAC frame, then 0x400001, and no LDAC write |
| Device.PulseCommit | src/ad57X1.cpp:72-74 | A frame followed by the pulse gives that frame and LDAC levels high, low |
| Device.SoftwareCommit | src/ad57X1.cpp:75-77 | A frame followed by the load frame gives both frames and no LDAC level |
| Device.ClearCodeSendsOneFrame | src/ad57X1.cpp:56-60 | `setClearCodeValue` sends exactly one frame, no LDAC write, and that frame is not the load frame |
| Device.SingleTransfer | src/ad57X1.cpp:26-36 | A lone transfer of a 24-bit frame delivers that frame alone |
| Device.ReadFrames | src/ad57X1.cpp:38-50 | A read sends the command frame, then a zero frame, and no LDAC write |
| Device.BeginSendsNoFrame | src/ad57X1.cpp:134-146 | `begin` sends no frame, deasserts and never asserts chip-select, and writes LDAC low exactly when a pin is configured |
| Device.BeginLdacLevels | src/ad57X1.cpp:138-141 | `begin` writes LDAC low once with a pin and not at all without |
| Device.BeginThenFrames | src/ad57X1.cpp:134-146 | Whatever follows `begin` delivers exactly the frames it delivers alone, and LDAC sees `begin`'s low level first |
| Device.BeginRangeUpdate | src/ad57X1.cpp:122-146 | From power-on, `begin()`, `setReferenceInputRange(true)` and `updateControlRegister()` deliver exactly one frame, 0x20031E |
| Device.BeginTailQuiet | src/ad57X1.cpp:138-145 | The LDAC set-up and bus start-up write no chip-select and LDAC low once if there is a pin |
| Device.EnableOutputImage | src/ad57X1.cpp:86-90 | `enableOutput` clears bits 2 and 3 and keeps every other bit |
| Device.AD57X1.constructor | src/ad57X1.cpp:18-24 | Keeps offset, pins, polarity and clock; image is the default, trace empty |
| Device.AD57X1.AD5781 | src/ad57X1.h:88 | Offset 2; defaults 1 MHz, LDAC pin -1, chip-select active high |
| Device.AD57X1.AD5791 | src/ad57X1.h:93 | Offset 0; the same defaults |
| Device.AD57X1.WriteSpi | src/ad57X1.cpp:26-36 | Appends chip-select asserted, the three MSB-first bytes, chip-select deasserted |
| Device.AD57X1.ReadSpi | src/ad57X1.cpp:38-50 | Appends the command transfer and a zero transfer; returns the reply assembled |
| Device.AD57X1.UpdateControlRegister | src/ad57X1.cpp:52-54 | Appends one control frame that decodes to a write of the image to address 2 |
| Device.AD57X1.SetClearCodeValue | src/ad57X1.cpp:56-60 | Appends one transfer of the clear-code frame; no commit |
| Device.AD57X1.Reset | src/ad57X1.cpp:62-64 | Same new state and trace as `enableOutput` |
| Device.AD57X1.SetValue | src/ad57X1.cpp:67-78 | Appends the DAC transfer, then the LDAC pulse or the load transfer |
| Device.AD57X1.ReadValue | src/ad57X1.cpp:80-84 | Appends a read of the DAC register; returns the reply shifted down by the offset |
| Device.AD57X1.EnableOutput | src/ad57X1.cpp:86-90 | Clears clamp and tristate, keeps the invariant, appends one control frame of the new image |
| Device.AD57X1.SetInternalAmplifier | src/ad57X1.cpp:92-96 | Image becomes `Apply(old, InternalAmplifier(e))`; trace unchanged; invariant kept |
| Device.AD57X1.SetOutputClamp | src/ad57X1.cpp:99-103 | Image becomes `Apply(old, OutputClamp(e))`; trace unchanged; invariant kept |
| Device.AD57X1.SetTristateMode | src/ad57X1.cpp:105-109 | Image becomes `Apply(old, TristateMode(e))`; trace unchanged; invariant kept |
| Device.AD57X1.SetOffsetBinaryEncoding | src/ad57X1.cpp:111-115 | Image becomes `Apply(old, OffsetBinaryEncoding(e))`; trace unchanged; invariant kept |
| Device.AD57X1.SetReferenceInputRange | src/ad57X1.cpp:122-126 | Image becomes `Apply(old, ReferenceInputRange(e))`; trace unchanged; invariant kept |
| Device.AD57X1.ReadControlRegister | src/ad57X1.cpp:128-132 | Appends a read of the control register; returns the reply unshifted; the cached image is unchanged |
| Device.AD57X1.Begin | src/ad57X1.cpp:134-146 | Appends the pin set-up events (and bus start-up if asked); the image is unchanged |
| LegacyRegisters.AgreesWithCurrent | ad57X1.h:42-80 | Every legacy constant equals the current one; fixed offset 2 equals the AD5781's; default image 0x1E |
| LegacyDevice.DacFrame | ad57X1.cpp:54 | The legacy DAC write, built from the legacy constants, equals the current driver's frame for offset 2 |
| LegacyDevice.ControlFrame | ad57X1.cpp:45 | The legacy control write equals the current driver's control frame |
| LegacyDevice.LoadFrame | ad57X1.cpp:57 | The legacy load frame equals the current one, 0x400001 |
| LegacyDevice.EnableSetters | ad57X1.cpp:60-67 | The five setter calls of the legacy `enableOutput`: offset binary switched off, the range chosen by the reference, clamp and tristate never switched on |
| LegacyDevice.SetValueEvents | ad57X1.cpp:53-58 | The legacy `setValue`'s events: two transfers, ten events, no LDAC write |
| LegacyDevice.SetValueFrames | ad57X1.cpp:53-58 | The legacy `setValue` sends the DAC frame (offset 2), then 0x400001, and never writes LDAC |
| LegacyDevice.SetValueMatchesCurrent | ad57X1.cpp:53-58 | Same events as a current `AD5781` with active-low chip-select and no LDAC pin |
| LegacyDevice.SetValueDivergesWithLdac | ad57X1.cpp:53-58 | With an LDAC pin the current driver pulses it and sends other frames than the legacy one |
| LegacyDevice.AmplifierOff | ad57X1.cpp:71-75 | `setInternalAmplifier(false)` sets bit 1 |
| LegacyDevice.ClampOff | ad57X1.cpp:78-82 | `setOutputClamp(false)` clears bit 2 |
| LegacyDevice.TristateOff | ad57X1.cpp:84-88 | `setTristateMode(false)` clears bit 3 |
| LegacyDevice.OffsetBinaryOff | ad57X1.cpp:90-94 | `setOffsetBinaryEncoding(false)` clears bit 4 |
| LegacyDevice.RangeCode | ad57X1.cpp:101-103 | The range setter puts 0b1100 or 0b0000 into bits 6-9 |
| LegacyDevice.EnableSettersInOrder | ad57X1.cpp:60-67 | The five setter calls of `enableOutput`, applied in source order |
| LegacyDevice.EnableOutputImage | ad57X1.cpp:60-69 | Bit 1 forced to 1, bits 2-4 to 0, bits 6-9 to the range code; every other bit kept |
| LegacyDevice.ResetFrameFromDefault | ad57X1.cpp:60-69 | From the default the legacy reset frame is 0x200002 or 0x200302; the current one is 0x200012 |
| LegacyDevice.AD5781.constructor | ad57X1.cpp:20-21 | With an (unsigned) LDAC pin, which is therefore non-negative; default image |
| LegacyDevice.AD5781.WithoutLdac | ad57X1.cpp:23-24 | LDAC pin -1; default image |
| LegacyDevice.AD5781.WriteSpi | ad57X1.cpp:27-42 | Appends chip-select low, the three MSB-first bytes, chip-select high |
| LegacyDevice.AD5781.UpdateControlRegister | ad57X1.cpp:44-46 | Appends one control frame of the image |
| LegacyDevice.AD5781.Reset | ad57X1.cpp:48-50 | Same new state and trace as `enableOutput` |
| LegacyDevice.AD5781.SetValue | ad57X1.cpp:53-58 | Appends the DAC transfer and the load transfer, whatever the LDAC pin |
| LegacyDevice.AD5781.EnableOutput | ad57X1.cpp:60-69 | Image becomes the five legacy setters applied to the old image; invariant kept; one control frame appended |
| LegacyDevice.AD5781.SetInternalAmplifier | ad57X1.cpp:71-75 | Same semantics as the current setter (`Apply`); trace unchanged |
| LegacyDevice.AD5781.SetOutputClamp | ad57X1.cpp:78-82 | Same semantics as the current setter; trace unchanged |
| LegacyDevice.AD5781.SetTristateMode | ad57X1.cpp:84-88 | Same semantics as the current setter; trace unchanged |
| LegacyDevice.AD5781.SetOffsetBinaryEncoding | ad57X1.cpp:90-94 | Same semantics as the current setter; trace unchanged |
| LegacyDevice.AD5781.SetReferenceInputRange | ad57X1.cpp:101-103 | Same semantics as the current setter; trace unchanged |
| LegacyDevice.AD5781.Begin | ad57X1.cpp:105-114 | Chip-select output and high; LDAC output and low only with a pin; no bus start-up; image unchanged |

## Left out

- The driver's comments on the offset-binary setter (src/ad57X1.cpp:113, ad57X1.cpp:92) call two's complement (bit 4 clear) the power-on default. The `controlRegister` initializer (src/ad57X1.h:80, ad57X1.h:78) sets bit 4, selecting offset binary. The model follows the initializer (Registers.DefaultControlImage). As a result the current `enableOutput` sends 0x200012, with offset binary selected. Which of the two the chip actually powers up with is a datasheet question that is not part of this model.
- Control.Apply: it carries no contract of its own. A single `ensures` covering all five setters at once exceeds the solver's resource limit, so the per-setter `*Field` and `*LastWriteWins` lemmas state its meaning instead.
- SPI transactions: `beginTransaction`, `endTransaction` and `SPISettings` (clock, bit order, mode 1) are library calls. They are not in the trace, so the model does not record that the current driver asserts chip-select before opening the transaction while the legacy one does it after.
- Which SPI bus is used: the `SPIClass*` of the current driver and the fixed `SPI1` of the legacy one. The bus is the one trace.
- The SPI clock frequency is kept as a constructor value only.
- Pin hardware: `pinMode` and `digitalWrite` are recorded as trace events, with no electrical meaning.
- The legacy `Serial` debug print in `writeSPI` is I/O.
- The legacy reference voltage is a floating-point number compared with 10.0. The model keeps only the result of that comparison, the boolean `highReference`.
- Legacy compile defects. The legacy header declares constructors without the reference voltage, which the legacy .cpp constructors take. The model follows the .cpp. The header also declares `setClearCodeValue`, but the legacy .cpp never defines it, so the legacy model has no clear-code operation.
- The current driver declares some `constexpr` locals whose values are only known at run time. The model treats them as ordinary constants.
- C++ shifts of 32 or more are undefined, so a value offset is kept below 32 (`ValueOffset`).
- Frame.PayloadKeepsLowBits and Frame.PayloadDependsOnLowBits hold for any offset up to 20. The drivers use only 0 and 2; larger offsets are not constrained further.
