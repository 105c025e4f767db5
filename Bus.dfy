/** What the driver does to the outside world, as an append-only trace of
    events: chip-select and LDAC pin writes, bytes clocked out on SPI, pin
    configuration and bus start-up. A frame goes out as its three bytes, most
    significant first, between a chip-select assert and deassert. */
module Bus {
  import opened Frame

  datatype Event =
    | Cs(level: bool)     // digitalWrite(PIN_CS, level)
    | Ldac(level: bool)   // digitalWrite(PIN_LDAC, level)
    | Byte(b: bv8)        // one spi->transfer(b), the byte sent
    | CsOutput            // pinMode(PIN_CS, OUTPUT)
    | LdacOutput          // pinMode(PIN_LDAC, OUTPUT)
    | SpiBegin            // spi->begin()

  /** The three bytes `writeSPI` sends for a frame: bits 16-23, 8-15 and
      0-7 of it. */
  function FrameBytes(frame: bv32): (bs: seq<bv8>)
    ensures |bs| == 3
  {
    [((frame >> 16) & 0xFF) as bv8, ((frame >> 8) & 0xFF) as bv8, ((frame >> 0) & 0xFF) as bv8]
  }

  /** A frame reassembled from three received bytes, the way `readSPI` builds
      its result: a 24-bit value. */
  function Assemble(bs: seq<bv8>): (frame: bv32)
    requires |bs| == 3
    ensures frame <= FRAME_MASK
  {
    ((bs[0] as bv32) << 16) | ((bs[1] as bv32) << 8) | (bs[2] as bv32)
  }

  /** Sending a frame's bytes and reassembling them gives the frame modulo
      2^24: everything above bit 23 is lost on the bus. */
  lemma BytesRoundTrip(frame: bv32)
    ensures Assemble(FrameBytes(frame)) == frame & FRAME_MASK
  {
  }

  /** And the other way round: three bytes reassembled and split again are
      the same three bytes. */
  lemma AssembleRoundTrip(bs: seq<bv8>)
    requires |bs| == 3
    ensures FrameBytes(Assemble(bs)) == bs
  {
    assert bs == [bs[0], bs[1], bs[2]];
    BytesOfAssembled(bs[0], bs[1], bs[2]);
  }

  /** The byte-level core of AssembleRoundTrip. */
  lemma BytesOfAssembled(a: bv8, b: bv8, c: bv8)
    ensures FrameBytes(Assemble([a, b, c])) == [a, b, c]
  {
  }

  /** One chip-select-bracketed transfer of a frame, with the chip-select
      asserted at `active`. */
  function Transfer(active: bool, frame: bv32): (t: seq<Event>)
    ensures |t| == 5
  {
    var bs := FrameBytes(frame);
    [Cs(active), Byte(bs[0]), Byte(bs[1]), Byte(bs[2]), Cs(!active)]
  }

  /** The frames a chip with chip-select asserted at `active` receives from a
      trace: each assert, three bytes, deassert group is one frame; every
      other event is passed over. */
  function Frames(t: seq<Event>, active: bool): (fs: seq<bv32>)
    ensures forall i :: 0 <= i < |fs| ==> fs[i] <= FRAME_MASK
    decreases |t|
  {
    if t == [] then []
    else if |t| >= 5 && t[0] == Cs(active) && t[1].Byte? && t[2].Byte? && t[3].Byte?
            && t[4] == Cs(!active)
    then [Assemble([t[1].b, t[2].b, t[3].b])] + Frames(t[5..], active)
    else Frames(t[1..], active)
  }

  /** The levels written to the LDAC pin, in order. */
  function LdacLevels(t: seq<Event>): (ls: seq<bool>)
    ensures ls == [] <==> forall i :: 0 <= i < |t| ==> !t[i].Ldac?
    decreases |t|
  {
    if t == [] then []
    else if t[0].Ldac? then [t[0].level] + LdacLevels(t[1..])
    else LdacLevels(t[1..])
  }

  /** A transfer delivers exactly its frame (modulo 2^24) and writes nothing
      to the LDAC pin. */
  lemma {:induction false} FramesOfTransfer(active: bool, frame: bv32, rest: seq<Event>)
    ensures Frames(Transfer(active, frame) + rest, active) == [frame & FRAME_MASK] + Frames(rest, active)
    ensures LdacLevels(Transfer(active, frame) + rest) == LdacLevels(rest)
  {
    var t := Transfer(active, frame) + rest;
    BytesRoundTrip(frame);
    assert [t[1].b, t[2].b, t[3].b] == FrameBytes(frame);
    assert t[5..] == rest;
    assert LdacLevels(t) == LdacLevels(t[1..]);
    assert LdacLevels(t[1..]) == LdacLevels(t[2..]);
    assert LdacLevels(t[2..]) == LdacLevels(t[3..]);
    assert LdacLevels(t[3..]) == LdacLevels(t[4..]);
    assert LdacLevels(t[4..]) == LdacLevels(t[5..]);
  }

  /** Events that never assert chip-select deliver no frame and do not
      disturb the frames that follow them. */
  lemma {:induction false} FramesSkip(t: seq<Event>, u: seq<Event>, active: bool)
    requires forall i :: 0 <= i < |t| ==> t[i] != Cs(active)
    ensures Frames(t + u, active) == Frames(u, active)
    decreases |t|
  {
    if t != [] {
      assert (t + u)[0] == t[0];
      assert (t + u)[1..] == t[1..] + u;
      FramesSkip(t[1..], u, active);
    } else {
      assert t + u == u;
    }
  }

  /** The LDAC levels of two traces, one after the other. */
  lemma {:induction false} LdacLevelsAppend(t: seq<Event>, u: seq<Event>)
    ensures LdacLevels(t + u) == LdacLevels(t) + LdacLevels(u)
    decreases |t|
  {
    if t == [] {
      assert t + u == u;
    } else {
      assert (t + u)[1..] == t[1..] + u;
      LdacLevelsAppend(t[1..], u);
    }
  }

  /** An LDAC write carries no frame. */
  lemma {:induction false} FramesOfLdac(level: bool, active: bool, rest: seq<Event>)
    ensures Frames([Ldac(level)] + rest, active) == Frames(rest, active)
    ensures LdacLevels([Ldac(level)] + rest) == [level] + LdacLevels(rest)
  {
    assert ([Ldac(level)] + rest)[1..] == rest;
  }
}
