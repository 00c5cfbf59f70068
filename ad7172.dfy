/**
 * Register protocol of the AD7172 analog-to-digital converter on a serial (SPI) bus
 * framed by one chip-select line.
 *
 * The bus, the chip-select line and the microsecond delay are modelled together as a
 * `Bus` object that records every event on the wires. What the converter clocks back
 * during a transfer comes from a `Device`: any function of the history of the wires and
 * of the frame clocked out that returns a frame of the same length.
 */
module Ad7172 {
  import opened Bytes
  import opened Wrappers

  /** The converter's registers, each with its fixed address. */
  datatype AdcReg =
    | Status | AdcMode | IfMode | Data | Id
    | FiltCon0 | FiltCon1 | FiltCon2 | FiltCon3
    | Ch0 | Ch1 | Ch2 | Ch3
    | SetupCon0 | SetupCon1 | SetupCon2 | SetupCon3
    | Offset0 | Offset1 | Offset2 | Offset3
    | Gain0 | Gain1 | Gain2 | Gain3

  /** The register's address; every address leaves bit 6, the read flag, clear. */
  function Addr(r: AdcReg): (a: nat)
    ensures a < 0x40
  {
    match r
    case Status => 0x00
    case AdcMode => 0x01
    case IfMode => 0x02
    case Data => 0x04
    case Id => 0x07
    case FiltCon0 => 0x28
    case FiltCon1 => 0x29
    case FiltCon2 => 0x2a
    case FiltCon3 => 0x2b
    case Ch0 => 0x10
    case Ch1 => 0x11
    case Ch2 => 0x12
    case Ch3 => 0x13
    case SetupCon0 => 0x20
    case SetupCon1 => 0x21
    case SetupCon2 => 0x22
    case SetupCon3 => 0x23
    case Offset0 => 0x30
    case Offset1 => 0x31
    case Offset2 => 0x32
    case Offset3 => 0x33
    case Gain0 => 0x38
    case Gain1 => 0x39
    case Gain2 => 0x3a
    case Gain3 => 0x3b
  }

  /** The first byte of a read: the address with the read flag 0x40 set. */
  function ReadFlag(r: AdcReg): (b: byte)
    ensures b == Addr(r) + 0x40
  {
    Pow2Values();
    OrDisjoint(Addr(r), 1, 6);
    BitOr(Addr(r), 0x40)
  }

  /** A read command byte is never the address byte of a write. */
  lemma ReadFlagIsNoAddress(r: AdcReg, r': AdcReg)
    ensures ReadFlag(r) != Addr(r')
  {
  }

  // SETUPCON bit fields used by the channel set-up.
  const UNIPOLAR: nat := 0         // 0 << 12
  const REFBUFP: nat := 0x800      // 1 << 11
  const REFBUFN: nat := 0x400      // 1 << 10
  const AINBUFP: nat := 0x200      // 1 << 9
  const AINBUFN: nat := 0x100      // 1 << 8
  const EXTREF: nat := 0           // 0b00 << 4

  /** The reference-select field of a SETUPCON word: the two bits 5:4. */
  function RefSel(word: nat): (f: nat)
    ensures f < 4
  {
    word / 16 % 4
  }

  /** A word that sets no bit outside the reference-select field. */
  predicate OnlyRefSel(word: nat) {
    word == RefSel(word) * 16
  }

  /** The internal and diagnostic reference selections as written: decimal 10 and 11, shifted by four. */
  const INTREF_AS_WRITTEN: nat := 10 * 16
  const DIAREF_AS_WRITTEN: nat := 11 * 16

  /** The same selections as the field's binary codes 0b10 and 0b11, shifted by four. */
  const INTREF: nat := 0x20
  const DIAREF: nat := 0x30

  /**
   * As written, the two constants do land the intended code in bits 5:4, but they also
   * set bit 7, outside the reference-select field.
   */
  lemma RefSelAsWritten()
    ensures RefSel(INTREF_AS_WRITTEN) == 2 && RefSel(DIAREF_AS_WRITTEN) == 3
    ensures INTREF_AS_WRITTEN / 128 % 2 == 1 && DIAREF_AS_WRITTEN / 128 % 2 == 1
    ensures !OnlyRefSel(INTREF_AS_WRITTEN) && !OnlyRefSel(DIAREF_AS_WRITTEN)
  {
  }

  /** The three reference selections set only bits 5:4, each to its own code. */
  lemma RefSelCodes()
    ensures OnlyRefSel(EXTREF) && OnlyRefSel(INTREF) && OnlyRefSel(DIAREF)
    ensures RefSel(EXTREF) == 0 && RefSel(INTREF) == 2 && RefSel(DIAREF) == 3
  {
  }

  /** Unipolar input, buffered reference and analog inputs, external reference. */
  const SETUPCON: nat := 0x0F00

  /** Sinc5+sinc1 filter, enhanced 50/60 Hz rejection at 16 samples/s, output data rate code 0b10011. */
  const FILTCON: nat := 0x0E13

  /** The set-up word is the OR of its bit fields. */
  lemma SetupconWord()
    ensures BitOr(BitOr(BitOr(BitOr(BitOr(UNIPOLAR, REFBUFP), REFBUFN), AINBUFP), AINBUFN), EXTREF) == SETUPCON
    ensures REFBUFP == Pow2(11) && REFBUFN == Pow2(10) && AINBUFP == Pow2(9) && AINBUFN == Pow2(8)
  {
    Pow2Values();
    assert Pow2(9) == 0x200 && Pow2(10) == 0x400 && Pow2(11) == 0x800;
    OrLowBit(0x800, 1, 10);
    OrLowBit(0xC00, 3, 9);
    OrLowBit(0xE00, 7, 8);
  }

  /** The filter word is `0b110 << 8 | 1 << 11 | 0b10011`. */
  lemma FiltconWord()
    ensures BitOr(BitOr(0x6 * Pow2(8), Pow2(11)), 0x13) == FILTCON
  {
    Pow2Values();
    assert Pow2(5) == 0x20 && Pow2(11) == 0x800;
    OrDisjoint(0x600, 1, 11);
    OrCommutes(0xE00, 0x13);
    OrDisjoint(0x13, 0x70, 5);
  }

  datatype Error = AdcId

  /** What an observer of the wires sees. */
  datatype Event =
    | CsLow
    | CsHigh
    | Transfer(out: seq<byte>)
    | Write(out: seq<byte>)
    | DelayUs(us: nat)

  /** The converter's answers: for the events so far and the frame clocked out, the frame clocked in. */
  type Device = f: (seq<Event>, seq<byte>) -> seq<byte> | forall h, out :: |f(h, out)| == |out|
    witness (h: seq<Event>, out: seq<byte>) => out

  /** The SPI bus, the chip-select line and the delay source the driver is given. */
  class Bus {
    var csHigh: bool
    var trace: seq<Event>
    const device: Device

    constructor (device: Device, csHigh: bool)
      ensures this.device == device && this.csHigh == csHigh && trace == []
    {
      this.device := device;
      this.csHigh := csHigh;
      trace := [];
    }

    method SetLow()
      modifies this
      ensures !csHigh && trace == old(trace) + [CsLow]
    {
      csHigh := false;
      trace := trace + [CsLow];
    }

    method SetHigh()
      modifies this
      ensures csHigh && trace == old(trace) + [CsHigh]
    {
      csHigh := true;
      trace := trace + [CsHigh];
    }

    /** Full-duplex transfer on `buf[from..]`: clocks those bytes out and overwrites them with what came back. */
    method Transfer(buf: array<byte>, from: nat)
      requires from <= buf.Length
      modifies this, buf
      ensures buf[..from] == old(buf[..from])
      ensures buf[from..] == device(old(trace), old(buf[from..]))
      ensures csHigh == old(csHigh) && trace == old(trace) + [Event.Transfer(old(buf[from..]))]
    {
      var back := device(trace, buf[from..]);
      trace := trace + [Event.Transfer(buf[from..])];
      forall i | from <= i < buf.Length {
        buf[i] := back[i - from];
      }
    }

    method Write(out: seq<byte>)
      modifies this
      ensures csHigh == old(csHigh) && trace == old(trace) + [Event.Write(out)]
    {
      trace := trace + [Event.Write(out)];
    }

    method DelayUs(us: nat)
      modifies this
      ensures csHigh == old(csHigh) && trace == old(trace) + [Event.DelayUs(us)]
    {
      trace := trace + [Event.DelayUs(us)];
    }
  }

  function Zeros(n: nat): (z: seq<byte>)
    ensures |z| == n && forall i | 0 <= i < n :: z[i] == 0
  {
    seq(n, _ => 0)
  }

  /** The frame a read of `size` bytes clocks out: the flagged address, then `size` zero bytes. */
  function ReadFrame(r: AdcReg, size: nat): (f: seq<byte>)
    ensures |f| == size + 1 && f[0] == Addr(r) + 0x40
    ensures forall i | 1 <= i < |f| :: f[i] == 0
  {
    [ReadFlag(r)] + Zeros(size)
  }

  /** The register value a read returns: the last `size` bytes clocked in, big-endian. */
  function ReadValue(back: seq<byte>, size: nat): (v: nat)
    requires size <= |back|
    ensures v < Pow2(8 * size)
    ensures v == BeValue(back) % Pow2(8 * size)
  {
    BeSuffix(back, size);
    BeValue(back[|back| - size..])
  }

  /** What a read makes of its eight-byte buffer: the big-endian value masked to `size` bytes, as a `u32`. */
  function ReadWord(buf: seq<byte>, size: nat): (v: nat)
    requires size <= 4 && |buf| == 8
    ensures v == ReadValue(buf[7 - size..], size) && v < Pow2(8 * size)
  {
    var data := BitAnd(BeValue(buf), Pow2(8 * size) - 1);
    MaskedRead(buf, buf[7 - size..], size, data);
    ModFits(data, U32_LIMIT);
    data % U32_LIMIT
  }

  /** Masking the whole eight-byte buffer of a read yields the register value of the bytes clocked in. */
  lemma MaskedRead(buf: seq<byte>, back: seq<byte>, size: nat, data: nat)
    requires size <= 4 && |buf| == 8 && |back| == size + 1 && buf[7 - size..] == back
    requires data == BitAnd(BeValue(buf), Pow2(8 * size) - 1)
    ensures data == ReadValue(back, size) && data < U32_LIMIT
  {
    ByteMask(BeValue(buf), size);
    TailOfTail(buf, back, size);
    SameSuffix(buf, back, size);
    Pow2Bytes(size);
  }

  lemma TailOfTail(buf: seq<byte>, back: seq<byte>, size: nat)
    requires size <= 4 && |buf| == 8 && |back| == size + 1 && buf[7 - size..] == back
    ensures buf[|buf| - size..] == back[|back| - size..]
  {
    assert buf[8 - size..] == buf[7 - size..][1..];
  }

  /** The value a read returns depends only on the bytes clocked back in. */
  lemma ReadWordOfFrame(buf: seq<byte>, back: seq<byte>, size: nat)
    requires size <= 4 && |buf| == 8 && buf[7 - size..] == back
    ensures ReadWord(buf, size) == ReadValue(back, size)
  {
  }

  /** The buffer of a read, once the flagged address is in place, holds the read frame from `7 - size` on. */
  lemma ReadBuffer(buf: seq<byte>, r: AdcReg, size: nat)
    requires size <= 4 && buf == [0, 0, 0, 0, 0, 0, 0, 0][7 - size := ReadFlag(r)]
    ensures buf[7 - size..] == ReadFrame(r, size)
  {
  }

  /** The buffer of a write, once the address is in place, holds the write frame from `3 - size` on. */
  lemma WriteBuffer(buf: seq<byte>, bytes: seq<byte>, r: AdcReg, size: nat, data: nat)
    requires size <= 3 && data < U32_LIMIT && bytes == ToBeBytes(data)
    requires |buf| == 4 && buf == bytes[3 - size := Addr(r)]
    ensures buf[3 - size..] == WriteFrame(r, size, data)
  {
  }

  /** The frame a write of `size` bytes clocks out: the address, then the low `size` bytes of `data`, big-endian. */
  function WriteFrame(r: AdcReg, size: nat, data: nat): (f: seq<byte>)
    requires size <= 3 && data < U32_LIMIT
    ensures |f| == size + 1 && f[0] == Addr(r)
    ensures BeValue(f[1..]) == data % Pow2(8 * size)
  {
    var bytes := ToBeBytes(data);
    var f := bytes[3 - size := Addr(r)][3 - size..];
    BeSuffix(bytes, size);
    assert f[1..] == bytes[4 - size..];
    f
  }

  /** Decoding the frame of a write the way a read decodes its response gives back the truncated data. */
  lemma WriteFrameDecodes(r: AdcReg, size: nat, data: nat)
    requires size <= 3 && data < U32_LIMIT
    ensures ReadValue(WriteFrame(r, size, data), size) == data % Pow2(8 * size)
  {
    var f := WriteFrame(r, size, data);
    assert f[|f| - size..] == f[1..];
  }

  /** A DATA word splits into the 24-bit conversion result and the 8-bit channel tag. */
  function SplitData(raw: nat): (d: (nat, byte))
    requires raw < U32_LIMIT
    ensures d.0 < Pow2(24) && d.0 * 256 + d.1 == raw
  {
    Pow2Values();
    LowMask(raw, 8);
    (raw / 256, BitAnd(raw, 0xff))
  }

  /** The identity check: the low byte's high nibble must read 0xD. */
  predicate IdMatches(id: nat): (ok: bool)
    ensures ok <==> id / 16 % 16 == 0xd
  {
    IdNibble(id);
    BitAnd(id, 0xf0) == 0xd0
  }

  /** Masking with 0xf0 keeps exactly bits 7:4. */
  lemma IdNibble(id: nat)
    ensures BitAnd(id, 0xf0) == 16 * (id / 16 % 16)
  {
    calc {
      BitAnd(id, 0xf0);
      { AndEven(id, 0xf0); }
      2 * BitAnd(id / 2, 0x78);
      { AndEven(id / 2, 0x78); }
      4 * BitAnd(id / 2 / 2, 0x3c);
      { Quarter(id); }
      4 * BitAnd(id / 4, 0x3c);
      { AndEven(id / 4, 0x3c); }
      8 * BitAnd(id / 4 / 2, 0x1e);
      { AndEven(id / 4 / 2, 0x1e); }
      16 * BitAnd(id / 4 / 2 / 2, 0xf);
      { Quarter(id / 4); Sixteenth(id); }
      16 * BitAnd(id / 16, 0xf);
      { Pow2Values(); LowMask(id / 16, 4); }
      16 * (id / 16 % 16);
    }
  }

  lemma ForeignIdRejected()
    ensures !IdMatches(0x00A0)
  {
  }

  function ReadEvents(r: AdcReg, size: nat): seq<Event> {
    [CsLow, Event.Transfer(ReadFrame(r, size)), CsHigh]
  }

  function WriteEvents(r: AdcReg, size: nat, data: nat): seq<Event>
    requires size <= 3 && data < U32_LIMIT
  {
    [CsLow, Event.Write(WriteFrame(r, size, data)), CsHigh]
  }

  /** 64 clock cycles with the data line high, inside one chip-select window. */
  function ResetEvents(): seq<Event> {
    [CsLow, Event.Transfer(seq(8, _ => 0xFF)), CsHigh]
  }

  /** The wires after the channel set-up, when they had seen `h` before. */
  function SetupTrace(h: seq<Event>): seq<Event> {
    h + WriteEvents(Ch0, 2, 0x8001) + WriteEvents(Ch1, 2, 0x9043)
    + WriteEvents(SetupCon0, 2, SETUPCON) + WriteEvents(SetupCon1, 2, SETUPCON)
    + WriteEvents(FiltCon0, 2, FILTCON) + WriteEvents(FiltCon1, 2, FILTCON)
  }

  /** The wires after bring-up has reset the interface and read the identity. */
  function ProbeTrace(h: seq<Event>): seq<Event> {
    h + [CsHigh] + ResetEvents() + [Event.DelayUs(5000)] + ReadEvents(Id, 2)
  }

  /** The wires after bring-up has configured a converter whose identity matched. */
  function ConfigTrace(h: seq<Event>): seq<Event> {
    SetupTrace(h + WriteEvents(AdcMode, 2, 0x8008) + WriteEvents(IfMode, 2, 0x40))
  }

  /** The identity the converter reports to bring-up, when the wires had seen `h` before. */
  function ProbedId(device: Device, h: seq<Event>): nat {
    var before := h + [CsHigh] + ResetEvents() + [Event.DelayUs(5000)];
    ReadValue(device(before + [CsLow], ReadFrame(Id, 2)), 2)
  }

  /** `u64::from_be_bytes(buf) & mask` on a read's buffer: the register value of the bytes clocked back in. */
  method Decode(buf: seq<byte>, size: nat, ghost back: seq<byte>) returns (v: nat)
    requires size <= 4 && |buf| == 8 && buf[7 - size..] == back
    ensures v == ReadValue(back, size)
  {
    v := ReadWord(buf, size);
    ReadWordOfFrame(buf, back, size);
  }

  /** A local byte buffer holding `contents`, like an array literal on the stack. */
  method NewBuffer(contents: seq<byte>) returns (buf: array<byte>)
    ensures fresh(buf) && buf[..] == contents
  {
    buf := new byte[|contents|](i requires 0 <= i < |contents| => contents[i]);
  }

  class Ad7172 {
    const bus: Bus

    constructor Wrap(bus: Bus)
      ensures this.bus == bus
    {
      this.bus := bus;
    }

    /** Resets the chip-select line high, resets the interface, checks the identity and configures the converter. */
    static method New(bus: Bus) returns (r: Result<Ad7172, Error>)
      modifies bus
      ensures bus.csHigh
      ensures r.Ok? <==> IdMatches(ProbedId(bus.device, old(bus.trace)))
      ensures r.Err? ==> r.error == AdcId && bus.trace == ProbeTrace(old(bus.trace))
      ensures r.Ok? ==> r.value.bus == bus && bus.trace == ConfigTrace(ProbeTrace(old(bus.trace)))
    {
      ghost var h := bus.trace;
      bus.SetHigh();
      var adc := new Ad7172.Wrap(bus);
      adc.Reset();
      bus.DelayUs(5000);
      var id := adc.Read(Id, 2);
      assert bus.trace == ProbeTrace(h);
      assert id == ProbedId(bus.device, h);
      if !IdMatches(id) {
        return Err(AdcId);
      }
      adc.Write(AdcMode, 2, 0x8008);
      adc.Write(IfMode, 2, 0x40);
      adc.SetupChannels();
      r := Ok(adc);
    }

    method Reset()
      modifies bus
      ensures bus.csHigh && bus.trace == old(bus.trace) + ResetEvents()
    {
      var buf := NewBuffer(seq(8, _ => 0xFF));
      bus.SetLow();
      bus.Transfer(buf, 0);
      bus.SetHigh();
    }

    /** Reads a register of `size` bytes (at most four). */
    method Read(r: AdcReg, size: nat) returns (v: nat)
      requires size <= 4
      modifies bus
      ensures bus.csHigh && bus.trace == old(bus.trace) + ReadEvents(r, size)
      ensures v == ReadValue(bus.device(old(bus.trace) + [CsLow], ReadFrame(r, size)), size)
    {
      var buf := ReadTransfer(r, size);
      v := Decode(buf[..], size, bus.device(old(bus.trace) + [CsLow], ReadFrame(r, size)));
    }

    /**
     * The bus part of a read: the eight-byte buffer with the flagged address at `7 - size`,
     * clocked out from there inside one chip-select window and overwritten with the answer.
     */
    method ReadTransfer(r: AdcReg, size: nat) returns (buf: array<byte>)
      requires size <= 4
      modifies bus
      ensures fresh(buf) && buf.Length == 8
      ensures buf[7 - size..] == bus.device(old(bus.trace) + [CsLow], ReadFrame(r, size))
      ensures bus.csHigh && bus.trace == old(bus.trace) + ReadEvents(r, size)
    {
      ghost var h := bus.trace;
      buf := NewBuffer([0, 0, 0, 0, 0, 0, 0, 0][7 - size := ReadFlag(r)]);
      ReadBuffer(buf[..], r, size);
      bus.SetLow();
      bus.Transfer(buf, 7 - size);
      bus.SetHigh();
      assert bus.trace == h + ReadEvents(r, size);
    }

    /** Writes the low `size` bytes (at most three) of `data` to a register. */
    method Write(r: AdcReg, size: nat, data: nat)
      requires size <= 3 && data < U32_LIMIT
      modifies bus
      ensures bus.csHigh && bus.trace == old(bus.trace) + WriteEvents(r, size, data)
    {
      ghost var frame := WriteFrame(r, size, data);
      var buf := NewBuffer(ToBeBytes(data));
      buf[3 - size] := Addr(r);
      WriteBuffer(buf[..], ToBeBytes(data), r, size, data);
      bus.SetLow();
      bus.Write(buf[3 - size..]);
      bus.SetHigh();
    }

    /** Reads the DATA register: the conversion result and the tag of the channel that produced it. */
    method ReadData() returns (data: nat, ch: byte)
      modifies bus
      ensures bus.csHigh && bus.trace == old(bus.trace) + ReadEvents(Data, 4)
      ensures var raw := ReadValue(bus.device(old(bus.trace) + [CsLow], ReadFrame(Data, 4)), 4);
              data < Pow2(24) && data * 256 + ch == raw
    {
      var raw := Read(Data, 4);
      Pow2Values();
      var split := SplitData(raw);
      data, ch := split.0, split.1;
    }

    /** Enables channels 0 and 1 and writes both set-up and both filter registers. */
    method SetupChannels()
      modifies bus
      ensures bus.csHigh && bus.trace == SetupTrace(old(bus.trace))
    {
      Write(Ch0, 2, 0x8001);
      Write(Ch1, 2, 0x9043);
      Write(SetupCon0, 2, SETUPCON);
      Write(SetupCon1, 2, SETUPCON);
      Write(FiltCon0, 2, FILTCON);
      Write(FiltCon1, 2, FILTCON);
    }
  }

  /** A converter that reports identity 0x00A0 is refused, and nothing is written to it. */
  method ForeignIdScenario() returns (r: Result<Ad7172, Error>, trace: seq<Event>)
    ensures r == Err(AdcId)
    ensures trace == ProbeTrace([])
  {
    var device: Device := (h: seq<Event>, out: seq<byte>) =>
      if |out| == 3 then [0, 0x00, 0xA0] else out;
    var bus := new Bus(device, false);
    assert ProbedId(device, []) == 0xA0 by {
      assert [0, 0x00, 0xA0][1..] == [0x00, 0xA0];
      assert BeValue([0x00, 0xA0]) == 0xA0 by {
        assert [0x00, 0xA0][..1] == [0x00];
        assert [0x00][..0] == [];
      }
    }
    ForeignIdRejected();
    r := Ad7172.New(bus);
    trace := bus.trace;
  }
}
