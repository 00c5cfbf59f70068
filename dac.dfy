/**
 * The TEC current DAC: conversion of a current set-point into an 18-bit DAC word
 * (carried left-aligned in a 20-bit code) and the per-channel 24-bit write framed by
 * that channel's sync line.
 *
 * Currents and voltages are real numbers; the conversion's `as i32` cast is an
 * explicit truncation toward zero. The SPI bus and the four sync pins are modelled as
 * the pin levels plus a trace of what happened on the wires.
 */
module Dac {
  import opened Bytes
  import opened Wrappers

  /** TEC current sense resistor, in ohms. */
  const R_SENSE: real := 0.05
  /** TEC driver reference voltage. */
  const VREF_TEC: real := 1.5
  /** One more than the largest DAC code: `1 << 20`. */
  const MAX_DAC_WORD: int := 0x10_0000
  /** DAC reference voltage. */
  const VREF_DAC: real := 3.0
  /** The current that the largest DAC code drives. */
  const MAX_CURRENT: real :=
    (((MAX_DAC_WORD - 1) as real * VREF_DAC) / MAX_DAC_WORD as real - VREF_TEC) / (10.0 * R_SENSE)

  datatype Error = Bounds

  /** A DAC code; every value of this type is in range. */
  type Code = c: int | 0 <= c < MAX_DAC_WORD

  datatype DacCode = DacCode(code: Code)

  /** `x as i32` for a finite value in range: the integer part, rounding toward zero. */
  function Trunc(x: real): (n: int)
    ensures 0.0 <= x ==> n as real <= x < n as real + 1.0
    ensures x < 0.0 ==> n as real - 1.0 < x <= n as real
  {
    if x >= 0.0 then x.Floor else -((-x).Floor)
  }

  lemma TruncMonotone(a: real, b: real)
    requires a <= b
    ensures Trunc(a) <= Trunc(b)
  {
  }

  /** The control voltage the TEC driver needs for `current`. */
  function CtliVoltage(current: real): (v: real)
    ensures v == VREF_TEC + current / 2.0
  {
    current * 10.0 * R_SENSE + VREF_TEC
  }

  /** The exact, unrounded DAC code of the control voltage for `current`. */
  function IdealCode(current: real): (c: real)
    ensures c == (current + 3.0) * (MAX_DAC_WORD as real / 6.0)
  {
    CtliVoltage(current) * (MAX_DAC_WORD as real / VREF_DAC)
  }

  /**
   * Every current at or below `REFUSED_AT_OR_BELOW` is refused, every current at or above
   * `REFUSED_AT_OR_ABOVE` too, and every current strictly between them is accepted.
   */
  const REFUSED_AT_OR_BELOW: real := (-VREF_DAC / MAX_DAC_WORD as real - VREF_TEC) / (10.0 * R_SENSE)
  const REFUSED_AT_OR_ABOVE: real := (VREF_DAC - VREF_TEC) / (10.0 * R_SENSE)

  /**
   * Converts a current into the DAC code, or `Bounds` when the truncated code leaves
   * `[0, 2^20)`. The code is the ideal code truncated toward zero, not rounded.
   */
  function TryFrom(current: real): (r: Result<DacCode, Error>)
    ensures r.Ok? <==> REFUSED_AT_OR_BELOW < current < REFUSED_AT_OR_ABOVE
    ensures r.Ok? ==> r.value.code as real - 1.0 < IdealCode(current) < r.value.code as real + 1.0
    ensures r.Ok? && IdealCode(current) >= 0.0 ==> r.value.code as real <= IdealCode(current)
    ensures r.Ok? && IdealCode(current) < 0.0 ==> r.value.code == 0
  {
    var code := Trunc(IdealCode(current));
    if !(0 <= code < MAX_DAC_WORD) then Err(Bounds) else Ok(DacCode(code))
  }

  /** Zero current is half scale, 2^19. */
  lemma ZeroCurrentIsHalfScale()
    ensures TryFrom(0.0) == Ok(DacCode(0x8_0000))
  {
    assert IdealCode(0.0) == 0x8_0000 as real;
  }

  /** A larger current never gets a smaller code. */
  lemma TryFromMonotone(a: real, b: real)
    requires a <= b && TryFrom(a).Ok? && TryFrom(b).Ok?
    ensures TryFrom(a).value.code <= TryFrom(b).value.code
  {
    assert IdealCode(a) <= IdealCode(b);
    TruncMonotone(IdealCode(a), IdealCode(b));
  }

  /** `MAX_CURRENT` is positive and converts to exactly the largest code. */
  lemma MaxCurrentIsLargestCode()
    ensures MAX_CURRENT > 0.0
    ensures TryFrom(MAX_CURRENT) == Ok(DacCode(MAX_DAC_WORD - 1))
  {
    assert IdealCode(MAX_CURRENT) == (MAX_DAC_WORD - 1) as real;
  }

  /** Every current of magnitude at most `MAX_CURRENT` converts. */
  lemma WithinMaxCurrentConverts(current: real)
    requires -MAX_CURRENT <= current <= MAX_CURRENT
    ensures TryFrom(current).Ok?
  {
  }

  /** `u32::from(code)`: the stored code, below 2^20. */
  function Raw(c: DacCode): (u: nat)
    ensures u < MAX_DAC_WORD && u == c.code
  {
    c.code
  }

  /** The three bytes written for a code: its big-endian `u32` bytes without the first. */
  function Frame(c: DacCode): (bytes: seq<byte>)
    ensures |bytes| == 3 && bytes[0] < 16
    ensures BeValue(bytes) == c.code
  {
    Pow2Values();
    var be := ToBeBytes(c.code);
    BeSuffix(be, 3);
    assert be[1..] == be[|be| - 3..];
    ModFits(c.code, Pow2(24));
    LeadingByte(be[1..]);
    be[1..]
  }

  /** The four output channels. */
  datatype Channel = Zero | One | Two | Three

  function Index(ch: Channel): (i: nat)
    ensures i < 4
  {
    match ch
    case Zero => 0
    case One => 1
    case Two => 2
    case Three => 3
  }

  /** `OutputChannelIdx::try_from(i)`. */
  function FromIndex(i: int): (ch: Option<Channel>)
    ensures ch.Some? <==> 0 <= i < 4
  {
    if i == 0 then Some(Zero)
    else if i == 1 then Some(One)
    else if i == 2 then Some(Two)
    else if i == 3 then Some(Three)
    else None
  }

  lemma IndexRoundTrip(ch: Channel, i: int)
    ensures FromIndex(Index(ch)) == Some(ch)
    ensures 0 <= i < 4 ==> Index(FromIndex(i).value) == i
  {
  }

  /** What an observer of the sync lines and the SPI bus sees. */
  datatype DacEvent = SyncLow(ch: Channel) | SyncHigh(ch: Channel) | SpiWrite(bytes: seq<byte>)

  /** One `set`: the channel's sync line low, the code's three bytes, the sync line high. */
  function SetEvents(ch: Channel, c: DacCode): seq<DacEvent> {
    [SyncLow(ch), SpiWrite(Frame(c)), SyncHigh(ch)]
  }

  const ZERO_CURRENT_CODE: DacCode := DacCode(0x8_0000)

  /** The zero-current writes to channels 0 .. n-1, in order. */
  function ZeroCurrentSets(n: nat): seq<DacEvent>
    requires n <= 4
  {
    if n == 0 then [] else ZeroCurrentSets(n - 1) + SetEvents(FromIndex(n - 1).value, ZERO_CURRENT_CODE)
  }

  const ALL_SYNCS_HIGH: seq<DacEvent> := [SyncHigh(Zero), SyncHigh(One), SyncHigh(Two), SyncHigh(Three)]

  class Dac {
    /** The level of each channel's sync line, indexed by `Index`. */
    var sync: seq<bool>
    /** Everything that happened on the sync lines and the bus. */
    var trace: seq<DacEvent>

    predicate Valid()
      reads this
    {
      |sync| == 4
    }

    /**
     * Drives every sync line high, then writes the zero-current code to each channel in
     * order; `pins` are the sync levels the driver is handed.
     */
    constructor (pins: seq<bool>)
      requires |pins| == 4
      ensures Valid() && sync == [true, true, true, true]
      ensures trace == ALL_SYNCS_HIGH + ZeroCurrentSets(4)
    {
      sync := pins;
      trace := [];
      new;
      SetSync(Zero, true);
      SetSync(One, true);
      SetSync(Two, true);
      SetSync(Three, true);
      assert trace == ALL_SYNCS_HIGH;
      SetAllToZeroCurrent();
    }

    /** Writes the zero-current code to every channel, in channel order. */
    method SetAllToZeroCurrent()
      requires Valid() && sync == [true, true, true, true]
      modifies this
      ensures Valid() && sync == old(sync)
      ensures trace == old(trace) + ZeroCurrentSets(4)
    {
      ZeroCurrentIsHalfScale();
      for i := 0 to 4
        invariant Valid() && sync == old(sync)
        invariant trace == old(trace) + ZeroCurrentSets(i)
      {
        var ch := FromIndex(i).value;
        Set(ch, TryFrom(0.0).value);
      }
    }

    /** Drives one sync line. */
    method SetSync(ch: Channel, high: bool)
      requires Valid()
      modifies this
      ensures Valid() && sync == old(sync)[Index(ch) := high]
      ensures trace == old(trace) + [if high then SyncHigh(ch) else SyncLow(ch)]
    {
      sync := sync[Index(ch) := high];
      trace := trace + [if high then SyncHigh(ch) else SyncLow(ch)];
    }

    method SpiWrite(bytes: seq<byte>)
      modifies this
      ensures sync == old(sync) && trace == old(trace) + [DacEvent.SpiWrite(bytes)]
    {
      trace := trace + [DacEvent.SpiWrite(bytes)];
    }

    /** Writes a code to one channel; the other channels' sync lines do not move. */
    method Set(ch: Channel, c: DacCode)
      requires Valid()
      modifies this
      ensures Valid() && sync == old(sync)[Index(ch) := true]
      ensures trace == old(trace) + SetEvents(ch, c)
    {
      var buf := Frame(c);
      match ch {
        case Zero =>
          SetSync(Zero, false);
          SpiWrite(buf);
          SetSync(Zero, true);
        case One =>
          SetSync(One, false);
          SpiWrite(buf);
          SetSync(One, true);
        case Two =>
          SetSync(Two, false);
          SpiWrite(buf);
          SetSync(Two, true);
        case Three =>
          SetSync(Three, false);
          SpiWrite(buf);
          SetSync(Three, true);
      }
    }
  }
}
