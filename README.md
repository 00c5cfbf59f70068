# Thermostat-EEM sensing and actuation core, in Dafny

A model of four pieces of the Thermostat-EEM firmware's path from temperature sensing to
TEC current output:

- **AD7172 ADC register protocol** (`ad7172.dfy`, module `Ad7172`). The driver is a class
  over a `Bus`, which holds the chip-select level and a trace of every event on the wires:
  CS low, CS high, a full-duplex transfer, a write, a delay. The converter's answers come
  from a `Device`, which may be any function of the wire history and the outgoing frame
  that returns a frame of the same length. Reads and writes fill a local byte array, put
  the address byte in place and hand a slice of it to the bus. Bring-up (`New`) is
  the fixed sequence of reset, delay, identity check and register writes. Its error path
  is stated too.
- **TEC current DAC** (`dac.dfy`, module `Dac`). The current-to-code conversion works on
  real numbers, truncates toward zero and checks the `[0, 2^20)` bounds. Each write is a
  3-byte frame between one channel's sync-low and sync-high. The constructor drives every
  sync line high and sets every channel to the zero-current code.
- **Output channel** (`output_channel.dfy`, module `OutputChannel`). It covers:
  - the PID parameters and their translation into a biquad;
  - the On/Hold/Off gating of the per-tick update;
  - the weighted mix of the 4 by 4 temperature inputs;
  - `finalize_settings`, which clamps the filter's output bounds to the safety ceiling and
    the voltage limit to the PWM's range, and normalizes the weights in place;
  - `current_limits`.

  Floats are reals, extended with the two infinities (`Ext`). The filter library is a
  parameter (`Idsp`): the PID builder (which may fail), the biquad update, the hold
  filter and the default filter.
- **DT-670 diode curve** (`dt670.dfy`, module `Dt670`). The 144 `(T, V, dV/dT)` points
  are a sequence literal. The model proves the ordering facts that any lookup by voltage
  relies on.

Two helper modules round it off. `Bytes` holds bytes, powers of two, bitwise AND and OR on
naturals, and big-endian encoding. `Wrappers` holds `Option` and `Result`.

## Model

| member | source | states |
|---|---|---|
| Bytes.BeValue | src/hardware/ad7172.rs:121 | the big-endian value of `n` bytes is below 2^(8n) |
| Bytes.BeSuffix | src/hardware/ad7172.rs:121 | a big-endian value modulo 2^(8k) is the value of its last k bytes |
| Bytes.LowMask | src/hardware/ad7172.rs:121 | AND with `(1 << k) - 1` is reduction modulo 2^k |
| Bytes.OrDisjoint | src/hardware/ad7172.rs:158-163 | OR of a value below 2^k into a multiple of 2^k is their sum |
| Bytes.ToBeBytes | src/hardware/ad7172.rs:127 | `to_be_bytes` gives four bytes whose big-endian value is the `u32` itself |
| Ad7172.Addr | src/hardware/ad7172.rs:17-43 | every register address is below 0x40, so the read flag bit is clear |
| Ad7172.ReadFlag | src/hardware/ad7172.rs:117 | OR-ing the read flag 0x40 into the address equals adding it |
| Ad7172.ReadFlagIsNoAddress | src/hardware/ad7172.rs:117 | a read command byte never equals any register's write address byte |
| Ad7172.SetupconWord | src/hardware/ad7172.rs:158-163 | the OR of the SETUPCON bit fields used is 0x0F00, and each buffer bit is its shifted one |
| Ad7172.FiltconWord | src/hardware/ad7172.rs:179 | the OR of `0b110 << 8`, `1 << 11` and `0b10011` is 0x0E13 |
| Ad7172.RefSelAsWritten | src/hardware/ad7172.rs:56-57 | the written INTREF and DIAREF put codes 2 and 3 in bits 5:4 but also set bit 7 |
| Ad7172.RefSelCodes | src/hardware/ad7172.rs:55-57 | EXTREF, and INTREF and DIAREF as binary codes, set only bits 5:4, to 0, 2 and 3 |
| Ad7172.ReadFrame | src/hardware/ad7172.rs:116-119 | a read clocks out `size + 1` bytes: the flagged address, then zeros |
| Ad7172.ReadValue | src/hardware/ad7172.rs:121-122 | the read value is the big-endian value of the last `size` bytes back, below 2^(8 size) |
| Ad7172.ReadWord | src/hardware/ad7172.rs:121-122 | masking the whole eight-byte buffer to `size` bytes gives the value of the bytes clocked back |
| Ad7172.MaskedRead | src/hardware/ad7172.rs:121-122 | the masked 64-bit value equals the read value of the transferred slice and fits a `u32` |
| Ad7172.ReadWordOfFrame | src/hardware/ad7172.rs:121 | the decoded value depends only on the slice `buf[7 - size..]` |
| Ad7172.ReadBuffer | src/hardware/ad7172.rs:116-117 | the zeroed buffer with the flagged address at `7 - size` holds the read frame from there on |
| Ad7172.Decode | src/hardware/ad7172.rs:121-122 | decoding a read buffer yields the read value of the bytes the device sent back |
| Ad7172.WriteBuffer | src/hardware/ad7172.rs:127-128 | the `to_be_bytes` buffer with the address at `3 - size` holds the write frame from there on |
| Ad7172.WriteFrame | src/hardware/ad7172.rs:126-130 | a write clocks out the address, then `size` bytes whose value is `data mod 2^(8 size)` |
| Ad7172.WriteFrameDecodes | src/hardware/ad7172.rs:126-130 | decoding a write frame as a read would gives back the truncated data |
| Ad7172.SplitData | src/hardware/ad7172.rs:139-141 | a DATA word splits into a value below 2^24 and a channel byte with `data * 256 + ch == raw` |
| Ad7172.IdMatches | src/hardware/ad7172.rs:91 | `id & 0xf0 == 0xd0` holds exactly when bits 7:4 of the id are 0xD |
| Ad7172.IdNibble | src/hardware/ad7172.rs:91 | AND with 0xf0 keeps exactly bits 7:4 of the id |
| Ad7172.ForeignIdRejected | src/hardware/ad7172.rs:89-92 | id 0x00A0 fails the check |
| Ad7172.NewBuffer | src/hardware/ad7172.rs:116 | a fresh local buffer with the given contents |
| Ad7172.Bus.SetLow | src/hardware/ad7172.rs:109 | CS goes low and the trace records it |
| Ad7172.Bus.SetHigh | src/hardware/ad7172.rs:111 | CS goes high and the trace records it |
| Ad7172.Bus.Transfer | src/hardware/ad7172.rs:119 | the slice is clocked out and overwritten in place with the device's answer; the rest of the buffer is kept |
| Ad7172.Bus.Write | src/hardware/ad7172.rs:130 | a write is recorded and CS does not move |
| Ad7172.Bus.DelayUs | src/hardware/ad7172.rs:86 | a delay is recorded and CS does not move |
| Ad7172.Ad7172.Wrap | src/hardware/ad7172.rs:82 | the driver holds the bus it is given |
| Ad7172.Ad7172.New | src/hardware/ad7172.rs:79-104 | CS high, reset, 5000 µs delay, id read; `Err(AdcId)` exactly when the id fails, with no write after the read; otherwise ADCMODE, IFMODE and the channel set-up, in order |
| Ad7172.Ad7172.Reset | src/hardware/ad7172.rs:106-112 | eight 0xFF bytes transferred in one CS-low window, CS high after |
| Ad7172.Ad7172.Read | src/hardware/ad7172.rs:115-123 | one read frame in one CS window; the result is the read value of the device's answer |
| Ad7172.Ad7172.ReadTransfer | src/hardware/ad7172.rs:116-120 | the buffer's slice from `7 - size` holds the device's answer to the read frame |
| Ad7172.Ad7172.Write | src/hardware/ad7172.rs:126-132 | one write frame in one CS window |
| Ad7172.Ad7172.ReadData | src/hardware/ad7172.rs:137-142 | a 4-byte DATA read, split into a 24-bit value and the channel byte that reassemble the word |
| Ad7172.Ad7172.SetupChannels | src/hardware/ad7172.rs:145-183 | CH0=0x8001, CH1=0x9043, SETUPCON0/1=0x0F00, FILTCON0/1=0x0E13, each a 2-byte write, in order |
| Ad7172.ForeignIdScenario | src/hardware/ad7172.rs:88-93 | a converter answering id 0x00A0 is refused, and the wires see only the probe |
| Dac.Trunc | src/hardware/dac.rs:63 | `as i32` keeps the integer part, rounding toward zero |
| Dac.TruncMonotone | src/hardware/dac.rs:63 | truncation toward zero is monotone |
| Dac.CtliVoltage | src/hardware/dac.rs:62 | the control voltage is the TEC reference plus half the current |
| Dac.IdealCode | src/hardware/dac.rs:63 | the unrounded code is affine in the current: 0 at -3 A, 2^20 at +3 A |
| Dac.TryFrom | src/hardware/dac.rs:60-70 | `Ok` exactly for currents strictly between `REFUSED_AT_OR_BELOW` and `REFUSED_AT_OR_ABOVE`; the code is the ideal code truncated toward zero |
| Dac.ZeroCurrentIsHalfScale | src/hardware/dac.rs:62-63 | zero current converts to 2^19 |
| Dac.TryFromMonotone | src/hardware/dac.rs:62-63 | a larger current never converts to a smaller code |
| Dac.MaxCurrentIsLargestCode | src/hardware/dac.rs:49-54 | `MAX_CURRENT` is positive and converts to 2^20 - 1 |
| Dac.WithinMaxCurrentConverts | src/hardware/dac.rs:60-70 | every current of magnitude at most `MAX_CURRENT` converts |
| Dac.Raw | src/hardware/dac.rs:73-77 | `u32::from` returns the stored code, below 2^20 |
| Dac.Frame | src/hardware/dac.rs:146 | three bytes, the first below 16, whose big-endian value is the code |
| Dac.Index | src/hardware/dac.rs:148-170 | each of the four channels has its own sync line, numbered below 4 |
| Dac.FromIndex | src/hardware/dac.rs:134 | an index converts to a channel exactly when it is below 4 |
| Dac.IndexRoundTrip | src/hardware/dac.rs:133-134 | channel to index to channel, and index to channel to index, are identities |
| Dac.Dac.constructor | src/hardware/dac.rs:109-138 | all four syncs high, then a zero-current write to channels 0 to 3 in order |
| Dac.Dac.SetAllToZeroCurrent | src/hardware/dac.rs:132-136 | the loop writes the zero-current code to each channel in order; sync levels are unchanged |
| Dac.Dac.SetSync | src/hardware/dac.rs:127-130 | one sync line takes the new level and the trace records it |
| Dac.Dac.SpiWrite | src/hardware/dac.rs:152 | the bytes are recorded on the bus and no sync line moves |
| Dac.Dac.Set | src/hardware/dac.rs:145-171 | the channel's sync low, its code's 3-byte frame, its sync high; other syncs unchanged |
| OutputChannel.Neg | src/output_channel.rs:90 | negation keeps finiteness, and the infinities swap |
| OutputChannel.Abs | src/output_channel.rs:67 | the magnitude is non-negative and finite exactly when its argument is |
| OutputChannel.CopySign | src/output_channel.rs:67-69 | the magnitude of `x` with the sign of `s`, for non-zero `x` |
| OutputChannel.FiniteOr | src/output_channel.rs:72-76 | a finite value is kept, any other one is replaced |
| OutputChannel.Clamp | src/output_channel.rs:186-189 | the result lies in `[lo, hi]`, is the value when it already does, and is the nearer end otherwise |
| OutputChannel.Config | src/output_channel.rs:65-68 | period 1/1007 and `kp` unchanged |
| OutputChannel.ConfigSigns | src/output_channel.rs:67-87 | `ki`, `kd`, `li`, `ld` keep their magnitude (non-finite limits become infinite) and take the sign of `kp` |
| OutputChannel.TryFromPid | src/output_channel.rs:62-103 | built exactly when the library builds; offset minus the setpoint; finite bounds kept, others opened to the matching infinity |
| OutputChannel.DefaultPidConfig | src/output_channel.rs:47-60 | the default PID asks for zero gains and no limits, with offset -25 and open bounds |
| OutputChannel.RangeIsDacFullScale | src/output_channel.rs:184 | the ceiling is the DAC's full-scale current, positive and below the PWM limit |
| OutputChannel.ClampBounds | src/output_channel.rs:185-188 | both bounds finite within `[-range, range]`: unchanged if already inside, the nearer end `-range` or `range` otherwise (an infinite bound included); the rest of the filter kept |
| OutputChannel.ClampBoundsIdempotent | src/output_channel.rs:185-188 | clamped bounds are safe and clamping again changes nothing |
| OutputChannel.SafeBoundsConvert | src/output_channel.rs:184-188 | every safe bound is a current the DAC converts |
| OutputChannel.AddReal | src/output_channel.rs:205-206 | adding to an infinity leaves it infinite |
| OutputChannel.CurrentLimits | src/output_channel.rs:200-208 | upper limit `max(max + headroom, 0)`, lower limit `min(min - headroom, 0)` |
| OutputChannel.SafeCurrentLimits | src/output_channel.rs:200-208 | for safe bounds the limits are finite and within the ceiling plus headroom |
| OutputChannel.SumAbs | src/output_channel.rs:190 | the divisor, the sum of the weights' absolute values, is never negative |
| OutputChannel.SumAbsZero | src/output_channel.rs:190-192 | the divisor is zero exactly when every weight is zero |
| OutputChannel.Magnitudes | src/output_channel.rs:190 | the absolute value of every weight |
| OutputChannel.Scale | src/output_channel.rs:193-196 | every weight multiplied by the same factor |
| OutputChannel.Normalized | src/output_channel.rs:190-197 | same length, and all-zero weights are unchanged |
| OutputChannel.NormalizedSumsToOne | src/output_channel.rs:190-197 | unless all are zero, the normalized weights' magnitudes sum to one |
| OutputChannel.NormalizedRescales | src/output_channel.rs:192-196 | unless all are zero, every weight is divided by the same positive divisor |
| OutputChannel.NormalizedKeepsSigns | src/output_channel.rs:192-196 | positive, negative and zero weights stay so |
| OutputChannel.NormalizedIdempotent | src/output_channel.rs:190-197 | normalizing normalized weights changes nothing |
| OutputChannel.Dot | src/output_channel.rs:159-164 | the weighted mix, the sum of the products of temperatures and weights; its properties are stated by `DotOfZeroWeights` and `DotLinear` |
| OutputChannel.DotOfZeroWeights | src/output_channel.rs:159-164 | all-zero weights, the default, mix any temperatures to zero |
| OutputChannel.DotLinear | src/output_channel.rs:159-164 | weights scaled by `c` scale the mixed temperature by `c` |
| OutputChannel.Flatten | src/output_channel.rs:160 | `as_flattened` places entry (i, j) at 4i + j |
| OutputChannel.OutputChannel.Default | src/output_channel.rs:144-154 | off, voltage limit 4.3 V, default PID, default filter, zero weights |
| OutputChannel.OutputChannel.Update | src/output_channel.rs:158-171 | the weighted sum of all 16 inputs goes through the channel's filter when on, the hold filter otherwise |
| OutputChannel.OutputChannel.FinalizeSettings | src/output_channel.rs:178-198 | filter rebuilt or kept, bounds clamped, voltage limit clamped to `[0, 4.3]`, weights normalized, state and PID unchanged |
| OutputChannel.OutputChannel.NormalizeWeights | src/output_channel.rs:190-197 | the in-place loop leaves exactly the normalized weights |
| Dt670.CurveMonotone | src/hardware/dt670.rs:7-151 | 144 points; temperature rises and voltage falls between neighbours; every slope is negative |
| Dt670.CurveEnds | src/hardware/dt670.rs:7-151 | first point (1.4, 1.644290, -12.5), last (500.0, 0.090681, -2.12) |
| Dt670.CurveSpread | src/hardware/dt670.rs:8-151 | any later point is hotter and at a lower voltage |
| Dt670.VoltageSpan | src/hardware/dt670.rs:8-151 | every voltage lies in `[0.090681, 1.644290]` |
| Dt670.BracketExists | src/hardware/dt670.rs:8-151 | every voltage in the span lies between two neighbouring points |
| Dt670.BracketUnique | src/hardware/dt670.rs:8-151 | two different brackets of a voltage are neighbours, meeting at a table voltage |

## Left out

- Floating point: `f32` and `f64` are real numbers. Rounding, NaN, signed zero and
  `copysign` with a negative zero are not modelled. The weights' magnitudes sum to exactly
  one only over the reals. The DT-670 points are exact decimals.
- Weights and temperatures are plain reals, while the PID fields and the voltage limit
  are reals extended with the infinities. An infinite weight therefore cannot be
  represented. In the firmware it would make the divisor infinite, its reciprocal zero
  and the normalized weight NaN.
- Dac.Trunc: models `as i32` for values that fit. Saturation of values outside the `i32`
  range is not modelled; such values fall outside `[0, 2^20)` and are refused either way. A
  NaN current, which `as i32` turns into code 0, is not modelled.
- The filter library: PID coefficient computation, `Biquad::update`, `Biquad::HOLD` and
  `Biquad::default` are parameters of the model, known only by the shape of their
  results. The builder's error value is reduced to `None`.
- `Pwm::MAX_CURRENT_LIMIT` (3 A) and `Pwm::MAX_VOLTAGE_LIMIT` (4.3 V) are declared
  constants. The values come from the channel's documentation comments; the PWM driver is
  not part of this model. `OutputChannelIdx` is not part of this model either; it is a
  four-value channel type.
- Hardware: SPI and GPIO set-up, the SPI clock, `unwrap` panics on bus errors, and
  logging. The SPI answer to the reset transfer is clocked in but never used, as in the
  driver.
- Ad7172.Ad7172.Read: requires `size <= 4`, the maximum its documentation states. Sizes
  5 to 7, which the code would run and truncate to 32 bits, are not modelled.
- `Setupcon::BIPOLAR` is unused by the driver and left out.
- The weights are a flat array of 16 entries, in `as_flattened` order, rather than a 4 by
  4 matrix.
- No temperature lookup or interpolation over the DT-670 curve is modelled, as none exists
  in the driver; only the ordering facts such a lookup relies on.

## Findings

| source | as written | input that shows it | evidently intended | confidence | as-written member | corrected member |
|---|---|---|---|---|---|---|
| src/hardware/ad7172.rs:56-57 | `INTREF = 10 << 4` and `DIAREF = 11 << 4` use decimal 10 and 11, giving 0xA0 and 0xB0 | either constant: bit 7 is set besides the reference field | the binary codes `0b10 << 4` (0x20) and `0b11 << 4` (0x30), setting only the reference field, bits 5:4, as the comment beside `EXTREF = 00 << 4` suggests | not executed; medium (both constants are unused by the driver) | Ad7172.RefSelAsWritten | Ad7172.RefSelCodes |
