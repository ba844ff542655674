# LEGO MINDSTORMS EV3 battery driver: a verified model of its core

This project models the battery-state core of the Linux power-supply driver
for the LEGO MINDSTORMS EV3 brick (`drivers/power/supply/lego_ev3_battery.c`)
and proves properties of it in Dafny. The core has three parts:

- **Sample decode.** The IIO buffer callback masks each pushed 16-bit raw word
  to 12 bits and scales it by 5002/4096. It stores the results as the
  last-known current and voltage samples (`c_now`, `v_now`).
- **Property reads.** `get_property` answers TECHNOLOGY, VOLTAGE_NOW,
  VOLTAGE_MAX_DESIGN, VOLTAGE_MIN_DESIGN, CURRENT_NOW and SCOPE. The two
  "now" properties take a live processed channel read. A busy channel falls
  back to the stored sample. "No device" and "try again" pass through, and
  every other error becomes "no data". The reading is then calibrated with
  C integer arithmetic.
- **Write-once technology.** Probe reads the rechargeable strap once. A set
  strap means Li-ion with fixed bounds. A clear strap means Unknown with
  alkaline bounds. `set_property` allows exactly one change, Unknown to NiMH,
  which also rewrites both bounds. `property_is_writeable` holds exactly while
  that change is still available.

Layout:

- `c_int.dfy` (module `CInt`): C's truncating `/` on `int` and the 32-bit
  `int` range. `Div` is characterised by the sign and size of its remainder,
  and it is proved equal to the algebraic quotient with any fractional part
  discarded, which is how section 6.5.5 of ISO/IEC 9899:1999 defines `/`.
- `power_supply.dfy` (module `PowerSupply`): the Linux error numbers, the
  technology and scope values, the property identifiers, and the results of
  a channel read and of a property read.
- `lego_ev3_battery.dfy` (module `Ev3Battery`): the driver state as a value
  and the core operations as functions: `Decode`, `Sampled`,
  `CurrentMicroamps`, `VoltageMicrovolts`, `LiveOrFallback`, `GetProperty`,
  `SetProperty`, `IsWriteable` and `Probed`.
- `lego_ev3_battery_properties.dfy` (module `Ev3BatteryProperties`): lemmas
  about reads, error classification, 32-bit range and sequences of writes.
- `lego_ev3_battery_driver.dfy` (module `Ev3BatteryDriver`): the class
  `Battery`, which holds the fields of `struct lego_ev3_battery`. These
  fields are updated in place by the probe strap branch (the constructor
  `Probe`), by the callback (`IioCallback`) and by `SetProperty`. Each of
  these is proved against the value model.

Hardware and framework inputs become parameters:

- The strap is a `bool`.
- Each live `iio_read_channel_processed` result is a `ChannelRead`, either
  `Ok(value)` or `Err(negative errno)`.
- The raw words pushed to the callback are an `array<bv16>`.

`get_property` and `property_is_writeable` only read the structure. They are
the functions `Ev3Battery.GetProperty` and `Ev3Battery.IsWriteable` applied
to `Battery.Snapshot()`. Being functions, they cannot change driver state.

Constants follow the Linux headers:

- Error numbers: EAGAIN 11, EBUSY 16, ENODEV 19, EINVAL 22, ENODATA 61.
- Technology: UNKNOWN 0, NiMH 1, LION 2.
- Scope: SYSTEM 1.

The design bounds are the code's own numbers, kept as written. The Li-ion
values (84000000/60000000) and the alkaline values (90000000/48000000) are ten
times the microvolt values of 8.4 V/6.0 V and 9.0 V/4.8 V. The NiMH values
(7800000/5400000) are 7.8 V/5.4 V in microvolts, with no such factor.

Live readings and stored samples:

- Live readings come from `iio_read_channel_processed` (lines 53, 63, 82).
  The raw decode (lines 176-177) only feeds the busy fallback.
- The callback receives `u16` words and masks each one to 12 bits
  (lines 167, 176-177).
- A busy read substitutes the stored sample before calibration
  (lines 55, 65, 84).

## Model

| member | source | states |
|---|---|---|
| `CInt.Div` | drivers/power/supply/lego_ev3_battery.c:89-90 | C's `a / b`: the remainder `a - q*b` is smaller than `b` in magnitude and has the sign of `a` (or is zero) |
| `CInt.DivDiscardsFraction` | drivers/power/supply/lego_ev3_battery.c:89-90 | `Div` equals the real quotient `a/b` with its fractional part discarded, the C definition of `/` |
| `CInt.TruncQuotientUnique` | drivers/power/supply/lego_ev3_battery.c:89-90 | only one quotient meets C's definition, so `Div` is exactly C's division |
| `CInt.DivNonNegative` | drivers/power/supply/lego_ev3_battery.c:70-71 | for a non-negative dividend and a positive divisor, C's quotient is the Euclidean one |
| `CInt.DivNegate` | drivers/power/supply/lego_ev3_battery.c:70-71 | C's division is symmetric about zero: `(-a)/b == -(a/b)` |
| `Ev3Battery.Decode` | drivers/power/supply/lego_ev3_battery.c:176-177 | a decoded sample lies in [0, 5000]; 12-bit value 0 gives 0 and 0xFFF gives 5000 |
| `Ev3Battery.DecodeLowBitsOnly` | drivers/power/supply/lego_ev3_battery.c:176-177 | two raw words with the same low 12 bits decode to the same sample |
| `Ev3Battery.DecodeStrictlyIncreasing` | drivers/power/supply/lego_ev3_battery.c:176-177 | a larger 12-bit value decodes to a strictly larger sample, so the decode is injective on 12 bits |
| `Ev3Battery.DecodeNoOverflow` | drivers/power/supply/lego_ev3_battery.c:176-177 | the product `(raw & 0xFFF) * 5002` fits a 32-bit `int` |
| `Ev3Battery.Sampled` | drivers/power/supply/lego_ev3_battery.c:165-180 | the callback keeps the invariant and leaves technology and both bounds unchanged |
| `Ev3Battery.CurrentMicroamps` | drivers/power/supply/lego_ev3_battery.c:81-90 | CURRENT_NOW's calibration is C's truncating quotient of `i*20000` by 15, equal to Euclidean `i*20000/15` for `i >= 0` |
| `Ev3Battery.VoltageMicrovolts` | drivers/power/supply/lego_ev3_battery.c:60-72 | VOLTAGE_NOW's calibration minus `v*2000 + 200000` is C's truncating quotient of `i*1000` by 15 |
| `Ev3Battery.LiveOrFallback` | drivers/power/supply/lego_ev3_battery.c:53-59 | a read fails exactly when it is an error other than busy; a busy read yields the stored value; ENODEV and EAGAIN pass through; any other error becomes ENODATA |
| `Ev3Battery.GetProperty` | drivers/power/supply/lego_ev3_battery.c:40-100 | errors are only EINVAL, ENODEV, EAGAIN or ENODATA; EINVAL exactly for unsupported properties; TECHNOLOGY, the two design bounds and SCOPE (SYSTEM) are the stored fields and never fail |
| `Ev3Battery.SetProperty` | drivers/power/supply/lego_ev3_battery.c:102-135 | succeeds iff the property is TECHNOLOGY, the technology is Unknown and the value is NiMH; success sets NiMH with bounds 7800000/5400000; failure is EINVAL with the state unchanged; the invariant holds afterwards; a known technology stays known |
| `Ev3Battery.IsWriteable` | drivers/power/supply/lego_ev3_battery.c:137-144 | when true, the NiMH write succeeds; when false, every write to that property fails with EINVAL |
| `Ev3Battery.Probed` | drivers/power/supply/lego_ev3_battery.c:242-256 | the probed state is valid with zero samples; it is Li-ion for a set strap and Unknown otherwise; TECHNOLOGY is writable iff the strap is clear |
| `Ev3BatteryProperties.CurrentNowRead` | drivers/power/supply/lego_ev3_battery.c:80-91 | CURRENT_NOW calibrates the live reading, or the stored `c_now` when busy, and classifies errors; the voltage channel is never consulted |
| `Ev3BatteryProperties.BusyCurrentNeverFails` | drivers/power/supply/lego_ev3_battery.c:82-90 | with a busy current channel CURRENT_NOW succeeds with `c_now*20000/15`, between 0 and 6666666 |
| `Ev3BatteryProperties.Reading` | drivers/power/supply/lego_ev3_battery.c:53-55 | a read that is a value or busy passes the classification with the live or the stored value |
| `Ev3BatteryProperties.VoltageNowRead` | drivers/power/supply/lego_ev3_battery.c:51-73 | VOLTAGE_NOW is `v*2000 + 200000 + i*1000/15`, with `v` and `i` live or stored when busy; otherwise it returns the classified error of the first failing channel |
| `Ev3BatteryProperties.VoltageErrorShortCircuits` | drivers/power/supply/lego_ev3_battery.c:53-59 | a non-busy voltage-channel error fails VOLTAGE_NOW whatever the current channel returns |
| `Ev3BatteryProperties.LiveReadErrors` | drivers/power/supply/lego_ev3_battery.c:53-88 | live reads fail only with ENODEV or EAGAIN (the channel's own code) or ENODATA; two busy channels never fail |
| `Ev3BatteryProperties.BusyVoltageBounds` | drivers/power/supply/lego_ev3_battery.c:53-72 | with both channels busy, VOLTAGE_NOW on a valid state lies in [200000, 10533333] |
| `Ev3BatteryProperties.CurrentNoOverflow` | drivers/power/supply/lego_ev3_battery.c:89-90 | for current readings of magnitude at most 107374, CURRENT_NOW's values fit a 32-bit `int` |
| `Ev3BatteryProperties.VoltageNoOverflow` | drivers/power/supply/lego_ev3_battery.c:60-72 | for readings of magnitude at most 1000000, every value VOLTAGE_NOW forms fits a 32-bit `int` |
| `Ev3BatteryProperties.WriteOnce` | drivers/power/supply/lego_ev3_battery.c:108-134 | once the technology is known, no sequence of writes succeeds or changes any field |
| `Ev3BatteryProperties.WritesFromUnknown` | drivers/power/supply/lego_ev3_battery.c:108-134 | from Unknown, any sequence of writes leaves the state unchanged or switches it to NiMH with NiMH bounds; at most one write succeeds, and one does iff the state changed |
| `Ev3BatteryProperties.NeverBackToUnknown` | drivers/power/supply/lego_ev3_battery.c:110-119 | no sequence of writes returns a known technology to Unknown |
| `Ev3BatteryProperties.WritesPreserveValid` | drivers/power/supply/lego_ev3_battery.c:118-125 | any sequence of writes preserves the invariant (technology and bounds consistent, samples in range) |
| `Ev3BatteryProperties.WriteableUntilFirstSuccess` | drivers/power/supply/lego_ev3_battery.c:137-144 | after a sequence of writes, TECHNOLOGY is writable iff it was writable before and no write succeeded |
| `Ev3BatteryProperties.LionNeverOverridden` | drivers/power/supply/lego_ev3_battery.c:246-250 | a Li-ion probe state is unchanged by any writes, and no property of it is ever writable |
| `Ev3BatteryProperties.NiMHOverrideOnce` | drivers/power/supply/lego_ev3_battery.c:118-125 | on an alkaline probe state the NiMH write succeeds with bounds 7800000/5400000, and any second TECHNOLOGY write then fails |
| `Ev3BatteryProperties.SampleCommutesWithWrite` | drivers/power/supply/lego_ev3_battery.c:165-180 | the callback and a write touch disjoint fields: either order gives the same return code and state |
| `Ev3BatteryDriver.Battery.Probe` | drivers/power/supply/lego_ev3_battery.c:246-256 | the fields after the strap branch on a zeroed structure equal `Probed(rechargeable)`, which is valid |
| `Ev3BatteryDriver.Battery.IioCallback` | drivers/power/supply/lego_ev3_battery.c:165-180 | returns 0; stores `Decode(raw[0])` as `c_now` and `Decode(raw[1])` as `v_now`; nothing else changes; the invariant is kept |
| `Ev3BatteryDriver.Battery.SetProperty` | drivers/power/supply/lego_ev3_battery.c:102-135 | return code and new fields are those of `Ev3Battery.SetProperty`; succeeds iff Unknown, TECHNOLOGY and NiMH; a failing write changes nothing; samples are never touched |
| `Ev3BatteryDriver.AlkalineThenNiMH` | drivers/power/supply/lego_ev3_battery.c:102-135 | a caller probes with a clear strap, writes NiMH, receives a sample and writes TECHNOLOGY again; it ends with NiMH and its bounds, valid and no longer writable |

## Left out

- IIO channel acquisition and the callback buffer (lines 182-194, 209-232, 269-275) are kernel calls. Each live read is a `ChannelRead` parameter, and the callback is an ordinary method call.
- GPIO acquisition (lines 234-240) and `gpiod_get_value` are hardware I/O. The strap is a `bool` parameter. In the C code, a negative error from `gpiod_get_value` is non-zero and therefore selects Li-ion. The model does not represent that error.
- Power-supply registration, the property table and descriptor, the device-tree match table and the module macros (lines 146-163, 258-267, 280-297) are framework glue.
- Probe failure paths (`-ENOMEM`, `-EPROBE_DEFER`, `dev_err` logging) are allocation and diagnostics plumbing. The model starts from a successfully allocated, zeroed structure.
- The callback and the readers run in different contexts and may interleave. That concurrency is not modelled. `SampleCommutesWithWrite` shows only that the callback and a write touch disjoint fields.
- Ev3Battery.GetProperty: computes with unbounded integers. For live readings large enough that a product leaves the 32-bit range, the C code has undefined behaviour. `CurrentNoOverflow` and `VoltageNoOverflow` give ranges in which no overflow occurs.
- Ev3Battery.GetProperty: on a failing call it returns only the error code. It does not model what the C code has already written to `val->intval`, which callers ignore.
- Property identifiers beyond the six the driver lists are one constructor, `OtherProperty(id)`. The framework's numbering of its enumeration is not modelled.
