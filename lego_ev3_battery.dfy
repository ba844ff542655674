/** The battery-state core of the LEGO MINDSTORMS EV3 battery driver, on
    values: the driver's state, the decoding of pushed raw samples, the
    property reads with their error classification, the one allowed
    property write, writability and the initial state chosen at probe. */
module Ev3Battery {
  import opened PowerSupply
  import CInt

  /** The fields of `struct lego_ev3_battery` that the core reads and
      writes: the technology, the design bounds (microvolts as the driver
      stores them) and the last decoded current and voltage samples. */
  datatype State = State(technology: int, vMax: int, vMin: int, vNow: int, cNow: int)

  // Design bounds assigned at probe and by the NiMH write
  const LION_V_MAX: int := 84000000
  const LION_V_MIN: int := 60000000
  const ALKALINE_V_MAX: int := 90000000
  const ALKALINE_V_MIN: int := 48000000
  const NIMH_V_MAX: int := 7800000
  const NIMH_V_MIN: int := 5400000

  /** The largest value a decoded sample can take. */
  const SAMPLE_MAX: int := 5000

  /** The technology and bounds go together as one of the three pairs the
      driver ever assigns. */
  predicate ConsistentDesign(s: State) {
    || (s.technology == TECHNOLOGY_LION && s.vMax == LION_V_MAX && s.vMin == LION_V_MIN)
    || (s.technology == TECHNOLOGY_UNKNOWN && s.vMax == ALKALINE_V_MAX && s.vMin == ALKALINE_V_MIN)
    || (s.technology == TECHNOLOGY_NIMH && s.vMax == NIMH_V_MAX && s.vMin == NIMH_V_MIN)
  }

  /** The invariant of a probed driver: consistent design data and stored
      samples in the range of `Decode`. */
  predicate Valid(s: State) {
    ConsistentDesign(s) && 0 <= s.vNow <= SAMPLE_MAX && 0 <= s.cNow <= SAMPLE_MAX
  }

  // ---------------------------------------------------------------------
  // Sample decode (the IIO buffer callback)

  /** Decodes one 16-bit word pushed by the ADC: the low 12 bits scaled by
      5002/4096. The C code shifts a non-negative `int` right by 12, which
      is flooring division by 4096. */
  function Decode(raw: bv16): (r: int)
    ensures 0 <= r <= SAMPLE_MAX
    ensures raw & 0xFFF == 0 ==> r == 0
    ensures raw & 0xFFF == 0xFFF ==> r == SAMPLE_MAX
  {
    Scale12((raw & 0xFFF) as int)
  }

  /** `(x * 5002) >> 12` for a 12-bit `x`. */
  function Scale12(x: int): int {
    x * 5002 / 4096
  }

  /** Only the low 12 bits of a raw word affect the decoded value. */
  lemma DecodeLowBitsOnly(raw: bv16, other: bv16)
    requires raw & 0xFFF == other & 0xFFF
    ensures Decode(raw) == Decode(other)
  {
  }

  /** Decoding is strictly increasing in the 12-bit value, so distinct
      12-bit readings never decode to the same sample. */
  lemma DecodeStrictlyIncreasing(a: bv16, b: bv16)
    requires a & 0xFFF < b & 0xFFF
    ensures Decode(a) < Decode(b)
  {
    Scale12StrictlyIncreasing((a & 0xFFF) as int, (b & 0xFFF) as int);
  }

  lemma Scale12StrictlyIncreasing(x: int, y: int)
    requires 0 <= x < y
    ensures Scale12(x) < Scale12(y)
  {
    var q := Scale12(x);
    assert x * 5002 < (q + 1) * 4096;
    assert y * 5002 >= x * 5002 + 5002;
  }

  /** The intermediate product of the decode fits a 32-bit `int`. */
  lemma DecodeNoOverflow(raw: bv16)
    ensures CInt.InInt((raw & 0xFFF) as int * 5002)
  {
  }

  /** The state after the callback stores a pushed pair of raw words: the
      current word first, then the voltage word. */
  function Sampled(s: State, rawCurrent: bv16, rawVoltage: bv16): (t: State)
    ensures Valid(s) ==> Valid(t)
    ensures t.technology == s.technology && t.vMax == s.vMax && t.vMin == s.vMin
  {
    s.(cNow := Decode(rawCurrent), vNow := Decode(rawVoltage))
  }

  // ---------------------------------------------------------------------
  // Calibration of live readings

  /** Battery current in microamps from a processed current-channel reading:
      channel value / 15 / 0.05 ohm, computed as `x * 20000 / 15` in C. */
  function CurrentMicroamps(i: int): (r: int)
    ensures CInt.IsTruncQuotient(i * 20000, 15, r)
    ensures i >= 0 ==> r == i * 20000 / 15
  {
    CInt.DivNonNegative(if i >= 0 then i * 20000 else 0, 15);
    CInt.Div(i * 20000, 15)
  }

  /** Battery voltage in microvolts from processed voltage and current
      readings: twice the divided-down voltage plus the 0.2 V transistor
      drop plus the shunt drop `i * 1000 / 15`. */
  function VoltageMicrovolts(v: int, i: int): (r: int)
    ensures CInt.IsTruncQuotient(i * 1000, 15, r - v * 2000 - 200000)
    ensures i >= 0 ==> r == v * 2000 + 200000 + i * 1000 / 15
  {
    CInt.DivNonNegative(if i >= 0 then i * 1000 else 0, 15);
    v * 2000 + 200000 + CInt.Div(i * 1000, 15)
  }

  // ---------------------------------------------------------------------
  // Property read

  /** A live processed read with the driver's error classification: a busy
      channel yields the stored fallback, "no device" and "try again" pass
      through, and every other error becomes "no data". */
  function LiveOrFallback(read: ChannelRead, fallback: int): (r: GetResult)
    ensures r.Error? <==> read.Err? && read.ret != -EBUSY
    ensures read.Ok? ==> r == Value(read.value)
    ensures read == Err(-EBUSY) ==> r == Value(fallback)
    ensures read.Err? && (read.ret == -ENODEV || read.ret == -EAGAIN) ==> r == Error(read.ret)
    ensures read.Err? && read.ret != -EBUSY && read.ret != -ENODEV && read.ret != -EAGAIN ==>
              r == Error(-ENODATA)
  {
    match read
    case Ok(x) => Value(x)
    case Err(ret) =>
      if ret == -EBUSY then Value(fallback)
      else if ret == -ENODEV || ret == -EAGAIN then Error(ret)
      else Error(-ENODATA)
  }

  /** `get_property`: `vRead` and `iRead` are what the voltage and the
      current channel would return if the driver read them during this
      call. VOLTAGE_NOW reads the voltage channel first and consults the
      current channel only if that read gave a value; CURRENT_NOW reads
      only the current channel. */
  function GetProperty(s: State, psp: Property, vRead: ChannelRead, iRead: ChannelRead): (r: GetResult)
    ensures r.Error? ==> r.ret == -EINVAL || r.ret == -ENODEV || r.ret == -EAGAIN || r.ret == -ENODATA
    ensures r == Error(-EINVAL) <==> psp.OtherProperty?
    ensures psp == Technology ==> r == Value(s.technology)
    ensures psp == VoltageMaxDesign ==> r == Value(s.vMax)
    ensures psp == VoltageMinDesign ==> r == Value(s.vMin)
    ensures psp == Scope ==> r == Value(SCOPE_SYSTEM)
  {
    match psp
    case Technology => Value(s.technology)
    case VoltageNow =>
      (match LiveOrFallback(vRead, s.vNow)
       case Error(e) => Error(e)
       case Value(v) =>
         match LiveOrFallback(iRead, s.cNow)
         case Error(e) => Error(e)
         case Value(i) => Value(VoltageMicrovolts(v, i)))
    case VoltageMaxDesign => Value(s.vMax)
    case VoltageMinDesign => Value(s.vMin)
    case CurrentNow =>
      (match LiveOrFallback(iRead, s.cNow)
       case Error(e) => Error(e)
       case Value(i) => Value(CurrentMicroamps(i)))
    case Scope => Value(SCOPE_SYSTEM)
    case OtherProperty(_) => Error(-EINVAL)
  }

  // ---------------------------------------------------------------------
  // Property write and writability

  /** What `set_property` returns, with the state it leaves. */
  datatype SetOutcome = SetOutcome(ret: int, next: State)

  /** `set_property`: only TECHNOLOGY, only from Unknown, and only to NiMH,
      which also assigns the NiMH design bounds. */
  function SetProperty(s: State, psp: Property, intval: int): (o: SetOutcome)
    ensures o.ret == 0 || o.ret == -EINVAL
    ensures o.ret == 0 <==> psp == Technology && s.technology == TECHNOLOGY_UNKNOWN && intval == TECHNOLOGY_NIMH
    ensures o.ret == 0 ==> o.next == s.(technology := TECHNOLOGY_NIMH, vMax := NIMH_V_MAX, vMin := NIMH_V_MIN)
    ensures o.ret != 0 ==> o.next == s
    ensures Valid(s) ==> Valid(o.next)
    ensures s.technology != TECHNOLOGY_UNKNOWN ==> o.next.technology != TECHNOLOGY_UNKNOWN
  {
    match psp
    case Technology =>
      if s.technology != TECHNOLOGY_UNKNOWN then SetOutcome(-EINVAL, s)
      else if intval == TECHNOLOGY_NIMH then
        SetOutcome(0, s.(technology := TECHNOLOGY_NIMH, vMax := NIMH_V_MAX, vMin := NIMH_V_MIN))
      else SetOutcome(-EINVAL, s)
    case _ => SetOutcome(-EINVAL, s)
  }

  /** `property_is_writeable`: true exactly when some write to `psp` can
      still succeed. */
  function IsWriteable(s: State, psp: Property): (w: bool)
    ensures w ==> SetProperty(s, psp, TECHNOLOGY_NIMH).ret == 0
    ensures !w ==> forall v :: SetProperty(s, psp, v).ret == -EINVAL
  {
    psp == Technology && s.technology == TECHNOLOGY_UNKNOWN
  }

  // ---------------------------------------------------------------------
  // Probe

  /** The state left by the strap branch of `probe` on a zeroed structure:
      a set strap means a 2-cell Li-ion pack, a clear one 6 AA cells of
      unknown chemistry. */
  function Probed(rechargeable: bool): (s: State)
    ensures Valid(s)
    ensures s.vNow == 0 && s.cNow == 0
    ensures s.technology == if rechargeable then TECHNOLOGY_LION else TECHNOLOGY_UNKNOWN
    ensures IsWriteable(s, Technology) <==> !rechargeable
  {
    if rechargeable then State(TECHNOLOGY_LION, LION_V_MAX, LION_V_MIN, 0, 0)
    else State(TECHNOLOGY_UNKNOWN, ALKALINE_V_MAX, ALKALINE_V_MIN, 0, 0)
  }
}
