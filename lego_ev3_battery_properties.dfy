/** What the driver promises about its property reads and writes, stated
    over the value model in `Ev3Battery`: the calibrated readings, the
    error classification of live reads, the absence of 32-bit overflow for
    plausible readings, and the write-once technology over any sequence of
    writes. */
module Ev3BatteryProperties {
  import opened PowerSupply
  import opened Ev3Battery
  import CInt

  // ---------------------------------------------------------------------
  // CURRENT_NOW

  /** CURRENT_NOW is the calibrated live current reading, or the calibrated
      stored sample when the channel is busy; the voltage channel is never
      consulted. */
  lemma CurrentNowRead(s: State, vRead: ChannelRead, otherVRead: ChannelRead, iRead: ChannelRead)
    ensures GetProperty(s, CurrentNow, vRead, iRead) == GetProperty(s, CurrentNow, otherVRead, iRead)
    ensures iRead.Ok? ==> GetProperty(s, CurrentNow, vRead, iRead) == Value(CurrentMicroamps(iRead.value))
    ensures iRead == Err(-EBUSY) ==> GetProperty(s, CurrentNow, vRead, iRead) == Value(CurrentMicroamps(s.cNow))
    ensures iRead.Err? && iRead.ret != -EBUSY ==>
              GetProperty(s, CurrentNow, vRead, iRead) == LiveOrFallback(iRead, s.cNow)
  {
  }

  /** With a busy current channel CURRENT_NOW never fails: it reports the
      stored sample scaled to microamps, between 0 and 6666666. */
  lemma BusyCurrentNeverFails(s: State, vRead: ChannelRead)
    requires Valid(s)
    ensures GetProperty(s, CurrentNow, vRead, Err(-EBUSY)) == Value(s.cNow * 20000 / 15)
    ensures 0 <= s.cNow * 20000 / 15 <= 6666666
  {
  }

  // ---------------------------------------------------------------------
  // VOLTAGE_NOW

  /** The reading a channel contributes when it does not fail: the live
      value, or the stored sample when the channel is busy. */
  function Reading(read: ChannelRead, stored: int): (x: int)
    requires read.Ok? || read == Err(-EBUSY)
    ensures LiveOrFallback(read, stored) == Value(x)
  {
    if read.Ok? then read.value else stored
  }

  /** VOLTAGE_NOW combines the voltage reading `v` and the current reading
      `i` (each live, or stored when busy) as `v * 2000 + 200000 + i * 1000 / 15`
      with C's division; if either channel fails otherwise, its classified
      error is returned. */
  lemma VoltageNowRead(s: State, vRead: ChannelRead, iRead: ChannelRead)
    ensures (vRead.Ok? || vRead == Err(-EBUSY)) && (iRead.Ok? || iRead == Err(-EBUSY)) ==>
              GetProperty(s, VoltageNow, vRead, iRead)
                == Value(VoltageMicrovolts(Reading(vRead, s.vNow), Reading(iRead, s.cNow)))
    ensures vRead.Err? && vRead.ret != -EBUSY ==>
              GetProperty(s, VoltageNow, vRead, iRead) == LiveOrFallback(vRead, s.vNow)
    ensures (vRead.Ok? || vRead == Err(-EBUSY)) && iRead.Err? && iRead.ret != -EBUSY ==>
              GetProperty(s, VoltageNow, vRead, iRead) == LiveOrFallback(iRead, s.cNow)
  {
  }

  /** A voltage-channel error other than busy short-circuits: the current
      channel's result makes no difference. */
  lemma VoltageErrorShortCircuits(s: State, vRead: ChannelRead, iRead: ChannelRead, otherIRead: ChannelRead)
    requires vRead.Err? && vRead.ret != -EBUSY
    ensures GetProperty(s, VoltageNow, vRead, iRead).Error?
    ensures GetProperty(s, VoltageNow, vRead, iRead) == GetProperty(s, VoltageNow, vRead, otherIRead)
  {
  }

  /** Live reads fail only as "no device", "try again" (both passed through
      unchanged) or "no data"; a busy channel never makes them fail. */
  lemma LiveReadErrors(s: State, psp: Property, vRead: ChannelRead, iRead: ChannelRead)
    requires psp == VoltageNow || psp == CurrentNow
    ensures GetProperty(s, psp, vRead, iRead).Error? ==>
              var e := GetProperty(s, psp, vRead, iRead).ret;
              (e == -ENODEV || e == -EAGAIN || e == -ENODATA) &&
              ((vRead.Err? && vRead.ret == e) || (iRead.Err? && iRead.ret == e) || e == -ENODATA)
    ensures vRead == Err(-EBUSY) && iRead == Err(-EBUSY) ==> GetProperty(s, psp, vRead, iRead).Value?
  {
  }

  /** With both channels busy, VOLTAGE_NOW on a valid state lies between
      0.2 V and 10.533333 V. */
  lemma BusyVoltageBounds(s: State)
    requires Valid(s)
    ensures var r := GetProperty(s, VoltageNow, Err(-EBUSY), Err(-EBUSY));
            r.Value? && 200000 <= r.intval <= 10533333
  {
  }

  // ---------------------------------------------------------------------
  // 32-bit range

  /** For a current reading of magnitude at most 107374 every value the
      C code forms for CURRENT_NOW fits a 32-bit `int`. */
  lemma CurrentNoOverflow(i: int)
    requires -107374 <= i <= 107374
    ensures CInt.InInt(i * 20000) && CInt.InInt(CurrentMicroamps(i))
  {
  }

  /** For readings of magnitude at most 1000000 every value the C code forms
      for VOLTAGE_NOW fits a 32-bit `int`. */
  lemma VoltageNoOverflow(v: int, i: int)
    requires -1000000 <= v <= 1000000 && -1000000 <= i <= 1000000
    ensures CInt.InInt(v * 2000) && CInt.InInt(v * 2000 + 200000)
    ensures CInt.InInt(i * 1000) && CInt.InInt(CInt.Div(i * 1000, 15))
    ensures CInt.InInt(VoltageMicrovolts(v, i))
  {
  }

  // ---------------------------------------------------------------------
  // Sequences of writes

  /** One `set_property` call. */
  datatype Write = Write(psp: Property, intval: int)

  /** The state after the writes, applied in order. */
  function ApplyWrites(s: State, ws: seq<Write>): State
    decreases |ws|
  {
    if ws == [] then s
    else ApplyWrites(SetProperty(s, ws[0].psp, ws[0].intval).next, ws[1..])
  }

  /** How many of the writes return success. */
  function Successes(s: State, ws: seq<Write>): nat
    decreases |ws|
  {
    if ws == [] then 0
    else
      var o := SetProperty(s, ws[0].psp, ws[0].intval);
      (if o.ret == 0 then 1 else 0) + Successes(o.next, ws[1..])
  }

  /** Write-once: once the technology is known, no sequence of writes
      succeeds or changes any field. */
  lemma {:induction false} WriteOnce(s: State, ws: seq<Write>)
    requires s.technology != TECHNOLOGY_UNKNOWN
    ensures ApplyWrites(s, ws) == s
    ensures Successes(s, ws) == 0
    decreases |ws|
  {
    if ws != [] {
      WriteOnce(SetProperty(s, ws[0].psp, ws[0].intval).next, ws[1..]);
    }
  }

  /** From Unknown, any sequence of writes leaves the state as it was or
      switches it to NiMH with the NiMH bounds; at most one write succeeds,
      and one does exactly when the state changed. */
  lemma {:induction false} WritesFromUnknown(s: State, ws: seq<Write>)
    requires s.technology == TECHNOLOGY_UNKNOWN
    ensures var t := ApplyWrites(s, ws);
            t == s || t == s.(technology := TECHNOLOGY_NIMH, vMax := NIMH_V_MAX, vMin := NIMH_V_MIN)
    ensures Successes(s, ws) <= 1
    ensures Successes(s, ws) == 1 <==> ApplyWrites(s, ws) != s
    decreases |ws|
  {
    if ws != [] {
      var o := SetProperty(s, ws[0].psp, ws[0].intval);
      if o.ret == 0 {
        WriteOnce(o.next, ws[1..]);
      } else {
        WritesFromUnknown(o.next, ws[1..]);
      }
    }
  }

  /** The technology never returns to Unknown, whatever is written. */
  lemma {:induction false} NeverBackToUnknown(s: State, ws: seq<Write>)
    requires s.technology != TECHNOLOGY_UNKNOWN
    ensures ApplyWrites(s, ws).technology != TECHNOLOGY_UNKNOWN
  {
    WriteOnce(s, ws);
  }

  /** Writes preserve the driver invariant. */
  lemma {:induction false} WritesPreserveValid(s: State, ws: seq<Write>)
    requires Valid(s)
    ensures Valid(ApplyWrites(s, ws))
    decreases |ws|
  {
    if ws != [] {
      WritesPreserveValid(SetProperty(s, ws[0].psp, ws[0].intval).next, ws[1..]);
    }
  }

  /** TECHNOLOGY stays writable exactly until the first successful write. */
  lemma WriteableUntilFirstSuccess(s: State, ws: seq<Write>)
    ensures IsWriteable(ApplyWrites(s, ws), Technology) <==>
              IsWriteable(s, Technology) && Successes(s, ws) == 0
  {
    if s.technology == TECHNOLOGY_UNKNOWN {
      WritesFromUnknown(s, ws);
    } else {
      WriteOnce(s, ws);
    }
  }

  /** A Li-ion pack detected at probe can never be overridden. */
  lemma {:induction false} LionNeverOverridden(ws: seq<Write>)
    ensures ApplyWrites(Probed(true), ws) == Probed(true)
    ensures forall psp :: !IsWriteable(ApplyWrites(Probed(true), ws), psp)
  {
    WriteOnce(Probed(true), ws);
  }

  /** On an alkaline-strapped probe the NiMH write succeeds once with the
      NiMH bounds, after which every write fails. */
  lemma NiMHOverrideOnce(intval: int)
    ensures var o := SetProperty(Probed(false), Technology, TECHNOLOGY_NIMH);
            o.ret == 0 && o.next.vMax == 7800000 && o.next.vMin == 5400000 &&
            SetProperty(o.next, Technology, intval).ret == -EINVAL
  {
  }

  // ---------------------------------------------------------------------
  // Callback and writes

  /** The sample callback and a write touch disjoint fields: either order
      gives the same return value and the same state. */
  lemma SampleCommutesWithWrite(s: State, psp: Property, intval: int, rawCurrent: bv16, rawVoltage: bv16)
    ensures var o := SetProperty(s, psp, intval);
            SetProperty(Sampled(s, rawCurrent, rawVoltage), psp, intval)
              == SetOutcome(o.ret, Sampled(o.next, rawCurrent, rawVoltage))
  {
  }
}
