/** The driver's per-device structure as an object: the strap branch of
    probe initialises its fields, the IIO buffer callback stores decoded
    samples in it, and `set_property` assigns the technology and bounds in
    place. Each method is proved against the value model in `Ev3Battery`;
    property reads and writability are the functions `Ev3Battery.GetProperty`
    and `Ev3Battery.IsWriteable` applied to `Snapshot()`. */
module Ev3BatteryDriver {
  import opened PowerSupply
  import opened Ev3Battery

  class Battery {
    var technology: int
    var vMax: int
    var vMin: int
    var vNow: int
    var cNow: int

    /** The fields as a value of the model. */
    function Snapshot(): State
      reads this
    {
      State(technology, vMax, vMin, vNow, cNow)
    }

    /** The structure as `probe` leaves it: zeroed by the allocation, then
        technology and design bounds chosen from the rechargeable strap. */
    constructor Probe(rechargeable: bool)
      ensures Snapshot() == Probed(rechargeable)
      ensures Valid(Snapshot())
    {
      vNow, cNow := 0, 0;
      if rechargeable {
        // 2-cell Li-ion, 7.4 V nominal
        technology := TECHNOLOGY_LION;
        vMax := LION_V_MAX;
        vMin := LION_V_MIN;
      } else {
        // 6 AA alkaline cells, 9 V nominal
        technology := TECHNOLOGY_UNKNOWN;
        vMax := ALKALINE_V_MAX;
        vMin := ALKALINE_V_MIN;
      }
    }

    /** The IIO buffer callback: `raw` holds the current word, then the
        voltage word, in the layout of the ti-ads7957 ADC driver (this
        layout is the callback's assumption about its data). */
    method IioCallback(raw: array<bv16>) returns (ret: int)
      requires raw.Length >= 2
      modifies this
      ensures ret == 0
      ensures Snapshot() == Sampled(old(Snapshot()), raw[0], raw[1])
      ensures old(Valid(Snapshot())) ==> Valid(Snapshot())
    {
      cNow := Decode(raw[0]);
      vNow := Decode(raw[1]);
      ret := 0;
    }

    /** `set_property`, in place. */
    method SetProperty(psp: Property, intval: int) returns (ret: int)
      modifies this
      ensures ret == Ev3Battery.SetProperty(old(Snapshot()), psp, intval).ret
      ensures Snapshot() == Ev3Battery.SetProperty(old(Snapshot()), psp, intval).next
      ensures ret == 0 <==> old(technology) == TECHNOLOGY_UNKNOWN && psp == Technology && intval == TECHNOLOGY_NIMH
      ensures ret != 0 ==> unchanged(this)
      ensures vNow == old(vNow) && cNow == old(cNow)
    {
      match psp
      case Technology =>
        if technology != TECHNOLOGY_UNKNOWN {
          return -EINVAL;
        }
        if intval == TECHNOLOGY_NIMH {
          technology := TECHNOLOGY_NIMH;
          vMax := NIMH_V_MAX;
          vMin := NIMH_V_MIN;
          ret := 0;
        } else {
          ret := -EINVAL;
        }
      case _ =>
        ret := -EINVAL;
    }
  }

  /** A caller's view: probe without the strap, write NiMH, then any second
      write of TECHNOLOGY is refused and leaves NiMH in place, while
      samples keep arriving. */
  method AlkalineThenNiMH(raw: array<bv16>, second: int) returns (b: Battery)
    requires raw.Length >= 2
    ensures b.technology == TECHNOLOGY_NIMH && b.vMax == NIMH_V_MAX && b.vMin == NIMH_V_MIN
    ensures !IsWriteable(b.Snapshot(), Technology)
    ensures Valid(b.Snapshot())
  {
    b := new Battery.Probe(false);
    assert IsWriteable(b.Snapshot(), Technology);
    var ret := b.SetProperty(Technology, TECHNOLOGY_NIMH);
    assert ret == 0;
    var ignored := b.IioCallback(raw);
    ret := b.SetProperty(Technology, second);
    assert ret == -EINVAL;
  }
}
