/** The vocabulary the driver shares with the Linux power-supply class and
    the IIO consumer interface: error numbers, the technology and scope
    values a property carries, and the properties a driver is asked about. */
module PowerSupply {

  // Linux error numbers (include/uapi/asm-generic/errno-base.h, errno.h);
  // the kernel returns them negated.
  const EAGAIN: int := 11
  const EBUSY: int := 16
  const ENODEV: int := 19
  const EINVAL: int := 22
  const ENODATA: int := 61

  // Values of POWER_SUPPLY_PROP_TECHNOLOGY used by this driver.
  const TECHNOLOGY_UNKNOWN: int := 0
  const TECHNOLOGY_NIMH: int := 1
  const TECHNOLOGY_LION: int := 2

  // Value of POWER_SUPPLY_PROP_SCOPE reported by this driver.
  const SCOPE_SYSTEM: int := 1

  /** A power-supply property identifier. The six the driver lists are
      named; every other identifier of the framework's enumeration is
      `OtherProperty`, told apart only by its number. */
  datatype Property =
    | Technology
    | VoltageNow
    | VoltageMaxDesign
    | VoltageMinDesign
    | CurrentNow
    | Scope
    | OtherProperty(id: nat)

  /** A negative error number, as kernel functions return them. */
  type ErrorCode = e: int | e < 0 witness -EINVAL

  /** The result of `iio_read_channel_processed`: the processed value (a
      non-negative return), or the negative error number it returned. */
  datatype ChannelRead = Ok(value: int) | Err(ret: ErrorCode)

  /** What a `get_property` call returns: 0 with `val->intval`, or a
      negative error number. */
  datatype GetResult = Value(intval: int) | Error(ret: ErrorCode)
}
