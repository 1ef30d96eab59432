/** The stored device value. The setters of the device module (`switch`,
    `set_current`, `set_voltage`, `set_temperature`) are written here as
    datatype updates of one field each. */
module SmartDevice {
  import opened FloatParse

  datatype Device =
    | Socket(voltage: Float, current: Float, isOn: bool)
    | Thermometer(temperature: Float)
    | Unknown

  /** The two variants share no tag and a tag is all that survives an update. */
  predicate SameKind(a: Device, b: Device)
  {
    a.Socket? == b.Socket? && a.Thermometer? == b.Thermometer? && a.Unknown? == b.Unknown?
  }

  /** The lower-case word that a request must claim for a stored variant. */
  function KindName(d: Device): string
    requires !d.Unknown?
  {
    if d.Socket? then "socket" else "thermometer"
  }
}
