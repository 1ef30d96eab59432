/** The home as the update protocol sees it: the stored devices keyed by path.
    The room and device collections behind it (`home`, `smart_room`) are not
    part of this model; only path lookup and writing a device back are used. */
module HomeModel {
  import opened Wrappers
  import opened SmartDevice
  import opened Protocol

  class Home {
    var devices: map<Path, Device>

    constructor (devices: map<Path, Device>)
      ensures this.devices == devices
    {
      this.devices := devices;
    }

    /** `get_device_by_path_mut`: exact match on both names. */
    function GetDeviceByPath(room: string, name: string): (r: Option<Device>)
      reads this
      ensures r.Some? <==> Path(room, name) in devices
      ensures r.Some? ==> r.value == devices[Path(room, name)]
    {
      if Path(room, name) in devices then Some(devices[Path(room, name)]) else None
    }

    /** A write through the `&mut Device` that the lookup handed out. */
    method SetDevice(room: string, name: string, d: Device)
      requires Path(room, name) in devices
      modifies this
      ensures devices == old(devices)[Path(room, name) := d]
    {
      devices := devices[Path(room, name) := d];
    }
  }
}
