/** The first copy of the update handler (src/lib.rs): `update_device`, run
    under the home's write lock as one atomic step, and `update`, which turns
    its result into a bare status code. */
module Lib {
  import opened Wrappers
  import opened Text
  import opened SmartDevice
  import opened Protocol
  import opened HomeModel

  /** `update_device`: the device is written in place after each accepted
      field, so an early return keeps what was written before it. */
  method UpdateDevice(home: Home, roomName: string, deviceName: string, data: Instructions)
    returns (r: UpdateResult)
    requires UnknownExcluded(home.devices, roomName, deviceName, data)
    modifies home
    ensures Transition(r, home.devices) == UpdateEffect(old(home.devices), roomName, deviceName, data)
  {
    if "device" !in data {
      return Err(BadDeviceDict(data));
    }
    var deviceString := Lower(data["device"]);
    // From here on the write lock is held.
    match home.GetDeviceByPath(roomName, deviceName) {
      case Some(device) =>
        match device {
          case Socket(_, _, _) =>
            if deviceString == "socket" {
              r := UpdateSocket(home, roomName, deviceName, data);
              if r.Err? {
                return;
              }
            } else {
              return Err(BadDeviceDict(data));
            }
          case Thermometer(_) =>
            if deviceString == "thermometer" {
              r := UpdateThermometer(home, roomName, deviceName, data);
              if r.Err? {
                return;
              }
            } else {
              return Err(BadDeviceDict(data));
            }
        }
        return Ok(());
      case None =>
        return Err(DeviceNotFound(PathText(roomName, deviceName)));
    }
  }

  /** The socket arm of `update_device` once the claimed kind has matched
      (the same text in both copies): `state`, `current`, `voltage` in that
      order, each written through the device reference as soon as it is
      accepted. */
  method UpdateSocket(home: Home, roomName: string, deviceName: string, data: Instructions)
    returns (r: UpdateResult)
    requires Path(roomName, deviceName) in home.devices && home.devices[Path(roomName, deviceName)].Socket?
    modifies home
    ensures var o := ApplySocketFields(old(home.devices[Path(roomName, deviceName)]), data);
            r == o.result && home.devices == old(home.devices)[Path(roomName, deviceName) := o.device]
  {
    ghost var before, path := home.devices, Path(roomName, deviceName);
    var device := home.devices[Path(roomName, deviceName)];
    if "state" in data {
      match StateToken(data["state"]) {
        case Some(on) =>
          device := device.(isOn := on);
          home.SetDevice(roomName, deviceName, device);
        case None =>
          return Err(BadDeviceDict(data));
      }
    }
    assert home.devices == before[path := device];
    if "current" in data {
      var current :- ParseField(data["current"]);
      device := device.(current := current);
      home.SetDevice(roomName, deviceName, device);
    }
    assert home.devices == before[path := device];
    if "voltage" in data {
      var voltage :- ParseField(data["voltage"]);
      device := device.(voltage := voltage);
      home.SetDevice(roomName, deviceName, device);
    }
    assert home.devices == before[path := device];
    return Ok(());
  }

  /** The thermometer arm of `update_device` once the claimed kind has
      matched: only `temperature`. */
  method UpdateThermometer(home: Home, roomName: string, deviceName: string, data: Instructions)
    returns (r: UpdateResult)
    requires Path(roomName, deviceName) in home.devices && home.devices[Path(roomName, deviceName)].Thermometer?
    modifies home
    ensures var o := ApplyThermometerFields(old(home.devices[Path(roomName, deviceName)]), data);
            r == o.result && home.devices == old(home.devices)[Path(roomName, deviceName) := o.device]
  {
    var device := home.devices[Path(roomName, deviceName)];
    if "temperature" in data {
      var temperature :- ParseField(data["temperature"]);
      device := device.(temperature := temperature);
      home.SetDevice(roomName, deviceName, device);
    }
    return Ok(());
  }

  /** The response of `update`: 200 on success, 400 on any error, no body. */
  function Respond(r: UpdateResult): (resp: Response)
    ensures resp.status == 200 <==> r.Ok?
    ensures r.Err? ==> resp.status == 400
    ensures resp.body == ""
  {
    match r
    case Ok(_) => Response(200, "")
    case Err(_) => Response(400, "")
  }

  /** `update`: the path segments and the query string, split into key/value pairs, go to
      `update_device`, whose result becomes the response. */
  method Update(home: Home, roomName: string, deviceName: string, data: Instructions)
    returns (resp: Response)
    requires UnknownExcluded(home.devices, roomName, deviceName, data)
    modifies home
    ensures var t := UpdateEffect(old(home.devices), roomName, deviceName, data);
            resp == Respond(t.result) && home.devices == t.devices
  {
    var r := UpdateDevice(home, roomName, deviceName, data);
    resp := Respond(r);
  }
}
