/** The second copy of the update handler (src/web_routes.rs). Its
    `update_device` reaches the device through `ok_or_else(...)?` rather than
    a `match`, and its `update` answers an error with the error's display text. */
module WebRoutes {
  import opened Wrappers
  import opened Text
  import opened FloatParse
  import opened SmartDevice
  import opened Protocol
  import opened HomeModel
  import Lib

  /** `data.get(key).ok_or_else(|| BadDeviceDict(..))`. */
  function Require(data: Instructions, key: string): (r: HandleRequestResult<string>)
    ensures r.Ok? <==> key in data
    ensures r.Ok? ==> r.value == data[key]
    ensures r.Err? ==> r.error == BadDeviceDict(data)
  {
    if key in data then Ok(data[key]) else Err(BadDeviceDict(data))
  }

  /** `get_device_by_path_mut(..).ok_or_else(|| DeviceNotFound(..))`. */
  function FoundAt(found: Option<Device>, roomName: string, deviceName: string): (r: HandleRequestResult<Device>)
    ensures r.Ok? <==> found.Some?
    ensures r.Ok? ==> found == Some(r.value)
    ensures r.Err? ==> r.error == DeviceNotFound(PathText(roomName, deviceName))
  {
    match found
    case Some(d) => Ok(d)
    case None => Err(DeviceNotFound(PathText(roomName, deviceName)))
  }

  /** `update_device`, second copy. The match arms are the same text as in
      the first copy and are shared with it. */
  method UpdateDevice(home: Home, roomName: string, deviceName: string, data: Instructions)
    returns (r: UpdateResult)
    requires UnknownExcluded(home.devices, roomName, deviceName, data)
    modifies home
    ensures Transition(r, home.devices) == UpdateEffect(old(home.devices), roomName, deviceName, data)
  {
    var claimed :- Require(data, "device");
    var deviceString := Lower(claimed);
    // From here on the write lock is held.
    var device :- FoundAt(home.GetDeviceByPath(roomName, deviceName), roomName, deviceName);
    match device {
      case Socket(_, _, _) =>
        if deviceString == "socket" {
          r := Lib.UpdateSocket(home, roomName, deviceName, data);
          if r.Err? {
            return;
          }
        } else {
          return Err(BadDeviceDict(data));
        }
      case Thermometer(_) =>
        if deviceString == "thermometer" {
          r := Lib.UpdateThermometer(home, roomName, deviceName, data);
          if r.Err? {
            return;
          }
        } else {
          return Err(BadDeviceDict(data));
        }
    }
    return Ok(());
  }

  /** The `Display` text of each error (`#[error(...)]`). The debug rendering
      of the instructions that `BadDeviceDict` shows is supplied by the caller,
      since the order in which a hash map prints its entries is unspecified. */
  function Display(e: HandleRequestError, dictText: string): (r: string)
    // a fixed prefix per variant, then the payload, then a full stop
    ensures e.DeviceNotFound? ==> |r| == 18 + |e.path| && r[..17] == "Device not found " && r[17..|r| - 1] == e.path && r[|r| - 1] == '.'
    ensures e.BadDeviceDict? ==> |r| == 22 + |dictText| && r[..21] == "Error in device dict " && r[21..|r| - 1] == dictText && r[|r| - 1] == '.'
    ensures e.ParseFloatError? ==> |r| == 19 + |ErrorText(e.kind)| && r[..18] == "Parse float error " && r[18..|r| - 1] == ErrorText(e.kind) && r[|r| - 1] == '.'
  {
    match e
    case DeviceNotFound(path) => "Device not found " + path + "."
    case BadDeviceDict(_) => "Error in device dict " + dictText + "."
    case ParseFloatError(k) => "Parse float error " + ErrorText(k) + "."
  }

  /** The response of `update`: 200 with no body on success; on every error
      400 whose body is the error's display text. */
  function Respond(r: UpdateResult, dictText: string): (resp: Response)
    ensures resp.status == 200 <==> r.Ok?
    ensures r.Ok? ==> resp.body == ""
    ensures r.Err? ==> resp.status == 400 && resp.body == Display(r.error, dictText)
  {
    match r
    case Ok(_) => Response(200, "")
    case Err(e) =>
      match e
      case DeviceNotFound(_) => Response(400, Display(e, dictText))
      case BadDeviceDict(_) => Response(400, Display(e, dictText))
      case ParseFloatError(_) => Response(400, Display(e, dictText))
  }

  /** `update`, second copy. */
  method Update(home: Home, roomName: string, deviceName: string, data: Instructions, dictText: string)
    returns (resp: Response)
    requires UnknownExcluded(home.devices, roomName, deviceName, data)
    modifies home
    ensures var t := UpdateEffect(old(home.devices), roomName, deviceName, data);
            resp == Respond(t.result, dictText) && home.devices == t.devices
  {
    var r := UpdateDevice(home, roomName, deviceName, data);
    resp := Respond(r, dictText);
  }

  /** Both copies of `update` give every result the same status code. */
  lemma SameStatusAsLib(r: UpdateResult, dictText: string)
    ensures Respond(r, dictText).status == Lib.Respond(r).status
  {
  }

  /** The display text tells the three errors apart, and a not-found or parse
      error's text determines the error completely. */
  lemma {:induction false} DisplayIdentifiesError(e1: HandleRequestError, e2: HandleRequestError, t1: string, t2: string)
    requires Display(e1, t1) == Display(e2, t2)
    ensures e1.DeviceNotFound? == e2.DeviceNotFound?
    ensures e1.BadDeviceDict? == e2.BadDeviceDict?
    ensures e1.ParseFloatError? == e2.ParseFloatError?
    ensures !e1.BadDeviceDict? ==> e1 == e2
  {
    var s := Display(e1, t1);
    assert s[0] == Display(e2, t2)[0];
    if e1.DeviceNotFound? && e2.DeviceNotFound? {
      var prefix := "Device not found ";
      assert e1.path == s[|prefix|..|s| - 1];
      assert e2.path == s[|prefix|..|s| - 1];
    } else if e1.ParseFloatError? && e2.ParseFloatError? {
      var s1, s2 := ErrorText(e1.kind), ErrorText(e2.kind);
      assert |s1| != |s2| || s1 == s2;
    }
  }
}
