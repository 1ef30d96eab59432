/** The device update protocol shared by both copies of `update_device`
    (src/lib.rs and src/web_routes.rs): the typed errors, the per-device field
    application and the effect of one whole request on the devices of a home. */
module Protocol {
  import opened Wrappers
  import opened Text
  import opened FloatParse
  import opened SmartDevice

  /** Where a device lives: the room name and the device name. */
  datatype Path = Path(room: string, device: string)

  /** The query string split into key/value pairs, values not percent-decoded:
      key to value, keys compared exactly. */
  type Instructions = map<string, string>

  /** `HandleRequestError`. `BadDeviceDict` carries the rejected instructions
      themselves rather than their debug rendering. */
  datatype HandleRequestError =
    | DeviceNotFound(path: string)
    | BadDeviceDict(dict: Instructions)
    | ParseFloatError(kind: FloatErrorKind)

  /** `HandleRequestResult<T>`; failure-compatible so that `:-` plays Rust's `?`. */
  datatype HandleRequestResult<+T> = Ok(value: T) | Err(error: HandleRequestError)
  {
    predicate IsFailure() { Err? }

    function PropagateFailure<U>(): HandleRequestResult<U>
      requires Err?
    {
      Err(error)
    }

    function Extract(): T
      requires Ok?
    {
      value
    }
  }

  type UpdateResult = HandleRequestResult<()>

  /** What one request does to the one device it addresses. */
  datatype Outcome = Outcome(result: UpdateResult, device: Device)

  /** What one request does to the whole home. */
  datatype Transition = Transition(result: UpdateResult, devices: map<Path, Device>)

  /** An HTTP response: status code and body text. */
  datatype Response = Response(status: int, body: string)

  /** The `DeviceNotFound` payload `"{room_name}/{device_name}"`. */
  function PathText(room: string, name: string): string
  {
    room + "/" + name
  }

  /** The socket `state` value, lower-cased, in either language: the tokens
      that switch on are exactly the case variants of `on` and `вкл`, those
      that switch off exactly the case variants of `off` and `выкл`. */
  function StateToken(s: string): (r: Option<bool>)
    ensures r == Some(true) <==> CaseVariant(s, "on", "ON") || CaseVariant(s, "вкл", "ВКЛ")
    ensures r == Some(false) <==> CaseVariant(s, "off", "OFF") || CaseVariant(s, "выкл", "ВЫКЛ")
  {
    LowerEqualsIffCaseVariant(s, "on", "ON");
    LowerEqualsIffCaseVariant(s, "вкл", "ВКЛ");
    LowerEqualsIffCaseVariant(s, "off", "OFF");
    LowerEqualsIffCaseVariant(s, "выкл", "ВЫКЛ");
    var t := Lower(s);
    if t == "on" || t == "вкл" then Some(true)
    else if t == "off" || t == "выкл" then Some(false)
    else None
  }

  /** `text.parse()?`: a parse failure becomes `ParseFloatError` through `From`. */
  function ParseField(text: string): (r: HandleRequestResult<Float>)
    ensures r.Ok? <==> ParseFloat(text).Number?
    ensures r.Ok? ==> ParseFloat(text) == Number(r.value)
    ensures r.Err? ==> r.error == ParseFloatError(ParseFloat(text).kind)
  {
    match ParseFloat(text)
    case Number(x) => Ok(x)
    case Failure(k) => Err(ParseFloatError(k))
  }

  /** The socket branch once the claimed kind has matched: `state`, then
      `current`, then `voltage`, each only when present, stopping at the first
      bad value with the earlier fields already written. */
  function ApplySocketFields(d: Device, data: Instructions): (o: Outcome)
    requires d.Socket?
    ensures o.device.Socket?
    // success exactly when every present field is acceptable
    ensures o.result.Ok? <==>
              && ("state" in data ==> StateToken(data["state"]).Some?)
              && ("current" in data ==> ParseFloat(data["current"]).Number?)
              && ("voltage" in data ==> ParseFloat(data["voltage"]).Number?)
    // a bad state token is seen before anything is written
    ensures o.result.Err? && o.result.error.BadDeviceDict? ==> o.device == d
    // every field either keeps its value or takes the value its own key gave
    ensures o.device.isOn == d.isOn || ("state" in data && StateToken(data["state"]) == Some(o.device.isOn))
    ensures o.device.current == d.current || ("current" in data && ParseFloat(data["current"]) == Number(o.device.current))
    ensures o.device.voltage == d.voltage || ("voltage" in data && ParseFloat(data["voltage"]) == Number(o.device.voltage))
    // on success every present field has been written
    ensures o.result.Ok? ==>
              o.device == Socket(if "voltage" in data then ParseFloat(data["voltage"]).value else d.voltage,
                                 if "current" in data then ParseFloat(data["current"]).value else d.current,
                                 if "state" in data then StateToken(data["state"]).value else d.isOn)
  {
    if "state" in data && StateToken(data["state"]).None? then
      Outcome(Err(BadDeviceDict(data)), d)
    else
      var switched := if "state" in data then d.(isOn := StateToken(data["state"]).value) else d;
      if "current" in data && ParseField(data["current"]).Err? then
        Outcome(ParseField(data["current"]).PropagateFailure(), switched)
      else
        var withCurrent := if "current" in data then switched.(current := ParseField(data["current"]).value) else switched;
        if "voltage" in data && ParseField(data["voltage"]).Err? then
          Outcome(ParseField(data["voltage"]).PropagateFailure(), withCurrent)
        else
          var withVoltage := if "voltage" in data then withCurrent.(voltage := ParseField(data["voltage"]).value) else withCurrent;
          Outcome(Ok(()), withVoltage)
  }

  /** The thermometer branch once the claimed kind has matched: only
      `temperature` is looked at. */
  function ApplyThermometerFields(d: Device, data: Instructions): (o: Outcome)
    requires d.Thermometer?
    ensures o.device.Thermometer?
    ensures o.result.Ok? <==> ("temperature" in data ==> ParseFloat(data["temperature"]).Number?)
    ensures o.result.Err? ==> o.result.error.ParseFloatError? && o.device == d
    ensures o.device != d <==> o.result.Ok? && "temperature" in data && ParseFloat(data["temperature"]) != Number(d.temperature)
    ensures o.result.Ok? && "temperature" in data ==> ParseFloat(data["temperature"]) == Number(o.device.temperature)
  {
    if "temperature" in data then
      match ParseField(data["temperature"])
      case Ok(t) => Outcome(Ok(()), d.(temperature := t))
      case Err(e) => Outcome(Err(e), d)
    else
      Outcome(Ok(()), d)
  }

  /** The kind check and the field application for a resolved device, given
      the lower-cased claimed kind. */
  function ApplyInstructions(d: Device, claimed: string, data: Instructions): (o: Outcome)
    requires !d.Unknown?
    ensures SameKind(o.device, d)
    ensures claimed != KindName(d) ==> o == Outcome(Err(BadDeviceDict(data)), d)
    ensures o.result.Err? && !o.result.error.ParseFloatError? ==> o.device == d
  {
    if d.Socket? then
      if claimed == "socket" then ApplySocketFields(d, data) else Outcome(Err(BadDeviceDict(data)), d)
    else
      if claimed == "thermometer" then ApplyThermometerFields(d, data) else Outcome(Err(BadDeviceDict(data)), d)
  }

  /** The one input on which the source aborts (`todo!()`): a request with a
      `device` key whose path holds an `Unknown` device. */
  predicate UnknownExcluded(devices: map<Path, Device>, room: string, name: string, data: Instructions)
  {
    "device" in data && Path(room, name) in devices ==> !devices[Path(room, name)].Unknown?
  }

  /** The effect of one `update_device(room, name, data)` request on the devices
      of a home: the `device` key is required before anything else, then the
      path must resolve, then the addressed device is updated. */
  function UpdateEffect(devices: map<Path, Device>, room: string, name: string, data: Instructions): (t: Transition)
    requires UnknownExcluded(devices, room, name, data)
    // no device appears or disappears, and no device changes kind
    ensures t.devices.Keys == devices.Keys
    ensures forall p | p in devices :: SameKind(t.devices[p], devices[p])
    // only the addressed device can change
    ensures forall p | p in devices && p != Path(room, name) :: t.devices[p] == devices[p]
    // only a parse failure can leave a partial update behind
    ensures t.result.Err? && !t.result.error.ParseFloatError? ==> t.devices == devices
    // not found exactly when the key is there and the path is not
    ensures t.result.Err? && t.result.error.DeviceNotFound? <==> "device" in data && Path(room, name) !in devices
    ensures t.result.Err? && t.result.error.DeviceNotFound? ==> t.result.error.path == PathText(room, name)
    // a missing key and a kind mismatch both echo the instructions
    ensures t.result.Err? && t.result.error.BadDeviceDict? ==> t.result.error.dict == data
  {
    if "device" !in data then
      Transition(Err(BadDeviceDict(data)), devices)
    else if Path(room, name) !in devices then
      Transition(Err(DeviceNotFound(PathText(room, name))), devices)
    else
      var p := Path(room, name);
      var o := ApplyInstructions(devices[p], Lower(data["device"]), data);
      Transition(o.result, devices[p := o.device])
  }
}
