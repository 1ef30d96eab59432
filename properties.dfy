/** What one update request does, stated case by case in the order in which
    `update_device` checks things. Both copies of `update_device` are proved
    equal to `UpdateEffect`, so every lemma here holds of both. */
module UpdateProperties {
  import opened Wrappers
  import opened Text
  import opened FloatParse
  import opened SmartDevice
  import opened Protocol

  /** The instructions claim the kind of the device stored at `p`, in any case. */
  predicate ClaimsStoredKind(devices: map<Path, Device>, p: Path, data: Instructions)
  {
    && p in devices
    && !devices[p].Unknown?
    && "device" in data
    && Lower(data["device"]) == KindName(devices[p])
  }

  // ---- the `device` key ----

  /** Without a `device` key the request is rejected before the path is looked
      up: even a path that does not exist gives `BadDeviceDict`, and nothing
      changes. */
  lemma MissingDeviceKey(devices: map<Path, Device>, room: string, name: string, data: Instructions)
    requires "device" !in data
    ensures UpdateEffect(devices, room, name, data) == Transition(Err(BadDeviceDict(data)), devices)
  {
  }

  /** Keys are compared exactly: a `Device` key is not a `device` key. */
  lemma DeviceKeyIsExact(devices: map<Path, Device>, room: string, name: string, v: string)
    ensures UpdateEffect(devices, room, name, map["Device" := v]) ==
            Transition(Err(BadDeviceDict(map["Device" := v])), devices)
  {
    assert "Device" != "device" by { assert "Device"[0] != "device"[0]; }
  }

  // ---- the path ----

  /** A path that does not resolve gives `DeviceNotFound("{room}/{name}")` and
      nothing changes. */
  lemma UnresolvedPath(devices: map<Path, Device>, room: string, name: string, data: Instructions)
    requires "device" in data && Path(room, name) !in devices
    ensures UpdateEffect(devices, room, name, data) ==
            Transition(Err(DeviceNotFound(room + "/" + name)), devices)
  {
  }

  /** Against an empty home every request fails without effect: with `NotFound`
      when it has a `device` key and with `BadDeviceDict` when it has none. */
  lemma EmptyHome(room: string, name: string, data: Instructions)
    ensures var t := UpdateEffect(map[], room, name, data);
            t.devices == map[] &&
            t.result == if "device" in data then Err(DeviceNotFound(PathText(room, name))) else Err(BadDeviceDict(data))
  {
  }

  /** Room names cannot contain `/` in a route segment; for such names the
      `DeviceNotFound` payload names the path unambiguously. */
  lemma {:induction false} PathTextInjective(r1: string, n1: string, r2: string, n2: string)
    requires '/' !in r1 && '/' !in r2
    requires PathText(r1, n1) == PathText(r2, n2)
    ensures r1 == r2 && n1 == n2
  {
    var s := PathText(r1, n1);
    if |r1| < |r2| {
      SlashPosition(r1, n1, r2, n2);
      assert false;
    } else if |r2| < |r1| {
      SlashPosition(r2, n2, r1, n1);
      assert false;
    }
    assert r1 == s[..|r1|];
    assert r2 == s[..|r2|];
    assert n1 == s[|r1| + 1..];
    assert n2 == s[|r2| + 1..];
  }

  /** In `PathText(a, m) == PathText(b, n)` with `a` the shorter room name,
      the separator after `a` falls inside `b`. */
  lemma SlashPosition(a: string, m: string, b: string, n: string)
    requires PathText(a, m) == PathText(b, n) && |a| < |b|
    ensures b[|a|] == '/'
  {
    calc {
      b[|a|];
      (b + "/" + n)[|a|];
      (a + "/" + m)[|a|];
    }
  }

  /** With a `/` inside a room name two paths share one payload. */
  lemma PathTextAmbiguous()
    ensures PathText("a/b", "c") == PathText("a", "b/c")
  {
  }

  // ---- the kind check ----

  /** A claimed kind other than the stored variant's, after lower-casing, gives
      `BadDeviceDict` and leaves the device untouched. */
  lemma KindMismatch(devices: map<Path, Device>, room: string, name: string, data: Instructions)
    requires "device" in data && Path(room, name) in devices && !devices[Path(room, name)].Unknown?
    requires Lower(data["device"]) != KindName(devices[Path(room, name)])
    ensures UpdateEffect(devices, room, name, data) == Transition(Err(BadDeviceDict(data)), devices)
  {
  }

  /** A stored socket accepts exactly the case variants of `socket` as its
      kind, the Kelvin sign counting as a `K`; a request naming only the kind
      then succeeds without effect. */
  lemma SocketKindIgnoresCase(devices: map<Path, Device>, room: string, name: string, v: string)
    requires Path(room, name) in devices && devices[Path(room, name)].Socket?
    ensures UpdateEffect(devices, room, name, map["device" := v]) ==
            if CaseVariant(v, "socket", "SOCKET") then Transition(Ok(()), devices)
            else Transition(Err(BadDeviceDict(map["device" := v])), devices)
  {
    LowerEqualsIffCaseVariant(v, "socket", "SOCKET");
    assert devices[Path(room, name) := devices[Path(room, name)]] == devices;
  }

  /** The same for a stored thermometer and `thermometer`. */
  lemma ThermometerKindIgnoresCase(devices: map<Path, Device>, room: string, name: string, v: string)
    requires Path(room, name) in devices && devices[Path(room, name)].Thermometer?
    ensures UpdateEffect(devices, room, name, map["device" := v]) ==
            if CaseVariant(v, "thermometer", "THERMOMETER") then Transition(Ok(()), devices)
            else Transition(Err(BadDeviceDict(map["device" := v])), devices)
  {
    LowerEqualsIffCaseVariant(v, "thermometer", "THERMOMETER");
    assert devices[Path(room, name) := devices[Path(room, name)]] == devices;
  }

  /** Lower-casing turns the Kelvin sign into `k`, so `SOC\u{212A}ET` names a socket. */
  lemma KelvinSignSpellsSocket(devices: map<Path, Device>, room: string, name: string)
    requires Path(room, name) in devices && devices[Path(room, name)].Socket?
    ensures UpdateEffect(devices, room, name, map["device" := "SOC\U{212A}ET"]) == Transition(Ok(()), devices)
  {
    SocketKindIgnoresCase(devices, room, name, "SOC\U{212A}ET");
  }

  // ---- the socket fields ----

  /** An unrecognised `state` token gives `BadDeviceDict` before `current` or
      `voltage` are looked at, so nothing changes. */
  lemma StateRejected(devices: map<Path, Device>, room: string, name: string, data: Instructions)
    requires ClaimsStoredKind(devices, Path(room, name), data) && devices[Path(room, name)].Socket?
    requires "state" in data && StateToken(data["state"]).None?
    ensures UpdateEffect(devices, room, name, data) == Transition(Err(BadDeviceDict(data)), devices)
  {
    assert devices[Path(room, name) := devices[Path(room, name)]] == devices;
  }

  /** An accepted `state` token is written whatever happens to the later
      fields. */
  lemma StateApplied(devices: map<Path, Device>, room: string, name: string, data: Instructions)
    requires ClaimsStoredKind(devices, Path(room, name), data) && devices[Path(room, name)].Socket?
    requires "state" in data && StateToken(data["state"]).Some?
    ensures UpdateEffect(devices, room, name, data).devices[Path(room, name)].isOn == StateToken(data["state"]).value
  {
  }

  /** A socket field whose key is absent keeps its value. */
  lemma AbsentSocketFieldsKept(devices: map<Path, Device>, room: string, name: string, data: Instructions)
    requires ClaimsStoredKind(devices, Path(room, name), data) && devices[Path(room, name)].Socket?
    ensures var d, d' := devices[Path(room, name)], UpdateEffect(devices, room, name, data).devices[Path(room, name)];
            && ("state" !in data ==> d'.isOn == d.isOn)
            && ("current" !in data ==> d'.current == d.current)
            && ("voltage" !in data ==> d'.voltage == d.voltage)
  {
  }

  /** A `current` that does not parse gives `ParseFloatError`; an accepted
      `state` stays written and `voltage` is not touched. */
  lemma CurrentParseFailure(devices: map<Path, Device>, room: string, name: string, data: Instructions)
    requires ClaimsStoredKind(devices, Path(room, name), data) && devices[Path(room, name)].Socket?
    requires "state" in data ==> StateToken(data["state"]).Some?
    requires "current" in data && ParseFloat(data["current"]).Failure?
    ensures var d := devices[Path(room, name)];
            UpdateEffect(devices, room, name, data) ==
            Transition(Err(ParseFloatError(ParseFloat(data["current"]).kind)),
                       devices[Path(room, name) :=
                                 Socket(d.voltage, d.current,
                                        if "state" in data then StateToken(data["state"]).value else d.isOn)])
  {
  }

  /** A `voltage` that does not parse gives `ParseFloatError`; `state` and
      `current` stay written. */
  lemma VoltageParseFailure(devices: map<Path, Device>, room: string, name: string, data: Instructions)
    requires ClaimsStoredKind(devices, Path(room, name), data) && devices[Path(room, name)].Socket?
    requires "state" in data ==> StateToken(data["state"]).Some?
    requires "current" in data ==> ParseFloat(data["current"]).Number?
    requires "voltage" in data && ParseFloat(data["voltage"]).Failure?
    ensures var d := devices[Path(room, name)];
            UpdateEffect(devices, room, name, data) ==
            Transition(Err(ParseFloatError(ParseFloat(data["voltage"]).kind)),
                       devices[Path(room, name) :=
                                 Socket(d.voltage,
                                        if "current" in data then ParseFloat(data["current"]).value else d.current,
                                        if "state" in data then StateToken(data["state"]).value else d.isOn)])
  {
  }

  /** When every present socket field is acceptable the request succeeds and
      writes all of them. */
  lemma SocketUpdateSucceeds(devices: map<Path, Device>, room: string, name: string, data: Instructions)
    requires ClaimsStoredKind(devices, Path(room, name), data) && devices[Path(room, name)].Socket?
    requires "state" in data ==> StateToken(data["state"]).Some?
    requires "current" in data ==> ParseFloat(data["current"]).Number?
    requires "voltage" in data ==> ParseFloat(data["voltage"]).Number?
    ensures var d := devices[Path(room, name)];
            UpdateEffect(devices, room, name, data) ==
            Transition(Ok(()), devices[Path(room, name) :=
                                 Socket(if "voltage" in data then ParseFloat(data["voltage"]).value else d.voltage,
                                        if "current" in data then ParseFloat(data["current"]).value else d.current,
                                        if "state" in data then StateToken(data["state"]).value else d.isOn)])
  {
  }

  // ---- the thermometer field ----

  /** A thermometer's `temperature` is written exactly when the key is present
      and parses; an absent key is a success without effect. */
  lemma ThermometerTemperature(devices: map<Path, Device>, room: string, name: string, data: Instructions)
    requires ClaimsStoredKind(devices, Path(room, name), data) && devices[Path(room, name)].Thermometer?
    ensures var t := UpdateEffect(devices, room, name, data);
            && ("temperature" !in data ==> t == Transition(Ok(()), devices))
            && ("temperature" in data && ParseFloat(data["temperature"]).Number? ==>
                  t == Transition(Ok(()), devices[Path(room, name) := Thermometer(ParseFloat(data["temperature"]).value)]))
            && ("temperature" in data && ParseFloat(data["temperature"]).Failure? ==>
                  t == Transition(Err(ParseFloatError(ParseFloat(data["temperature"]).kind)), devices))
  {
    assert devices[Path(room, name) := devices[Path(room, name)]] == devices;
  }

  /** Socket keys in a thermometer request are ignored. */
  lemma ThermometerIgnoresSocketKeys(devices: map<Path, Device>, room: string, name: string, data: Instructions)
    requires ClaimsStoredKind(devices, Path(room, name), data) && devices[Path(room, name)].Thermometer?
    ensures UpdateEffect(devices, room, name, data) ==
            UpdateEffect(devices, room, name, data - {"state", "current", "voltage"})
  {
    var rest := data - {"state", "current", "voltage"};
    assert "device" in rest && rest["device"] == data["device"];
    assert ("temperature" in rest <==> "temperature" in data);
  }

  // ---- the whole home ----

  /** No request stores an `Unknown` device where there was none. */
  lemma NoUnknownPreserved(devices: map<Path, Device>, room: string, name: string, data: Instructions)
    requires forall p | p in devices :: !devices[p].Unknown?
    ensures var t := UpdateEffect(devices, room, name, data);
            forall p | p in t.devices :: !t.devices[p].Unknown?
  {
  }

  /** Applying the socket fields a second time changes nothing more. */
  lemma SocketFieldsIdempotent(d: Device, data: Instructions)
    requires d.Socket?
    ensures var o := ApplySocketFields(d, data); ApplySocketFields(o.device, data) == o
  {
  }

  /** Applying the thermometer field a second time changes nothing more. */
  lemma ThermometerFieldsIdempotent(d: Device, data: Instructions)
    requires d.Thermometer?
    ensures var o := ApplyThermometerFields(d, data); ApplyThermometerFields(o.device, data) == o
  {
  }

  /** Repeating a request has no further effect and gives the same result:
      every field it writes takes a value that depends only on the request. */
  lemma UpdateIdempotent(devices: map<Path, Device>, room: string, name: string, data: Instructions)
    requires UnknownExcluded(devices, room, name, data)
    ensures var t := UpdateEffect(devices, room, name, data);
            UnknownExcluded(t.devices, room, name, data) &&
            UpdateEffect(t.devices, room, name, data) == t
  {
    var t := UpdateEffect(devices, room, name, data);
    var p := Path(room, name);
    if "device" in data && p in devices {
      var d, claimed := devices[p], Lower(data["device"]);
      var o := ApplyInstructions(d, claimed, data);
      if d.Socket? && claimed == "socket" {
        SocketFieldsIdempotent(d, data);
      } else if d.Thermometer? && claimed == "thermometer" {
        ThermometerFieldsIdempotent(d, data);
      }
      assert ApplyInstructions(o.device, claimed, data) == o;
      assert t.devices[p] == o.device;
      assert t.devices[p := o.device] == t.devices;
    }
  }

  /** Requests to two different paths commute: under the single write lock
      their order does not change what either reports or what the home holds
      afterwards. */
  lemma DistinctPathsCommute(devices: map<Path, Device>, r1: string, n1: string, d1: Instructions,
                             r2: string, n2: string, d2: Instructions)
    requires Path(r1, n1) != Path(r2, n2)
    requires UnknownExcluded(devices, r1, n1, d1) && UnknownExcluded(devices, r2, n2, d2)
    ensures var a := UpdateEffect(devices, r1, n1, d1);
            var b := UpdateEffect(devices, r2, n2, d2);
            UnknownExcluded(a.devices, r2, n2, d2) && UnknownExcluded(b.devices, r1, n1, d1) &&
            UpdateEffect(a.devices, r2, n2, d2).result == b.result &&
            UpdateEffect(b.devices, r1, n1, d1).result == a.result &&
            UpdateEffect(a.devices, r2, n2, d2).devices == UpdateEffect(b.devices, r1, n1, d1).devices
  {
    var a := UpdateEffect(devices, r1, n1, d1);
    var b := UpdateEffect(devices, r2, n2, d2);
    var ab := UpdateEffect(a.devices, r2, n2, d2);
    var ba := UpdateEffect(b.devices, r1, n1, d1);
    assert ab.devices == ba.devices;
  }

  // ---- worked examples ----

  /** `{device: socket, state: on}` on an idle socket at 220 V and 5 A only
      switches it on. */
  lemma PartialUpdateExample(devices: map<Path, Device>)
    requires devices == map[Path("R", "S") := Socket(Finite(220.0), Finite(5.0), false)]
    ensures UpdateEffect(devices, "R", "S", map["device" := "socket", "state" := "on"]) ==
            Transition(Ok(()), map[Path("R", "S") := Socket(Finite(220.0), Finite(5.0), true)])
  {
  }

  /** The text `3.2` is the number 3.2. */
  lemma ParseThreePointTwo()
    ensures ParseFloat("3.2") == Number(Finite(3.2))
  {
    ParseFraction("3", "2");
    assert "3" + "." + "2" == "3.2";
  }

  /** `{device: socket, current: "3.2"}` sets the current to 3.2 and leaves the
      voltage and the switch alone. */
  lemma CurrentUpdateExample(devices: map<Path, Device>)
    requires devices == map[Path("R", "S") := Socket(Finite(220.0), Finite(5.0), false)]
    ensures UpdateEffect(devices, "R", "S", map["device" := "socket", "current" := "3.2"]) ==
            Transition(Ok(()), map[Path("R", "S") := Socket(Finite(220.0), Finite(3.2), false)])
  {
    var data := map["device" := "socket", "current" := "3.2"];
    ParseThreePointTwo();
    assert Lower("socket") == "socket";
    assert ApplySocketFields(devices[Path("R", "S")], data) ==
           Outcome(Ok(()), Socket(Finite(220.0), Finite(3.2), false));
  }
}
