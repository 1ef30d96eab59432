# http_home: the device update protocol

This project models the core of `http_home`, a small smart-home server that
keeps rooms of devices (power sockets and thermometers) in memory and lets
clients change them over HTTP. The core is the update protocol,
`update_device`. It exists twice, in `src/lib.rs` and in `src/web_routes.rs`.
It takes a room name, a device name and the request's key/value instructions.
It works in four steps:

1. It requires a `device` key and lower-cases its value.
2. It resolves the path under the home's write lock.
3. It checks that the claimed kind matches the stored variant.
4. It writes the optional fields in a fixed order: `state`, `current`, `voltage`
   for a socket, or `temperature` for a thermometer. An early error leaves the
   fields already written in place.

The model has these parts:

- `Text` (text.dfy): lower-casing. It stands for `str::to_lowercase`.
- `FloatParse` (float.dfy): `str::parse::<f64>`. It follows Rust's grammar and
  its two error kinds.
- `SmartDevice` (device.dfy): the `Device` variants.
- `Protocol` (protocol.dfy): the error type, the field application for each
  variant, and `UpdateEffect`. `UpdateEffect` is the effect of one whole
  request on the devices of a home.
- `HomeModel` (home.dfy): the `Home` class. It holds the devices by
  (room, device) path.
- `Lib` (lib.dfy) and `WebRoutes` (web_routes.dfy): the two copies of
  `update_device` and `update`. Each is an imperative module-level method
  that takes a `Home` and updates it, and each is proved to produce exactly
  `UpdateEffect`. So the two copies behave identically.
- `UpdateProperties` (properties.dfy): what a request does, case by case.

The write lock is taken after the `device` key check, which reads only the
request, and is held for everything after it. So one request is modelled as
one atomic step on the `Home`. The `&mut Device` borrow is
unique, so writing through it is modelled as storing the updated value back
at its path. The model does this after every setter, which is what keeps
partial updates visible after an early return.

The code checks the `device` key first, before the path is looked up. A
request without that key fails with `BadDeviceDict` even against an empty
home (`UpdateProperties.EmptyHome`). Any value of the key reaches the
lookup, even one that names no kind, so `{device: lamp}` on an absent path
is `DeviceNotFound`; the claimed kind is only compared with the stored
variant once the path has resolved.

## Model

| member | source | states |
|---|---|---|
| Text.Lower | src/lib.rs:57 | lower-casing keeps the length and lower-cases each character on its own |
| Text.LowerIdempotent | src/lib.rs:57 | lower-casing twice is the same as lower-casing once |
| Text.LowerEqualsIffCaseVariant | src/lib.rs:63 | comparing a lower-cased value with a lower-case word accepts exactly the upper/lower-case spellings of that word, the Kelvin sign counting as a `K` |
| FloatParse.ParseFloat | src/lib.rs:77 | the parse gives the `Empty` error exactly for the empty string; a lone sign is `Invalid` |
| FloatParse.ParseDigits | src/lib.rs:77 | every non-empty digit string parses to its decimal value; with a leading `-` it parses to the negated value |
| FloatParse.ParseFraction | src/lib.rs:80 | `a.b` parses to a + b/10^len(b) |
| HomeModel.Home.GetDeviceByPath | src/lib.rs:59 | the lookup finds a device exactly when the (room, device) path is stored, and returns the stored device |
| HomeModel.Home.SetDevice | src/lib.rs:66-67 | a write through the device reference replaces the device at its path and nothing else |
| Protocol.ParseField | src/lib.rs:22 | `parse()?` succeeds exactly when the parse does; a failure becomes `ParseFloatError` with the parser's error kind |
| Protocol.ApplySocketFields | src/lib.rs:64-81 | the socket stays a socket; success exactly when every present field is acceptable; a bad `state` token writes nothing; each field keeps its value or takes the value given under its own key; on success every present field is written |
| Protocol.ApplyThermometerFields | src/lib.rs:88-90 | only `temperature` is read; success exactly when it is absent or parses; on failure the thermometer is unchanged; it changes only when a parsed, different value is written |
| Protocol.ApplyInstructions | src/lib.rs:61-96 | the variant never changes; a claimed kind that differs from the stored one gives `BadDeviceDict` and no change; only a parse error leaves a partial write |
| Protocol.UpdateEffect | src/lib.rs:48-104 | the paths and every variant are kept; devices at other paths are untouched; only a parse error changes anything on failure; `DeviceNotFound` happens exactly when the key is present and the path is not, and names the path `room/device`; `BadDeviceDict` echoes the instructions |
| Lib.UpdateDevice | src/lib.rs:48-104 | the result and the new device map of the first copy are exactly `UpdateEffect` of the old map |
| Lib.UpdateSocket | src/lib.rs:62-85 | the socket arm writes `state`, `current`, `voltage` in order through the device reference and ends as `ApplySocketFields` says, so on success the stored socket carries every present field |
| Lib.UpdateThermometer | src/lib.rs:86-94 | the thermometer arm ends as `ApplyThermometerFields` says |
| Lib.Respond | src/lib.rs:42-45 | status 200 exactly on success, 400 on every error, never a body |
| Lib.Update | src/lib.rs:37-46 | the handler's response is the status of `UpdateEffect`'s result, and the home holds `UpdateEffect`'s devices |
| WebRoutes.UpdateDevice | src/web_routes.rs:61-109 | the second copy, which uses `ok_or_else(...)?`, has exactly the same result and new state as the first copy (`UpdateEffect`) |
| WebRoutes.Require | src/web_routes.rs:67-69 | the `device` lookup succeeds exactly when the key is present, with its value; otherwise `BadDeviceDict` with the instructions |
| WebRoutes.FoundAt | src/web_routes.rs:72-76 | the path lookup succeeds exactly when a device was found, with that device; otherwise `DeviceNotFound` naming `room/device` |
| WebRoutes.Display | src/web_routes.rs:9-17 | each error's text is its variant's fixed prefix, then its payload (the path, the rendered instructions or the float error's text), then a full stop |
| WebRoutes.Respond | src/web_routes.rs:50-57 | status 200 with no body exactly on success; every error variant gives 400 with the error's display text |
| WebRoutes.Update | src/web_routes.rs:45-59 | the handler's response is `Respond` of `UpdateEffect`'s result, and the home holds `UpdateEffect`'s devices |
| WebRoutes.SameStatusAsLib | src/web_routes.rs:52-55 | both copies of `update` give every result the same status code |
| WebRoutes.DisplayIdentifiesError | src/web_routes.rs:9-17 | the display texts of the three errors are distinct; a not-found or parse error's text determines the error |
| UpdateProperties.MissingDeviceKey | src/lib.rs:54-58 | without a `device` key the result is `BadDeviceDict` and nothing changes, even for a path that does not exist |
| UpdateProperties.DeviceKeyIsExact | src/lib.rs:55 | a `Device` key is not a `device` key, so the request is rejected |
| UpdateProperties.UnresolvedPath | src/lib.rs:99-102 | a path that does not resolve gives `DeviceNotFound(room + "/" + device)` and nothing changes |
| UpdateProperties.EmptyHome | src/web_routes.rs:67-76 | against an empty home a request with a `device` key is not found, and one without it is `BadDeviceDict`; nothing changes |
| UpdateProperties.PathTextInjective | src/web_routes.rs:75 | for room names without `/`, the not-found payload determines both names |
| UpdateProperties.PathTextAmbiguous | src/lib.rs:99-102 | with a `/` inside a room name, two different paths give the same payload |
| UpdateProperties.KindMismatch | src/lib.rs:82-93 | a lower-cased claimed kind that is not the stored variant's gives `BadDeviceDict` and no change |
| UpdateProperties.SocketKindIgnoresCase | src/lib.rs:57-63 | a stored socket accepts exactly the case variants of `socket` (e.g. `SOCKET`, and the Kelvin sign for `K`); any other word, such as `lamp`, is `BadDeviceDict` |
| UpdateProperties.KelvinSignSpellsSocket | src/web_routes.rs:70-79 | `SOC` + U+212A KELVIN SIGN + `ET` is lower-cased to `socket` and accepted for a stored socket |
| UpdateProperties.ThermometerKindIgnoresCase | src/web_routes.rs:97-104 | a stored thermometer accepts exactly the case variants of `thermometer` |
| Protocol.StateToken | src/lib.rs:65-67 | the tokens that switch on are exactly the case variants of `on` and `вкл`; the tokens that switch off are exactly those of `off` and `выкл` |
| UpdateProperties.StateRejected | src/web_routes.rs:80-86 | any other `state` token gives `BadDeviceDict` before `current` or `voltage` are read, so nothing changes |
| UpdateProperties.StateApplied | src/lib.rs:64-75 | an accepted `state` token is written even when a later field fails |
| UpdateProperties.AbsentSocketFieldsKept | src/lib.rs:64-81 | a socket field whose key is absent keeps its value |
| UpdateProperties.CurrentParseFailure | src/lib.rs:76-78 | an unparsable `current` gives `ParseFloatError`; the accepted `state` stays and `voltage` is untouched |
| UpdateProperties.VoltageParseFailure | src/web_routes.rs:87-92 | an unparsable `voltage` gives `ParseFloatError`; `state` and `current` stay written |
| UpdateProperties.SocketUpdateSucceeds | src/web_routes.rs:78-96 | when every present socket field is acceptable, the request succeeds and writes all of them |
| UpdateProperties.ThermometerTemperature | src/lib.rs:86-94 | `temperature` is written exactly when present and parsable; an absent key is a success with no change; a bad value is `ParseFloatError` with no change |
| UpdateProperties.ThermometerIgnoresSocketKeys | src/web_routes.rs:97-105 | `state`, `current` and `voltage` have no effect on a thermometer request |
| UpdateProperties.NoUnknownPreserved | src/lib.rs:95 | a home without `Unknown` devices still has none after any request |
| UpdateProperties.UpdateIdempotent | src/lib.rs:48-104 | repeating a request gives the same result and changes nothing more |
| UpdateProperties.DistinctPathsCommute | src/lib.rs:58 | under the single write lock, requests to two different paths give the same results and the same final home in either order |
| UpdateProperties.PartialUpdateExample | src/lib.rs:64-81 | `{device: socket, state: on}` on a 220 V / 5 A socket that is off only switches it on |
| UpdateProperties.CurrentUpdateExample | src/web_routes.rs:87-89 | `{device: socket, current: "3.2"}` sets the current to 3.2 and leaves the voltage and the switch alone |

## Left out

- The `home`, `smart_room` and `smart_device` modules are not part of this model. They hold add and remove for rooms and devices, the `device_dict` codec, `report` and `restore`. Only path lookup and writing a device back are modelled, on a map keyed by (room, device) path.
- In-place mutation through `&mut Device`: it is modelled as storing the updated value back at its path after each setter. The borrow is unique, so no alias can observe a difference.
- The server wiring (`run`, the routes, `greet`, `health_check`, `room_list`, `device_list`) is left out. It is a thin HTTP adapter over home methods whose source is not part of this model.
- Splitting the query string into key/value pairs (`querify`, the `HashMap` collect) and path-segment extraction (`unwrap_or_default`) are foreign library calls. The model takes the names and the instruction map as parameters.
- The instruction map holds the raw query values: nothing percent-decodes them. So the Cyrillic `state` tokens match only when the query carries them as raw UTF-8. A percent-encoded `вкл` (`%D0%B2%D0%BA%D0%BB`) lower-cases to `%d0%b2%d0%ba%d0%bb`, so it is not a token and gives `BadDeviceDict`. The model states this in terms of the values as received.
- `RwLock` and async execution are left out. Each request is one atomic step: the `device` key check reads only the request, and the write lock is held for everything after it.
- `dbg!` output is left out.
- The debug rendering (`{:#?}`) of the instructions in `BadDeviceDict` is left out, because a hash map's print order is unspecified. The error carries the map itself, and `WebRoutes.Respond` takes the rendered text as a parameter.
- The `todo!()` abort on a stored `Unknown` device is not modelled as an outcome. It is a precondition (`Protocol.UnknownExcluded`) that applies only when the `device` key is present and the path holds an `Unknown` device.
- FloatParse.ParseFloat: numbers are exact reals, so rounding to the nearest `f64`, overflow to infinity, the sign of zero and Rust's saturation of very long exponents are not modelled.
- Text.Lower: only ASCII, the Latin-1 capitals, the Cyrillic capitals U+0400–U+042F, the Kelvin sign (to `k`) and the Angstrom sign (to `å`) are folded. Rust's full Unicode lower-casing also folds other characters (the Greek, Armenian and other capitals, for example), maps a few characters to several (U+0130 to `i` and a combining dot), and treats a final sigma specially. None of these lower-cases onto a letter of `socket`, `thermometer`, `on`, `off`, `вкл` or `выкл`.
- The `smart_device` setters are assumed to assign one field each and nothing else; their source is not part of this model.
- The example client scripts and `src/main.rs` are left out. They are network clients and process startup.
