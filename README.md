# LED control panel, device firmware and simulated device — a Dafny model

The system is a browser control panel for one networked LED strip. The strip
is driven by an ESP32 microcontroller that serves a small HTTP API. The panel
keeps four pieces of state: `color`, `brightness`, `power` and `connected`.
It updates the first three optimistically as the user acts, sends one POST
per action, and re-checks `/api/status` after every command that succeeds.
The device keeps `ledState` (r, g, b, brightness, power) and a 60-pixel
buffer. A simulated device (`mockApi.js`) stands in for it during development.

The model has seven modules in six files:

- `Wrappers`, `Json` (`json.dfy`): `Option`, the `Byte` type (0..255), and parsed JSON values and objects.
- `HexColor` (`hex_color.dfy`): `rgbToHex` and `hexToRgb` as functions, with the round trip in both directions.
- `Client` (`client.dfy`): the panel as a class `ControlPanel`. Its fields are the state cells. Each network exchange is one step whose outcome (`Ok`, `NotOk`, `Throws`) is a parameter. Every request the panel dispatches is appended to the field `sent`.
- `Firmware` (`firmware.dfy`): the device as a class `Device`, holding `ledState` as a value field and `leds` as an array filled in place. The handlers are proved against pure functions (`PostColor`, `PostBrightness`, `PostPower`, `StatusReport`), and the lemmas are stated about those functions. The route registration in `setup()` is stated only as the pure function `Serve`, which the conformance lemmas use. No `Device` method routes a request.
- `MockApi` (`mock_api.dfy`): the simulated device as a class `Mock` whose five fields the setters change in place. It includes `url.split('/api/')` and the `mockFetch` routing. `MockFetch` is proved against the pure function `Fetch`.
- `Conformance` (`conformance.dfy`): relates the three components. For every command the panel sends, the firmware and the mock start from the same state and end in the same state, and both answer ok. The status check reports the same state on both.

The network, the clock and the transport are not modelled. The panel's
`MOCK_MODE` switch only chooses whether a request goes to `fetch` or to
`mockFetch`, so it is covered by the outcome parameters.

## Model

| member | source | states |
|---|---|---|
| `HexColor.ToHex` | web-control/src/App.jsx:105 | `x.toString(16)` is non-empty lower-case hex with no leading zero (the shortest numeral) that `parseInt(_, 16)` reads back as `x`; one digit exactly when `x < 16`, at most two below 256 |
| `HexColor.Channel` | web-control/src/App.jsx:104-107 | each channel is exactly two lower-case hex digits (zero-padded) whose value is the channel |
| `HexColor.RgbToHex` | web-control/src/App.jsx:103-108 | the result has 7 characters: `'#'` then six lower-case hex digits, two per channel in r, g, b order, each pair denoting that channel |
| `HexColor.HexToRgb` | web-control/src/App.jsx:110-117 | returns a colour exactly when the string is an optional `'#'` followed by six hex digits of either case, and null otherwise |
| `HexColor.RoundTrip` | web-control/src/App.jsx:103-117 | `hexToRgb(rgbToHex(r, g, b))` is `{r, g, b}` for every triple in [0,255]^3 |
| `HexColor.CanonicalForm` | web-control/src/App.jsx:103-117 | for every accepted string, `rgbToHex(hexToRgb(s))` is `'#'` plus the string's six digits in lower case, so decoding loses nothing but case and the optional `'#'` |
| `Client.ControlPanel.constructor` | web-control/src/App.jsx:11-14 | initial colour white, brightness 128, power on, not connected, nothing sent |
| `Client.ControlPanel.CheckConnection` | web-control/src/App.jsx:37-52 | one status GET is sent; `connected` becomes true on an ok response and false on a non-ok or thrown one; colour, brightness and power are untouched |
| `Client.ControlPanel.SendCommand` | web-control/src/App.jsx:54-83 | one POST is sent. Ok: exactly one status check follows, and the result is true. Not ok: false, no re-poll, `connected` unchanged. Thrown: false and `connected` false. Colour, brightness and power are untouched |
| `Client.ControlPanel.HandleColorChange` | web-control/src/App.jsx:85-90 | the colour is always set to the new one, whatever the outcome (no rollback); the colour command goes out only while the power is on, and nothing is sent otherwise |
| `Client.ControlPanel.HandleBrightnessChange` | web-control/src/App.jsx:92-95 | brightness is set and kept whatever the outcome; the brightness command is always sent |
| `Client.ControlPanel.HandlePowerToggle` | web-control/src/App.jsx:97-101 | power becomes the negation of its old value and the command sent carries that same new value; no rollback |
| `Client.ControlPanel.PickColor` | web-control/src/App.jsx:162-165 | a picked string that decodes sets the colour and, while the power is on, sends the colour command and leaves `connected` as `sendCommand` does; with the power off it sends nothing and leaves `connected` alone; a string that does not decode changes nothing and sends nothing |
| `Firmware.Device.constructor` | esp32-firmware/src/main.cpp:19-28 | `ledState` starts at r = g = b = 255, brightness 128, power on, and the buffer of `NUM_LEDS` pixels shows it |
| `Firmware.FillSolid` | esp32-firmware/src/main.cpp:37 | the first `n` pixels become the colour and the rest are unchanged |
| `Firmware.Device.UpdateLeds` | esp32-firmware/src/main.cpp:34-43 | every one of the `NUM_LEDS` pixels is `(r, g, b)` when the power is on and black when it is off |
| `Firmware.PostColor` | esp32-firmware/src/main.cpp:101-130 | 200 exactly when the body parses and has r, g and b; then only r, g, b change. Otherwise 400 and no change. Brightness and power never change |
| `Firmware.Device.HandleColor` | esp32-firmware/src/main.cpp:101-130 | the handler's code, body and new `ledState` are those of `PostColor`, and the buffer shows the new state |
| `Firmware.PostBrightness` | esp32-firmware/src/main.cpp:133-160 | 200 exactly when the body parses and has `value`; then only brightness changes. Otherwise 400 and no change |
| `Firmware.Device.HandleBrightness` | esp32-firmware/src/main.cpp:133-160 | the handler's answer and new `ledState` are those of `PostBrightness`, and the buffer shows the new state |
| `Firmware.PostPower` | esp32-firmware/src/main.cpp:163-190 | 200 exactly when the body parses and has `state`; then only power changes. Otherwise 400 and no change |
| `Firmware.Device.HandlePower` | esp32-firmware/src/main.cpp:163-190 | the handler's answer and new `ledState` are those of `PostPower`, and the buffer shows the new state |
| `Firmware.StatusReport` | esp32-firmware/src/main.cpp:194-199 | the status document has exactly the keys r, g, b, brightness and power |
| `Firmware.Device.HandleStatus` | esp32-firmware/src/main.cpp:193-207 | answers 200 with the report of the current state and changes nothing |
| `Firmware.Serve` | esp32-firmware/src/main.cpp:101-207 | only POST to color, brightness or power and GET to status are answered; any answer other than 200 is a 400 with no change; the GET answers the report and changes nothing |
| `Firmware.ReportReadsBack` | esp32-firmware/src/main.cpp:194-199 | reading the status document back field by field gives exactly the current r, g, b, brightness and power |
| `Firmware.StatusReportInjective` | esp32-firmware/src/main.cpp:194-199 | two states with equal status reports are equal, so the report loses nothing |
| `Firmware.PostsIdempotent` | esp32-firmware/src/main.cpp:113-177 | applying the same POST twice leaves the same answer and `ledState` as applying it once |
| `Firmware.ColorThenStatus` | esp32-firmware/src/main.cpp:113-199 | an accepted colour POST followed by a status GET reports the posted r, g, b and the old brightness and power |
| `Firmware.BrightnessThenStatus` | esp32-firmware/src/main.cpp:145-199 | an accepted brightness POST followed by a status GET reports the posted brightness and the other fields unchanged |
| `Firmware.PowerThenStatus` | esp32-firmware/src/main.cpp:175-199 | an accepted power POST followed by a status GET reports the posted power and the other fields unchanged |
| `MockApi.Mock.constructor` | web-control/src/mockApi.js:4-10 | `mockState` starts at r = g = b = 255, brightness 128, power true |
| `MockApi.Mock.GetStatus` | web-control/src/mockApi.js:18-25 | ok, with a copy equal to `mockState`; nothing changes |
| `MockApi.Mock.SetColor` | web-control/src/mockApi.js:28-38 | r, g, b take the body's values (undefined when absent); brightness and power are unchanged; ok |
| `MockApi.Mock.SetBrightness` | web-control/src/mockApi.js:41-49 | only brightness changes, to the body's `value`; ok |
| `MockApi.Mock.SetPower` | web-control/src/mockApi.js:52-60 | only power changes, to the body's `state`; ok |
| `MockApi.SplitFrom` | web-control/src/mockApi.js:65 | `split` with a non-empty separator (computed by `Split` and read by `EndpointOf` as piece [1]) always yields at least one piece; the lemmas below describe the pieces |
| `MockApi.SplitWithout` | web-control/src/mockApi.js:65 | `SplitFrom` on a string with no separator in it gives the whole string as one piece |
| `MockApi.SplitAfter` | web-control/src/mockApi.js:65 | for `SplitFrom`, the text before the first separator is the first piece, and splitting continues after it |
| `MockApi.EndpointOfApiUrl` | web-control/src/mockApi.js:65 | for a base that contains no letter `a` (so `/api/` first occurs right after it), and a name with no `/`, `(base + '/api/' + name).split('/api/')[1]` is the name |
| `MockApi.RouteOf` | web-control/src/mockApi.js:64-88 | status when the method is GET, empty or missing and the endpoint is `status`; a setter when it is POST to color, brightness or power; an unknown POST otherwise under POST; no route otherwise, each as an if-and-only-if |
| `MockApi.Fetch` | web-control/src/mockApi.js:64-89 | the state changes only when the answer is a setter's ok; the promise rejects exactly for a POST whose body `JSON.parse` cannot read |
| `MockApi.Mock.MockFetch` | web-control/src/mockApi.js:64-89 | the new `mockState` and the settled result are those of `Fetch` on the old state |
| `MockApi.StatusIsReadOnly` | web-control/src/mockApi.js:67-71 | a GET (or no method) to `status` answers ok with a copy of the state and changes nothing |
| `MockApi.SettersChangeTheirFields` | web-control/src/mockApi.js:73-82 | a parsed POST to color, brightness or power changes only that setter's fields and answers ok |
| `MockApi.OthersRefused` | web-control/src/mockApi.js:67-88 | any other method, a GET to another endpoint, or a parsed POST to another endpoint answers `ok: false` and changes nothing |
| `Conformance.ClientUrlEndpoint` | web-control/src/mockApi.js:65 | for every URL the panel builds, splitting at `/api/` recovers the endpoint the panel named |
| `Conformance.FirmwareApplies` | esp32-firmware/src/main.cpp:101-190 | every command the panel sends is accepted by the firmware with 200, and sets exactly the fields it carries |
| `Conformance.MockApplies` | web-control/src/mockApi.js:64-89 | every command the panel sends is accepted by the mock with ok, and sets exactly the fields it carries |
| `Conformance.MockMatchesFirmware` | web-control/src/mockApi.js:27-60 | from the same state, the mock's new state equals the firmware's for every command the panel sends, and the panel sees `Ok` from both |
| `Conformance.StatusMatches` | esp32-firmware/src/main.cpp:193-207 | the panel's status check gets 200 and the current state from the firmware, and ok with the same state from the mock; neither changes it |
| `Conformance.InitialStatesAgree` | web-control/src/mockApi.js:4-10 | the mock starts in the firmware's initial state |

## Left out

- Rendering, styling, the preset table and the `<style jsx>` block are presentation. The colour picker, the brightness slider and the preset buttons are disabled while the power is off. The power button stays enabled. So the `!power` branch of `handleColorChange` (modelled) cannot be reached from the page itself.
- Polling with `useEffect`/`setInterval`, async scheduling, `AbortSignal.timeout(2000)` on the status GET, and the mock's `delay` are not modelled. Each call is one atomic step with an abstract outcome. The status check that `sendCommand` starts but does not await is applied at once, with its own outcome parameter `poll`. So overlapping requests ("last response wins") are not modelled.
- `fetch`, `JSON.stringify`/`JSON.parse` and ArduinoJson's serialisation are libraries. A parsed body is an `Option<Document>`, with None where parsing fails. A JSON body that parses to something other than an object is not modelled.
- Firmware.ByteOf, Firmware.BoolOf: ArduinoJson's conversion of a value to `uint8_t` or `bool` cannot be seen from this code. JSON numbers in the model are integers in 0..255. A boolean converts to 0/1, a number converts to `bool` as non-zero, and text or null converts to 0 or false. Out-of-range and fractional numbers are not modelled.
- `parseInt(value)` on the slider's string and the `Math.round((brightness/255)*100)` percentage are not modelled. The slider value is a `Byte`.
- The firmware's body handler is modelled as receiving the whole body in one call. The `index`/`total` chunking is not modelled.
- JSON values in the model are numbers, booleans, text and null. Arrays and nested objects are left out, so a body such as `{"r":[1]}` cannot be written.
- `Firmware.Serve` answers 400 ("Invalid JSON") for a POST with no body. On the device, a POST with an empty body never reaches the body handler, and the request handler sends nothing. That path is not modelled.
- WiFi access-point setup, LittleFS static files, the OPTIONS preflight routes, the CORS headers, `Serial` logging, `FastLED.setBrightness`/`FastLED.show` and `loop()` are I/O and hardware. So is `console.log` in the mock and `console.error` in the panel.
- The mock's setters answer `{status: 'ok'}` through `json()`. That body is left out of the mock's `Reply`, because the panel never reads it. The firmware's `{"status":"ok"}` and error bodies are modelled as documents.
- The mock's status reply copies `mockState` when `json()` is called, not when `getStatus` answers. The model takes the copy at answer time. Nobody calls `json()`, so no property depends on the difference.
- `Client.ControlPanel.CheckConnection` and the other panel methods do not model the response body, because the panel never reads it. So the panel's local colour, brightness and power are never reconciled with the device, in the model as in the code.
