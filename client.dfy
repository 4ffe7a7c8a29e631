/**
 * The control panel's state and its handlers: the state cells `color`,
 * `brightness`, `power` and `connected`, the status check, the command
 * sender, and the handlers the controls call.
 *
 * Every network exchange is one atomic step whose outcome is a parameter:
 * `Ok` (a response with `ok` set), `NotOk` (a response without it) or
 * `Throws` (the request rejects). The requests the panel dispatches are
 * appended to `sent`, in order.
 */
module Client {
  import opened Wrappers
  import opened Json
  import opened HexColor

  /** `ESP32_IP`: the device's address in access-point mode. */
  const Esp32Ip := "192.168.4.1"

  /** `http://${ESP32_IP}`. */
  const Origin := "http://" + Esp32Ip

  function ApiPath(endpoint: string): string {
    "/api/" + endpoint
  }

  /** `http://${ESP32_IP}/api/${endpoint}`. */
  function ApiUrl(endpoint: string): string {
    Origin + ApiPath(endpoint)
  }

  /** How a network exchange ends, as the panel sees it. */
  datatype Outcome = Ok | NotOk | Throws

  /** A command the panel sends, with the value its body carries. */
  datatype Command = SetColor(color: Rgb) | SetBrightness(value: Byte) | SetPower(state: bool)

  /** The `endpoint` argument of `sendCommand`. */
  function Endpoint(cmd: Command): string {
    match cmd
    case SetColor(_) => "color"
    case SetBrightness(_) => "brightness"
    case SetPower(_) => "power"
  }

  /** The `data` argument of `sendCommand`, as a JSON object. */
  function Body(cmd: Command): Document {
    match cmd
    case SetColor(c) => map["r" := Num(c.r), "g" := Num(c.g), "b" := Num(c.b)]
    case SetBrightness(v) => map["value" := Num(v)]
    case SetPower(p) => map["state" := Bool(p)]
  }

  /** A dispatched request: method, URL and JSON body. */
  datatype Request = Request(verb: string, url: string, body: Option<Document>)

  /** The GET that `checkConnection` issues. */
  const StatusRequest := Request("GET", ApiUrl("status"), None)

  /** The POST that `sendCommand(endpoint, data)` issues. */
  function CommandRequest(cmd: Command): Request {
    Request("POST", ApiUrl(Endpoint(cmd)), Some(Body(cmd)))
  }

  /** The requests one `sendCommand` dispatches: the command, and a status check when it succeeded. */
  function Exchange(cmd: Command, response: Outcome): seq<Request> {
    [CommandRequest(cmd)] + (if response == Ok then [StatusRequest] else [])
  }

  /** `connected` after `sendCommand`: left alone on a non-ok response, false on a thrown error. */
  function ConnectedAfter(before: bool, response: Outcome, poll: Outcome): bool {
    match response
    case Ok => poll == Ok
    case NotOk => before
    case Throws => false
  }

  /** The `App` component's state. */
  class ControlPanel {
    var color: Rgb
    var brightness: Byte
    var power: bool
    var connected: bool
    /** The requests dispatched so far. */
    var sent: seq<Request>

    /** The initial values of the `useState` cells. */
    constructor ()
      ensures color == Rgb(255, 255, 255) && brightness == 128 && power && !connected
      ensures sent == []
    {
      color := Rgb(255, 255, 255);
      brightness := 128;
      power := true;
      connected := false;
      sent := [];
    }

    /**
     * `checkConnection()`: `connected` becomes the response's `ok` flag, or
     * false when the request throws. The response body is never read, so
     * the colour, brightness and power are never reconciled with the device.
     */
    method CheckConnection(response: Outcome)
      modifies this
      ensures connected == (response == Ok)
      ensures sent == old(sent) + [StatusRequest]
      ensures color == old(color) && brightness == old(brightness) && power == old(power)
    {
      sent := sent + [StatusRequest];
      if response == Throws {
        connected := false;
      } else {
        connected := response == Ok;
      }
    }

    /**
     * `sendCommand(endpoint, data)`. `response` is how the POST ends and
     * `poll` how the status check it triggers on success ends.
     */
    method SendCommand(cmd: Command, response: Outcome, poll: Outcome) returns (ok: bool)
      modifies this
      ensures ok == (response == Ok)
      ensures response == Ok ==> sent == old(sent) + [CommandRequest(cmd), StatusRequest] && connected == (poll == Ok)
      ensures response == NotOk ==> sent == old(sent) + [CommandRequest(cmd)] && connected == old(connected)
      ensures response == Throws ==> sent == old(sent) + [CommandRequest(cmd)] && !connected
      ensures color == old(color) && brightness == old(brightness) && power == old(power)
    {
      sent := sent + [CommandRequest(cmd)];
      if response == Throws {
        connected := false;
        return false;
      }
      if response == Ok {
        CheckConnection(poll);
      }
      ok := response == Ok;
    }

    /**
     * `handleColorChange(newColor)`: the colour is set at once and stays set
     * whatever the command's outcome; the command goes out only while the
     * power is on.
     */
    method HandleColorChange(newColor: Rgb, response: Outcome, poll: Outcome)
      modifies this
      ensures color == newColor
      ensures brightness == old(brightness) && power == old(power)
      ensures old(power) ==> sent == old(sent) + Exchange(SetColor(newColor), response)
                             && connected == ConnectedAfter(old(connected), response, poll)
      ensures !old(power) ==> sent == old(sent) && connected == old(connected)
    {
      color := newColor;
      if power {
        var _ := SendCommand(SetColor(newColor), response, poll);
      }
    }

    /** `handleBrightnessChange(value)`: set at once, sent always, never rolled back. */
    method HandleBrightnessChange(value: Byte, response: Outcome, poll: Outcome)
      modifies this
      ensures brightness == value
      ensures color == old(color) && power == old(power)
      ensures sent == old(sent) + Exchange(SetBrightness(value), response)
      ensures connected == ConnectedAfter(old(connected), response, poll)
    {
      brightness := value;
      var _ := SendCommand(SetBrightness(value), response, poll);
    }

    /** `handlePowerToggle()`: the power flips at once and the new value is sent. */
    method HandlePowerToggle(response: Outcome, poll: Outcome)
      modifies this
      ensures power == !old(power)
      ensures color == old(color) && brightness == old(brightness)
      ensures sent == old(sent) + Exchange(SetPower(power), response)
      ensures connected == ConnectedAfter(old(connected), response, poll)
    {
      var newPower := !power;
      power := newPower;
      var _ := SendCommand(SetPower(newPower), response, poll);
    }

    /**
     * The colour picker's `onChange`: the picked string is decoded and, when
     * it is a colour, handed to `handleColorChange`; otherwise nothing happens.
     */
    method PickColor(hex: string, response: Outcome, poll: Outcome)
      modifies this
      ensures HexToRgb(hex).None? ==>
                color == old(color) && sent == old(sent) && connected == old(connected)
      ensures HexToRgb(hex).Some? ==> color == HexToRgb(hex).value
      ensures HexToRgb(hex).Some? && old(power) ==>
                sent == old(sent) + Exchange(SetColor(HexToRgb(hex).value), response)
                && connected == ConnectedAfter(old(connected), response, poll)
      ensures HexToRgb(hex).Some? && !old(power) ==> sent == old(sent) && connected == old(connected)
      ensures brightness == old(brightness) && power == old(power)
    {
      var rgb := HexToRgb(hex);
      if rgb.Some? {
        HandleColorChange(rgb.value, response, poll);
      }
    }
  }
}
