/**
 * The simulated device is meant to answer the control panel exactly as the
 * real device does. This module relates the three: the requests the panel
 * dispatches, the firmware's handlers, and `mockFetch`.
 */
module Conformance {
  import opened Wrappers
  import opened Json
  import Client
  import Firmware
  import MockApi

  /** The mock's picture of a device state: every field defined, with the same value. */
  function AsMock(s: Firmware.LedState): MockApi.MockState {
    MockApi.MockState(MockApi.Defined(Num(s.r)), MockApi.Defined(Num(s.g)), MockApi.Defined(Num(s.b)),
                      MockApi.Defined(Num(s.brightness)), MockApi.Defined(Bool(s.power)))
  }

  /** What a command asks of the device: its own fields take the values it carries. */
  function Apply(s: Firmware.LedState, cmd: Client.Command): Firmware.LedState {
    match cmd
    case SetColor(c) => s.(r := c.r, g := c.g, b := c.b)
    case SetBrightness(v) => s.(brightness := v)
    case SetPower(p) => s.(power := p)
  }

  /** How the panel sees a firmware answer: `response.ok` holds for a 2xx status. */
  function FirmwareOutcome(a: Option<Firmware.Answer>): Client.Outcome {
    if a.Some? && 200 <= a.value.code < 300 then Client.Ok else Client.NotOk
  }

  /** How the panel sees what `mockFetch` settles to. */
  function MockOutcome(f: MockApi.Fetched): Client.Outcome {
    match f
    case Answered(reply) => if reply.ok then Client.Ok else Client.NotOk
    case Threw => Client.Throws
  }

  /** The endpoints the panel addresses. */
  predicate IsClientEndpoint(e: string) {
    e == "status" || e == "color" || e == "brightness" || e == "power"
  }

  /** `url.split('/api/')[1]` recovers the endpoint from every URL the panel builds. */
  lemma ClientUrlEndpoint(e: string)
    requires IsClientEndpoint(e)
    ensures MockApi.EndpointOf(Client.ApiUrl(e)) == Some(e)
  {
    var base := Client.Origin;
    assert base == "http://192.168.4.1";
    assert forall i :: 0 <= i < |base| ==> base[i] != 'a';
    assert Client.ApiUrl(e) == base + "/api/" + e;
    MockApi.EndpointOfApiUrl(base, e);
  }

  /** The firmware applies every command the panel sends, and answers 200. */
  lemma FirmwareApplies(s: Firmware.LedState, cmd: Client.Command)
    ensures var req := Client.CommandRequest(cmd);
            Firmware.Serve(s, req.verb, Client.ApiPath(Client.Endpoint(cmd)), req.body)
              == Some(Firmware.Answer(200, Firmware.OkBody, Apply(s, cmd)))
  {
    match cmd
    case SetColor(_) => assert Client.ApiPath("color") == "/api/color";
    case SetBrightness(_) => assert Client.ApiPath("brightness") == "/api/brightness";
    case SetPower(_) => assert Client.ApiPath("power") == "/api/power";
  }

  /** The mock applies every command the panel sends, and answers ok. */
  lemma MockApplies(s: Firmware.LedState, cmd: Client.Command)
    ensures var req := Client.CommandRequest(cmd);
            MockApi.Fetch(AsMock(s), Some(req.verb), req.url, req.body)
              == MockApi.Step(AsMock(Apply(s, cmd)), MockApi.Done)
  {
    ClientUrlEndpoint(Client.Endpoint(cmd));
  }

  /**
   * From the same state, the firmware and the mock end in the same state
   * after any command the panel sends, and the panel sees `Ok` from both.
   */
  lemma MockMatchesFirmware(s: Firmware.LedState, cmd: Client.Command)
    ensures var req := Client.CommandRequest(cmd);
            var device := Firmware.Serve(s, req.verb, Client.ApiPath(Client.Endpoint(cmd)), req.body);
            var mock := MockApi.Fetch(AsMock(s), Some(req.verb), req.url, req.body);
            device.Some? && mock.after == AsMock(device.value.state) &&
            FirmwareOutcome(device) == Client.Ok && MockOutcome(mock.result) == Client.Ok
  {
    FirmwareApplies(s, cmd);
    MockApplies(s, cmd);
  }

  /** The fields as a JavaScript object read from the status document would hold them. */
  function ReportAsMock(doc: Document): MockApi.MockState {
    MockApi.MockState(MockApi.Member(doc, "r"), MockApi.Member(doc, "g"), MockApi.Member(doc, "b"),
                      MockApi.Member(doc, "brightness"), MockApi.Member(doc, "power"))
  }

  /**
   * The panel's status check: the firmware answers 200 with the state, the
   * mock answers ok with a copy of the same state, and neither changes it.
   */
  lemma StatusMatches(s: Firmware.LedState)
    ensures var req := Client.StatusRequest;
            var device := Firmware.Serve(s, req.verb, Client.ApiPath("status"), req.body);
            var mock := MockApi.Fetch(AsMock(s), Some(req.verb), req.url, req.body);
            device.Some? && device.value.state == s && FirmwareOutcome(device) == Client.Ok &&
            mock == MockApi.Step(AsMock(s), MockApi.Answered(MockApi.Reply(true, Some(AsMock(s))))) &&
            ReportAsMock(device.value.body) == AsMock(s)
  {
    ClientUrlEndpoint("status");
  }

  /** The two devices start in the same state. */
  lemma InitialStatesAgree()
    ensures AsMock(Firmware.InitialState) == MockApi.InitialState
  {
  }
}
