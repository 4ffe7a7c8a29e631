/**
 * The device: the global `ledState`, the `leds` buffer that `updateLEDs`
 * fills, and the bodies of the HTTP handlers that read and change them.
 */
module Firmware {
  import opened Wrappers
  import opened Json

  /** `NUM_LEDS`: the length of the strip. */
  const NumLeds: nat := 60

  /** FastLED's `CRGB`: one pixel. */
  datatype Crgb = Crgb(red: Byte, green: Byte, blue: Byte)

  /** `CRGB::Black`. */
  const Black := Crgb(0, 0, 0)

  /** The `LEDState` struct. */
  datatype LedState = LedState(r: Byte, g: Byte, b: Byte, brightness: Byte, power: bool)

  /** The defaults `ledState` starts with. */
  const InitialState := LedState(255, 255, 255, 128, true)

  /**
   * A stand-in for ArduinoJson's conversion of a value to `uint8_t`
   * (`ledState.r = doc["r"]`), which this code does not show: a number is
   * itself, a boolean is 0 or 1, and anything else is taken as 0.
   */
  function ByteOf(v: Value): Byte {
    match v
    case Num(n) => n
    case Bool(b) => if b then 1 else 0
    case _ => 0
  }

  /**
   * A stand-in for ArduinoJson's conversion of a value to `bool`
   * (`ledState.power = doc["state"]`), which this code does not show: a
   * boolean is itself, a number is true when non-zero, anything else false.
   */
  function BoolOf(v: Value): bool {
    match v
    case Bool(b) => b
    case Num(n) => n != 0
    case _ => false
  }

  /** The colour `updateLEDs` fills every pixel with. */
  function Fill(s: LedState): Crgb {
    if s.power then Crgb(s.r, s.g, s.b) else Black
  }

  /** What a handler answers (status code and JSON body) and the state it leaves. */
  datatype Answer = Answer(code: int, body: Document, state: LedState)

  /** `{"status":"ok"}`. */
  const OkBody: Document := map["status" := Text("ok")]

  /** `{"error": message}`. */
  function ErrorBody(message: string): Document {
    map["error" := Text(message)]
  }

  /**
   * The `/api/color` POST handler on the parsed body (`None` when
   * `deserializeJson` fails): 200 and a new colour when `r`, `g` and `b` are
   * all present, 400 and no change otherwise.
   */
  function PostColor(s: LedState, doc: Option<Document>): (a: Answer)
    ensures a.code == 200 || a.code == 400
    ensures a.code == 200 <==> doc.Some? && "r" in doc.value && "g" in doc.value && "b" in doc.value
    ensures a.code == 400 ==> a.state == s
    ensures a.code == 200 ==> a.state == s.(r := ByteOf(doc.value["r"]), g := ByteOf(doc.value["g"]), b := ByteOf(doc.value["b"]))
    ensures a.state.brightness == s.brightness && a.state.power == s.power
  {
    if doc.None? then Answer(400, ErrorBody("Invalid JSON"), s)
    else
      var d := doc.value;
      if "r" in d && "g" in d && "b" in d then
        Answer(200, OkBody, s.(r := ByteOf(d["r"]), g := ByteOf(d["g"]), b := ByteOf(d["b"])))
      else
        Answer(400, ErrorBody("Missing r, g, or b"), s)
  }

  /** The `/api/brightness` POST handler: `value` is required. */
  function PostBrightness(s: LedState, doc: Option<Document>): (a: Answer)
    ensures a.code == 200 || a.code == 400
    ensures a.code == 200 <==> doc.Some? && "value" in doc.value
    ensures a.code == 400 ==> a.state == s
    ensures a.code == 200 ==> a.state == s.(brightness := ByteOf(doc.value["value"]))
    ensures a.state.r == s.r && a.state.g == s.g && a.state.b == s.b && a.state.power == s.power
  {
    if doc.None? then Answer(400, ErrorBody("Invalid JSON"), s)
    else if "value" in doc.value then
      Answer(200, OkBody, s.(brightness := ByteOf(doc.value["value"])))
    else
      Answer(400, ErrorBody("Missing value"), s)
  }

  /** The `/api/power` POST handler: `state` is required. */
  function PostPower(s: LedState, doc: Option<Document>): (a: Answer)
    ensures a.code == 200 || a.code == 400
    ensures a.code == 200 <==> doc.Some? && "state" in doc.value
    ensures a.code == 400 ==> a.state == s
    ensures a.code == 200 ==> a.state == s.(power := BoolOf(doc.value["state"]))
    ensures a.state.r == s.r && a.state.g == s.g && a.state.b == s.b && a.state.brightness == s.brightness
  {
    if doc.None? then Answer(400, ErrorBody("Invalid JSON"), s)
    else if "state" in doc.value then
      Answer(200, OkBody, s.(power := BoolOf(doc.value["state"])))
    else
      Answer(400, ErrorBody("Missing state"), s)
  }

  /** The document the `/api/status` GET handler serialises. */
  function StatusReport(s: LedState): (doc: Document)
    ensures doc.Keys == {"r", "g", "b", "brightness", "power"}
  {
    map["r" := Num(s.r), "g" := Num(s.g), "b" := Num(s.b),
        "brightness" := Num(s.brightness), "power" := Bool(s.power)]
  }

  /**
   * The routes `setup()` registers for the three POST handlers and the
   * status GET, on the request's method, path and parsed body; None for a
   * request none of them takes.
   */
  function Serve(s: LedState, verb: string, path: string, doc: Option<Document>): (a: Option<Answer>)
    ensures a.Some? <==> (verb == "POST" && path in {"/api/color", "/api/brightness", "/api/power"})
                         || (verb == "GET" && path == "/api/status")
    ensures a.Some? && a.value.code != 200 ==> a.value.code == 400 && a.value.state == s
    ensures a.Some? && verb == "GET" ==> a.value == Answer(200, StatusReport(s), s)
  {
    if verb == "POST" && path == "/api/color" then Some(PostColor(s, doc))
    else if verb == "POST" && path == "/api/brightness" then Some(PostBrightness(s, doc))
    else if verb == "POST" && path == "/api/power" then Some(PostPower(s, doc))
    else if verb == "GET" && path == "/api/status" then Some(Answer(200, StatusReport(s), s))
    else None
  }

  /**
   * How a reader of the status document gets the state back: every field
   * present, with a number for r, g, b and brightness and a boolean for power.
   */
  function ReportedState(doc: Document): Option<LedState> {
    if "r" in doc && "g" in doc && "b" in doc && "brightness" in doc && "power" in doc
       && doc["r"].Num? && doc["g"].Num? && doc["b"].Num? && doc["brightness"].Num? && doc["power"].Bool?
    then Some(LedState(doc["r"].n, doc["g"].n, doc["b"].n, doc["brightness"].n, doc["power"].b))
    else None
  }

  /** Reading the status document gives exactly the current state, field by field. */
  lemma ReportReadsBack(s: LedState)
    ensures ReportedState(StatusReport(s)) == Some(s)
  {
  }

  /** The report loses nothing: two states with the same report are the same state. */
  lemma StatusReportInjective(s: LedState, t: LedState)
    requires StatusReport(s) == StatusReport(t)
    ensures s == t
  {
    ReportReadsBack(s);
    ReportReadsBack(t);
  }

  /** Repeating any POST with the same body changes nothing more than doing it once. */
  lemma PostsIdempotent(s: LedState, doc: Option<Document>)
    ensures PostColor(PostColor(s, doc).state, doc) == PostColor(s, doc)
    ensures PostBrightness(PostBrightness(s, doc).state, doc) == PostBrightness(s, doc)
    ensures PostPower(PostPower(s, doc).state, doc) == PostPower(s, doc)
  {
  }

  /** A colour POST that is accepted is what the next status GET reports, beside the unchanged fields. */
  lemma ColorThenStatus(s: LedState, d: Document)
    requires "r" in d && "g" in d && "b" in d
    ensures var a := PostColor(s, Some(d));
            a.code == 200 &&
            StatusReport(a.state) == StatusReport(s)["r" := Num(ByteOf(d["r"]))]["g" := Num(ByteOf(d["g"]))]["b" := Num(ByteOf(d["b"]))]
  {
  }

  /** An accepted brightness POST is what the next status GET reports. */
  lemma BrightnessThenStatus(s: LedState, d: Document)
    requires "value" in d
    ensures var a := PostBrightness(s, Some(d));
            a.code == 200 && StatusReport(a.state) == StatusReport(s)["brightness" := Num(ByteOf(d["value"]))]
  {
  }

  /** An accepted power POST is what the next status GET reports. */
  lemma PowerThenStatus(s: LedState, d: Document)
    requires "state" in d
    ensures var a := PostPower(s, Some(d));
            a.code == 200 && StatusReport(a.state) == StatusReport(s)["power" := Bool(BoolOf(d["state"]))]
  {
  }

  /** FastLED's `fill_solid(leds, n, color)`: the first `n` pixels become `color`. */
  method FillSolid(leds: array<Crgb>, n: nat, color: Crgb)
    requires n <= leds.Length
    modifies leds
    ensures forall i :: 0 <= i < n ==> leds[i] == color
    ensures forall i :: n <= i < leds.Length ==> leds[i] == old(leds[i])
  {
    var k := 0;
    while k < n
      invariant k <= n
      invariant forall i :: 0 <= i < k ==> leds[i] == color
      invariant forall i :: k <= i < leds.Length ==> leds[i] == old(leds[i])
    {
      leds[k] := color;
      k := k + 1;
    }
  }

  /** The device: `ledState` and the `leds` buffer. */
  class Device {
    var state: LedState
    const leds: array<Crgb>

    /** Every pixel shows what `updateLEDs` last drew for the current state. */
    ghost predicate Valid()
      reads this, leds
    {
      leds.Length == NumLeds && forall i :: 0 <= i < leds.Length ==> leds[i] == Fill(state)
    }

    /**
     * The globals as the program starts (`ledState`'s defaults, a zeroed
     * buffer), followed by the `updateLEDs()` call in `setup()`.
     */
    constructor ()
      ensures Valid() && fresh(leds)
      ensures state == InitialState
    {
      state := InitialState;
      leds := new Crgb[NumLeds](_ => Black);
      new;
      UpdateLeds();
    }

    /** `updateLEDs()`: the colour when the power is on, black when it is off, on every pixel. */
    method UpdateLeds()
      requires leds.Length == NumLeds
      modifies leds
      ensures Valid()
      ensures forall i :: 0 <= i < NumLeds ==> leds[i] == (if state.power then Crgb(state.r, state.g, state.b) else Black)
    {
      if state.power {
        var color := Crgb(state.r, state.g, state.b);
        FillSolid(leds, NumLeds, color);
      } else {
        FillSolid(leds, NumLeds, Black);
      }
    }

    /** The `/api/color` POST handler. */
    method HandleColor(doc: Option<Document>) returns (code: int, body: Document)
      requires Valid()
      modifies this, leds
      ensures Valid()
      ensures Answer(code, body, state) == PostColor(old(state), doc)
    {
      if doc.None? {
        return 400, ErrorBody("Invalid JSON");
      }
      var d := doc.value;
      if "r" in d && "g" in d && "b" in d {
        state := state.(r := ByteOf(d["r"]));
        state := state.(g := ByteOf(d["g"]));
        state := state.(b := ByteOf(d["b"]));
        UpdateLeds();
        code, body := 200, OkBody;
      } else {
        code, body := 400, ErrorBody("Missing r, g, or b");
      }
    }

    /** The `/api/brightness` POST handler. */
    method HandleBrightness(doc: Option<Document>) returns (code: int, body: Document)
      requires Valid()
      modifies this, leds
      ensures Valid()
      ensures Answer(code, body, state) == PostBrightness(old(state), doc)
    {
      if doc.None? {
        return 400, ErrorBody("Invalid JSON");
      }
      var d := doc.value;
      if "value" in d {
        state := state.(brightness := ByteOf(d["value"]));
        UpdateLeds();
        code, body := 200, OkBody;
      } else {
        code, body := 400, ErrorBody("Missing value");
      }
    }

    /** The `/api/power` POST handler. */
    method HandlePower(doc: Option<Document>) returns (code: int, body: Document)
      requires Valid()
      modifies this, leds
      ensures Valid()
      ensures Answer(code, body, state) == PostPower(old(state), doc)
    {
      if doc.None? {
        return 400, ErrorBody("Invalid JSON");
      }
      var d := doc.value;
      if "state" in d {
        state := state.(power := BoolOf(d["state"]));
        UpdateLeds();
        code, body := 200, OkBody;
      } else {
        code, body := 400, ErrorBody("Missing state");
      }
    }

    /** The `/api/status` GET handler: 200 and the current state, changing nothing. */
    method HandleStatus() returns (code: int, body: Document)
      ensures code == 200
      ensures body == StatusReport(state)
    {
      var doc: Document := map[];
      doc := doc["r" := Num(state.r)];
      doc := doc["g" := Num(state.g)];
      doc := doc["b" := Num(state.b)];
      doc := doc["brightness" := Num(state.brightness)];
      doc := doc["power" := Bool(state.power)];
      code, body := 200, doc;
    }
  }
}
