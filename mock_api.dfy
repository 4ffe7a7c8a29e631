/**
 * The simulated device used in development: the module-level `mockState`,
 * the four `mockApi` endpoints, and `mockFetch`, which routes a URL and a
 * method to one of them. The artificial delay and the logging are left out.
 */
module MockApi {
  import opened Wrappers
  import opened Json

  /** A JavaScript value as the mock stores it: `data.r` on an absent key is `undefined`. */
  datatype Js = Undefined | Defined(v: Value)

  /** The fields of `mockState`, or a copy of them (`{ ...mockState }`). */
  datatype MockState = MockState(r: Js, g: Js, b: Js, brightness: Js, power: Js)

  /** The literal `mockState` starts as. */
  const InitialState := MockState(Defined(Num(255)), Defined(Num(255)), Defined(Num(255)),
                                  Defined(Num(128)), Defined(Bool(true)))

  /** The property read `data[key]`. */
  function Member(data: Document, key: string): Js {
    if key in data then Defined(data[key]) else Undefined
  }

  /**
   * A response of the mock: its `ok` flag and, for the status endpoint, the
   * copy of the state that its `json()` yields. The `{status: 'ok'}` bodies
   * of the setters are not read by anyone and are left out.
   */
  datatype Reply = Reply(ok: bool, snapshot: Option<MockState>)

  /** What the promise `mockFetch` returns settles to: a reply, or a rejection. */
  datatype Fetched = Answered(reply: Reply) | Threw

  /** The setters' reply. */
  const Done := Answered(Reply(true, None))

  /** The reply for a request no endpoint takes. */
  const Refused := Answered(Reply(false, None))

  // ----- `url.split('/api/')` -----

  predicate OccursAt(s: string, sep: string, i: nat) {
    i + |sep| <= |s| && s[i..i + |sep|] == sep
  }

  /**
   * The pieces of `s` between the occurrences of `sep`, found left to right
   * and without overlap, with `cur` in front of the first piece.
   */
  function SplitFrom(s: string, sep: string, cur: string): (parts: seq<string>)
    requires |sep| > 0
    ensures |parts| >= 1
    decreases |s|
  {
    if OccursAt(s, sep, 0) then [cur] + SplitFrom(s[|sep|..], sep, "")
    else if s == [] then [cur]
    else SplitFrom(s[1..], sep, cur + [s[0]])
  }

  /** `String.prototype.split` with a non-empty separator. */
  function Split(s: string, sep: string): seq<string>
    requires |sep| > 0
  {
    SplitFrom(s, sep, "")
  }

  /** `url.split('/api/')[1]`, with None for `undefined`. */
  function EndpointOf(url: string): Option<string> {
    var parts := Split(url, "/api/");
    if |parts| >= 2 then Some(parts[1]) else None
  }

  /** With no separator in `s`, the rest of the string is one piece. */
  lemma {:induction false} SplitWithout(s: string, sep: string, cur: string)
    requires |sep| > 0
    requires forall i: nat :: i < |s| ==> !OccursAt(s, sep, i)
    ensures SplitFrom(s, sep, cur) == [cur + s]
  {
    if s == [] {
      assert cur + s == cur;
    } else {
      assert !OccursAt(s, sep, 0);
      forall i: nat | i < |s[1..]|
        ensures !OccursAt(s[1..], sep, i)
      {
        assert !OccursAt(s, sep, i + 1);
        if i + |sep| <= |s[1..]| {
          assert s[1..][i..i + |sep|] == s[i + 1..i + 1 + |sep|];
        }
      }
      SplitWithout(s[1..], sep, cur + [s[0]]);
      assert cur + [s[0]] + s[1..] == cur + s;
    }
  }

  /** A first occurrence of the separator right after `p` ends the piece there. */
  lemma {:induction false} SplitAfter(p: string, sep: string, rest: string, cur: string)
    requires |sep| > 0
    requires forall i: nat :: i < |p| ==> !OccursAt(p + sep + rest, sep, i)
    ensures SplitFrom(p + sep + rest, sep, cur) == [cur + p] + SplitFrom(rest, sep, "")
  {
    var s := p + sep + rest;
    if p == [] {
      assert s == sep + rest;
      assert s[..|sep|] == sep;
      assert OccursAt(s, sep, 0);
      assert s[|sep|..] == rest;
      assert cur + p == cur;
    } else {
      assert !OccursAt(s, sep, 0);
      var t := p[1..] + sep + rest;
      assert s[1..] == t;
      forall i: nat | i < |p[1..]|
        ensures !OccursAt(t, sep, i)
      {
        assert !OccursAt(s, sep, i + 1);
        if i + |sep| <= |t| {
          assert t[i..i + |sep|] == s[i + 1..i + 1 + |sep|];
        }
      }
      SplitAfter(p[1..], sep, rest, cur + [s[0]]);
      assert cur + [s[0]] + p[1..] == cur + p;
    }
  }

  /** `/api/` does not start at `i` when `s[i]` is not `'/'` or the next character is not `'a'`. */
  lemma NotApiAt(s: string, i: nat)
    requires i < |s|
    requires s[i] != '/' || (i + 1 < |s| && s[i + 1] != 'a')
    ensures !OccursAt(s, "/api/", i)
  {
    if i + 5 <= |s| {
      assert s[i..i + 5][0] == s[i];
      assert i + 1 < |s| ==> s[i..i + 5][1] == s[i + 1];
    }
  }

  /**
   * The endpoint of a URL `base + "/api/" + name`: `name`, when the base has
   * no `'a'` (so `/api/` first occurs right after it) and `name` has no `'/'`
   * (so it does not occur again).
   */
  lemma EndpointOfApiUrl(base: string, name: string)
    requires forall i :: 0 <= i < |base| ==> base[i] != 'a'
    requires forall i :: 0 <= i < |name| ==> name[i] != '/'
    ensures EndpointOf(base + "/api/" + name) == Some(name)
  {
    var sep := "/api/";
    var s := base + sep + name;
    forall i: nat | i < |base|
      ensures !OccursAt(s, sep, i)
    {
      if i + 1 < |base| {
        assert s[i + 1] == base[i + 1];
      } else {
        assert s[i + 1] == '/';
      }
      NotApiAt(s, i);
    }
    SplitAfter(base, sep, name, "");
    forall i: nat | i < |name|
      ensures !OccursAt(name, sep, i)
    {
      NotApiAt(name, i);
    }
    SplitWithout(name, sep, "");
    assert "" + name == name;
    assert Split(s, sep) == ["" + base, name];
  }

  // ----- `mockFetch` routing -----

  /** Where `mockFetch` sends a request. */
  datatype Route = StatusRoute | ColorRoute | BrightnessRoute | PowerRoute | UnknownPost | NoRoute

  /** `options.method === 'GET' || !options.method`: `undefined` and `''` count as a GET. */
  predicate IsGetOrMissing(verb: Option<string>) {
    verb == None || verb == Some("GET") || verb == Some("")
  }

  /** The branching of `mockFetch` on the method and on the endpoint after `/api/`. */
  function RouteOf(verb: Option<string>, url: string): (route: Route)
    ensures route == StatusRoute <==> IsGetOrMissing(verb) && EndpointOf(url) == Some("status")
    ensures route == ColorRoute <==> verb == Some("POST") && EndpointOf(url) == Some("color")
    ensures route == BrightnessRoute <==> verb == Some("POST") && EndpointOf(url) == Some("brightness")
    ensures route == PowerRoute <==> verb == Some("POST") && EndpointOf(url) == Some("power")
    ensures route == UnknownPost <==>
              verb == Some("POST") && EndpointOf(url) !in {Some("color"), Some("brightness"), Some("power")}
    ensures route == NoRoute <==> verb != Some("POST") && !(IsGetOrMissing(verb) && EndpointOf(url) == Some("status"))
  {
    var endpoint := EndpointOf(url);
    if IsGetOrMissing(verb) && endpoint == Some("status") then StatusRoute
    else if verb == Some("POST") then
      match endpoint
      case Some("color") => ColorRoute
      case Some("brightness") => BrightnessRoute
      case Some("power") => PowerRoute
      case _ => UnknownPost
    else NoRoute
  }

  /** `setColor(data)` on the state. */
  function ColorSet(s: MockState, data: Document): MockState {
    s.(r := Member(data, "r"), g := Member(data, "g"), b := Member(data, "b"))
  }

  /** The state after a request and how `mockFetch`'s promise settles. */
  datatype Step = Step(after: MockState, result: Fetched)

  /**
   * `mockFetch(url, { method: verb, body })` on `mockState` = `s`. `body` is what
   * `JSON.parse(options.body)` yields, `None` when it throws (a missing or
   * malformed body); it is parsed for every POST before the endpoint is
   * looked at.
   */
  function Fetch(s: MockState, verb: Option<string>, url: string, body: Option<Document>): (step: Step)
    ensures step.after != s ==> step.result == Done
    ensures step.result == Threw <==> verb == Some("POST") && body.None?
  {
    match RouteOf(verb, url)
    case StatusRoute => Step(s, Answered(Reply(true, Some(s))))
    case NoRoute => Step(s, Refused)
    case _ =>
      if body.None? then Step(s, Threw)
      else
        var data := body.value;
        match RouteOf(verb, url)
        case ColorRoute => Step(ColorSet(s, data), Done)
        case BrightnessRoute => Step(s.(brightness := Member(data, "value")), Done)
        case PowerRoute => Step(s.(power := Member(data, "state")), Done)
        case _ => Step(s, Refused)
  }

  /** A status GET answers ok with a copy equal to the state, and changes nothing. */
  lemma StatusIsReadOnly(s: MockState, verb: Option<string>, url: string, body: Option<Document>)
    requires IsGetOrMissing(verb) && EndpointOf(url) == Some("status")
    ensures Fetch(s, verb, url, body) == Step(s, Answered(Reply(true, Some(s))))
  {
  }

  /** A parsed POST to a setter changes only that setter's fields, and answers ok. */
  lemma SettersChangeTheirFields(s: MockState, url: string, data: Document)
    ensures var endpoint := EndpointOf(url);
            var step := Fetch(s, Some("POST"), url, Some(data));
            (endpoint == Some("color") ==>
               step == Step(s.(r := Member(data, "r"), g := Member(data, "g"), b := Member(data, "b")), Done)) &&
            (endpoint == Some("brightness") ==> step == Step(s.(brightness := Member(data, "value")), Done)) &&
            (endpoint == Some("power") ==> step == Step(s.(power := Member(data, "state")), Done))
  {
  }

  /** Every other request is refused with `ok: false` and leaves the state as it was. */
  lemma OthersRefused(s: MockState, verb: Option<string>, url: string, body: Option<Document>)
    requires !(IsGetOrMissing(verb) && EndpointOf(url) == Some("status"))
    requires !(verb == Some("POST") && EndpointOf(url) in {Some("color"), Some("brightness"), Some("power")})
    requires verb == Some("POST") ==> body.Some?
    ensures Fetch(s, verb, url, body) == Step(s, Refused)
  {
  }

  /** The mock device: `mockState`'s fields, changed in place by the setters. */
  class Mock {
    var r: Js
    var g: Js
    var b: Js
    var brightness: Js
    var power: Js

    /** `{ ...mockState }`. */
    function Snapshot(): MockState
      reads this
    {
      MockState(r, g, b, brightness, power)
    }

    constructor ()
      ensures Snapshot() == InitialState
    {
      r, g, b := Defined(Num(255)), Defined(Num(255)), Defined(Num(255));
      brightness := Defined(Num(128));
      power := Defined(Bool(true));
    }

    /** `mockApi.getStatus()`: ok, with a copy of the state; nothing changes. */
    method GetStatus() returns (reply: Reply)
      ensures reply.ok && reply.snapshot == Some(Snapshot())
    {
      reply := Reply(true, Some(MockState(r, g, b, brightness, power)));
    }

    /** `mockApi.setColor(data)`. */
    method SetColor(data: Document) returns (reply: Reply)
      modifies this
      ensures r == Member(data, "r") && g == Member(data, "g") && b == Member(data, "b")
      ensures brightness == old(brightness) && power == old(power)
      ensures reply == Reply(true, None)
    {
      r := Member(data, "r");
      g := Member(data, "g");
      b := Member(data, "b");
      reply := Reply(true, None);
    }

    /** `mockApi.setBrightness(data)`. */
    method SetBrightness(data: Document) returns (reply: Reply)
      modifies this
      ensures brightness == Member(data, "value")
      ensures r == old(r) && g == old(g) && b == old(b) && power == old(power)
      ensures reply == Reply(true, None)
    {
      brightness := Member(data, "value");
      reply := Reply(true, None);
    }

    /** `mockApi.setPower(data)`. */
    method SetPower(data: Document) returns (reply: Reply)
      modifies this
      ensures power == Member(data, "state")
      ensures r == old(r) && g == old(g) && b == old(b) && brightness == old(brightness)
      ensures reply == Reply(true, None)
    {
      power := Member(data, "state");
      reply := Reply(true, None);
    }

    /** `mockFetch(url, options)`. */
    method MockFetch(verb: Option<string>, url: string, body: Option<Document>) returns (result: Fetched)
      modifies this
      ensures Step(Snapshot(), result) == Fetch(old(Snapshot()), verb, url, body)
    {
      var endpoint := EndpointOf(url);
      if IsGetOrMissing(verb) && endpoint == Some("status") {
        var reply := GetStatus();
        return Answered(reply);
      }
      if verb == Some("POST") {
        if body.None? {
          return Threw;
        }
        var data := body.value;
        var reply;
        match endpoint {
          case Some("color") => reply := SetColor(data);
          case Some("brightness") => reply := SetBrightness(data);
          case Some("power") => reply := SetPower(data);
          case _ => reply := Reply(false, None);
        }
        return Answered(reply);
      }
      return Refused;
    }
  }
}
