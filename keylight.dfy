// The device client: the light's wire records and the two HTTP exchanges
// (fetch the current state, push a desired state) against one key light.
// HTTP transport and JSON (de)serialisation are abstracted into a `Reply`
// value: what came back for a request, already decoded or not.

module KeyLight {

  datatype Option<T> = None | Some(value: T)

  /** One light as the device reports it; `on` is 0 or 1 on the wire. */
  datatype Light = Light(on: int, brightness: int, temperature: int)

  /** The wrapper object `{numberOfLights, lights}` of the device API. */
  datatype Lights = Lights(numberOfLights: int, lights: seq<Light>)

  /** The two requests the client issues. */
  datatype Request = Get(url: string) | Put(url: string, body: Lights)

  /** What the device answered: no answer at all (the request could not be
      sent, the device is unreachable or the timeout expired), or an HTTP
      status that is or is not a success together with the body, where
      `None` stands for a body that does not decode into `Lights`. */
  datatype Reply = NoReply | Reply(success: bool, body: Option<Lights>)

  datatype DeviceError = Unreachable | BadStatus | Undecodable | NoLight

  /** How a device operation ends: with a light, with an error returned to
      the caller, or by aborting the process (a panic). */
  datatype Outcome = Ok(light: Light) | Err(error: DeviceError) | Panic(error: DeviceError)

  /** The power flag is sent as the integer 1 (on) or 0 (off). */
  function NewLight(on: bool, brightness: int, temperature: int): (l: Light)
    ensures l.on == 0 || l.on == 1
    ensures l.on == 1 <==> on
    ensures l.brightness == brightness && l.temperature == temperature
  {
    Light(if on then 1 else 0, brightness, temperature)
  }

  /** The request body of a push: a wrapper holding exactly the one light. */
  function NewLights(light: Light): (w: Lights)
    ensures w.numberOfLights == |w.lights| == 1
    ensures light in w.lights
  {
    Lights(1, [light])
  }

  /** The light the client keeps from a decoded wrapper: the first one. */
  function FirstLight(w: Lights): (r: Option<Light>)
    ensures r.None? <==> w.lights == []
    ensures r.Some? ==> r.value == w.lights[0]
  {
    if w.lights == [] then None else Some(w.lights[0])
  }

  /** The single endpoint both operations use. */
  function Url(ip: string): (u: string)
    ensures |u| == |ip| + 26
    ensures u[..7] == "http://" && u[7..7 + |ip|] == ip
    ensures u[7 + |ip|..] == ":9123/elgato/lights"
  {
    "http://" + ip + ":9123/elgato/lights"
  }

  /** Distinct addresses name distinct endpoints. */
  lemma UrlInjective(a: string, b: string)
    requires Url(a) == Url(b)
    ensures a == b
  {
  }

  /** A reply the client accepts: a success status, a decodable body and a
      non-empty list of lights. */
  predicate Accepted(reply: Reply)
  {
    reply.Reply? && reply.success && reply.body.Some? && reply.body.value.lights != []
  }

  /** What `fetch_light_status` makes of the device's reply to its GET: every
      failure aborts the process. */
  function FetchOutcome(reply: Reply): (r: Outcome)
    ensures r.Ok? <==> Accepted(reply)
    ensures r.Ok? ==> r.light == reply.body.value.lights[0]
    ensures !r.Err?
    ensures reply.NoReply? ==> r == Panic(Unreachable)
    ensures reply.Reply? && !reply.success ==> r == Panic(BadStatus)
    ensures reply.Reply? && reply.success && reply.body.None? ==> r == Panic(Undecodable)
    ensures reply.Reply? && reply.success && reply.body.Some? && reply.body.value.lights == []
            ==> r == Panic(NoLight)
  {
    match reply
    case NoReply => Panic(Unreachable)
    case Reply(success, body) =>
      if !success then Panic(BadStatus)
      else if body.None? then Panic(Undecodable)
      else match FirstLight(body.value)
        case None => Panic(NoLight)
        case Some(l) => Ok(l)
  }

  /** What `set_light` makes of the device's reply to its PUT: a transport or
      decode failure is returned to the caller as an error, a failure status
      or an empty list aborts the process. */
  function PushOutcome(reply: Reply): (r: Outcome)
    ensures r.Ok? <==> Accepted(reply)
    ensures r.Ok? ==> r.light == reply.body.value.lights[0]
    ensures reply.NoReply? ==> r == Err(Unreachable)
    ensures reply.Reply? && !reply.success ==> r == Panic(BadStatus)
    ensures reply.Reply? && reply.success && reply.body.None? ==> r == Err(Undecodable)
    ensures reply.Reply? && reply.success && reply.body.Some? && reply.body.value.lights == []
            ==> r == Panic(NoLight)
  {
    match reply
    case NoReply => Err(Unreachable)
    case Reply(success, body) =>
      if !success then Panic(BadStatus)
      else if body.None? then Err(Undecodable)
      else match FirstLight(body.value)
        case None => Panic(NoLight)
        case Some(l) => Ok(l)
  }

  /** Fetch and push accept exactly the same replies and keep the same light
      from them; they differ only in which failures abort and which are
      returned. */
  lemma FetchAndPushAgree(reply: Reply)
    ensures FetchOutcome(reply).Ok? <==> PushOutcome(reply).Ok?
    ensures FetchOutcome(reply).Ok? ==> FetchOutcome(reply) == PushOutcome(reply)
    ensures !FetchOutcome(reply).Ok? ==> FetchOutcome(reply).error == PushOutcome(reply).error
  {
  }

  /** The push body read back by the client's own rule gives the light that
      was pushed, and its power flag decodes (`on == 1`) to the power sent. */
  lemma PayloadRoundTrip(on: bool, brightness: int, temperature: int)
    ensures var l := NewLight(on, brightness, temperature);
            FirstLight(NewLights(l)) == Some(l) &&
            (FirstLight(NewLights(l)).value.on == 1) == on
  {
  }

  /** `fetch_light_status`: GET the endpoint and keep the first light. */
  method FetchLightStatus(ip: string, reply: Reply) returns (request: Request, r: Outcome)
    ensures request == Get(Url(ip))
    ensures r == FetchOutcome(reply)
  {
    request := Get(Url(ip));
    if reply.NoReply? {
      return request, Panic(Unreachable);
    }
    if !reply.success {
      return request, Panic(BadStatus);
    }
    if reply.body.None? {
      return request, Panic(Undecodable);
    }
    var lights := reply.body.value.lights;
    if |lights| == 0 {
      return request, Panic(NoLight);
    }
    r := Ok(lights[0]);
  }

  /** `set_light`: PUT the light wrapped as a one-light list to the same
      endpoint, and keep the first light of the device's answer. */
  method SetLight(ip: string, light: Light, reply: Reply) returns (request: Request, r: Outcome)
    ensures request == Put(Url(ip), NewLights(light))
    ensures r == PushOutcome(reply)
  {
    request := Put(Url(ip), NewLights(light));
    if reply.NoReply? {
      return request, Err(Unreachable);
    }
    if !reply.success {
      return request, Panic(BadStatus);
    }
    if reply.body.None? {
      return request, Err(Undecodable);
    }
    var lights := reply.body.value.lights;
    if |lights| == 0 {
      return request, Panic(NoLight);
    }
    r := Ok(lights[0]);
  }
}
