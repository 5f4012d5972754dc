/**
 * The `api/current` handler: normalise `units`, assemble the provider
 * parameters, fall back to IP geolocation when no location is given, fetch
 * current conditions, flatten them, and turn every thrown error into an
 * empty 500 response.
 *
 * The two network collaborators are functions of the environment that
 * return `None` when they throw. The calls the handler issues are returned
 * alongside the outcome, so that "not called" can be stated.
 */
module Current {
  import opened Wrappers
  import opened QueryParams
  import opened Units
  import opened Weather

  datatype Request = Request(query: Params, headers: map<string, HeaderValue>)

  datatype Coordinates = Coordinates(lat: real, lon: real)

  /** What the handler depends on besides the request. */
  datatype Environment = Environment(
    owm: UnitsEnum,
    // fetchCoordinates from the location client: IP address to [lat, lon]
    fetchCoordinates: string -> Option<Coordinates>,
    // fetchCurrent of an OpenWeather client built with the configured API key
    fetchCurrent: Params -> Option<RawWeather>,
    // JavaScript's String(number)
    numToString: real -> string)

  /** A call the handler makes to a collaborator. */
  datatype Call = Locate(ip: string) | FetchCurrent(params: Params)

  /** `res.json(data)`, or `res.status(500).end()` with no body. */
  datatype Outcome = Ok(data: CurrentWeatherData) | Failed500

  datatype Exchange = Exchange(outcome: Outcome, calls: seq<Call>)

  /**
   * The fetch and flatten stage, after the calls in `prior`: the provider
   * is called exactly once, and the outcome is a success exactly when it
   * answers with a response that can be flattened.
   */
  function FetchAndFlatten(env: Environment, params: Params, units: string, prior: seq<Call>): (r: Exchange)
    ensures r.calls == prior + [FetchCurrent(params)]
    ensures r.outcome.Ok? <==> env.fetchCurrent(params).Some? && WellShaped(env.fetchCurrent(params).value)
    ensures r.outcome.Ok? ==> r.outcome.data.units == units
  {
    var calls := prior + [FetchCurrent(params)];
    match env.fetchCurrent(params)
    case None => Exchange(Failed500, calls)
    case Some(raw) =>
      match Flatten(raw, units)
      case None => Exchange(Failed500, calls)
      case Some(data) => Exchange(Ok(data), calls)
  }

  /**
   * The handler's behaviour as a composition of its stages. The calls are
   * strictly sequential: at most a location lookup, then at most one
   * provider fetch, and a success always ends with the fetch.
   */
  function Expected(req: Request, env: Environment): (r: Exchange)
    ensures |r.calls| <= 2
    ensures forall i :: 0 <= i < |r.calls| - 1 ==> r.calls[i].Locate?
    ensures |r.calls| == 2 ==> r.calls[0].Locate? && r.calls[1].FetchCurrent?
    ensures r.outcome.Ok? ==> |r.calls| > 0 && r.calls[|r.calls| - 1].FetchCurrent?
  {
    var units := NormaliseUnits(req.query, env.owm);
    var params := AssembleParams(req.query, units);
    if !NeedsGeolocation(params) then
      FetchAndFlatten(env, params, units, [])
    else
      match ForwardedIp(req.headers)
      case None => Exchange(Failed500, [])
      case Some(ip) =>
        match env.fetchCoordinates(ip)
        case None => Exchange(Failed500, [Locate(ip)])
        case Some(c) =>
          var located := InjectCoordinates(params, env.numToString(c.lat), env.numToString(c.lon));
          FetchAndFlatten(env, located, units, [Locate(ip)])
  }

  /**
   * The handler. Every `throw` of the source leaves through the single
   * catch, so each failure returns `Failed500` at once.
   */
  method Handle(req: Request, env: Environment) returns (outcome: Outcome, calls: seq<Call>)
    ensures Exchange(outcome, calls) == Expected(req, env)
    ensures outcome.Ok? ==> outcome.data.units == NormaliseUnits(req.query, env.owm)
  {
    calls := [];
    var units := NormaliseUnits(req.query, env.owm);
    var params := AssembleParams(req.query, units);

    if NeedsGeolocation(params) {
      var ipAddress := ForwardedIp(req.headers);
      if ipAddress.None? {
        return Failed500, calls;
      }
      calls := calls + [Locate(ipAddress.value)];
      var coordinates := env.fetchCoordinates(ipAddress.value);
      if coordinates.None? {
        return Failed500, calls;
      }
      params := params["lat" := Single(env.numToString(coordinates.value.lat))];
      params := params["lon" := Single(env.numToString(coordinates.value.lon))];
    }

    calls := calls + [FetchCurrent(params)];
    var responseData := env.fetchCurrent(params);
    if responseData.None? {
      return Failed500, calls;
    }
    var data := Flatten(responseData.value, units);
    if data.None? {
      return Failed500, calls;
    }
    outcome := Ok(data.value);
  }

  /** On success the echoed units are the normalised ones, hence a member of `OWMUnits`. */
  lemma EchoedUnits(req: Request, env: Environment)
    requires env.owm.Valid()
    ensures var e := Expected(req, env);
      e.outcome.Ok? ==> e.outcome.data.units == NormaliseUnits(req.query, env.owm) &&
                        e.outcome.data.units in env.owm.values
  {
  }

  /** Geolocation is attempted iff no location key is truthy and the forwarded IP is a single string. */
  lemma GeolocationIff(req: Request, env: Environment)
    ensures var e := Expected(req, env);
      (|e.calls| > 0 && e.calls[0].Locate?) <==>
        (NeedsGeolocation(req.query) && ForwardedIp(req.headers).Some?)
    ensures var e := Expected(req, env);
      |e.calls| > 0 && e.calls[0].Locate? ==> e.calls[0].ip == ForwardedIp(req.headers).value
  {
  }

  /** With a truthy location key the provider is called once, with the assembled params, and nothing else is called. */
  lemma LocationGivenFetches(req: Request, env: Environment)
    requires !NeedsGeolocation(req.query)
    ensures Expected(req, env).calls == [FetchCurrent(AssembleParams(req.query, NormaliseUnits(req.query, env.owm)))]
  {
  }

  /**
   * After a successful lookup the provider is called once, with the
   * assembled params carrying the stringified coordinates as `lat` and `lon`.
   */
  lemma LocatedFetches(req: Request, env: Environment, ip: string, c: Coordinates)
    requires NeedsGeolocation(req.query) && ForwardedIp(req.headers) == Some(ip)
    requires env.fetchCoordinates(ip) == Some(c)
    ensures Expected(req, env).calls ==
      [Locate(ip),
       FetchCurrent(InjectCoordinates(AssembleParams(req.query, NormaliseUnits(req.query, env.owm)),
                                      env.numToString(c.lat), env.numToString(c.lon)))]
  {
  }

  /** Without a location and without a single forwarded IP the request fails before any call. */
  lemma MissingIpFailsFirst(req: Request, env: Environment)
    requires NeedsGeolocation(req.query) && ForwardedIp(req.headers).None?
    ensures Expected(req, env) == Exchange(Failed500, [])
  {
  }

  /** A failed geolocation ends the request with 500; the provider is never called. */
  lemma LocateFailureFails(req: Request, env: Environment, ip: string)
    requires NeedsGeolocation(req.query) && ForwardedIp(req.headers) == Some(ip)
    requires env.fetchCoordinates(ip).None?
    ensures Expected(req, env) == Exchange(Failed500, [Locate(ip)])
  {
  }

  /**
   * The provider sees the raw query with `units` replaced by the normalised
   * value; `lat` and `lon` are overwritten with the stringified coordinates
   * exactly when geolocation ran, and are the query's own otherwise.
   */
  lemma ProviderParams(req: Request, env: Environment, params: Params)
    requires FetchCurrent(params) in Expected(req, env).calls
    ensures params[UnitsKey] == Single(NormaliseUnits(req.query, env.owm))
    ensures forall k :: k != UnitsKey && k != "lat" && k != "lon" ==>
      (k in params <==> k in req.query) && (k in req.query ==> params[k] == req.query[k])
    ensures !NeedsGeolocation(req.query) ==>
      forall k :: k != UnitsKey ==> (k in params <==> k in req.query) && (k in req.query ==> params[k] == req.query[k])
    ensures NeedsGeolocation(req.query) ==>
      var c := env.fetchCoordinates(ForwardedIp(req.headers).value).value;
      params["lat"] == Single(env.numToString(c.lat)) && params["lon"] == Single(env.numToString(c.lon))
  {
  }

  /**
   * The outcome is a success exactly when the provider answered with a
   * response the handler can flatten; the body is then that flattening.
   * Every other path, whatever failed, ends in the same empty 500.
   */
  lemma SuccessIff(req: Request, env: Environment)
    ensures var e := Expected(req, env);
      e.outcome.Ok? <==>
        (|e.calls| > 0 && e.calls[|e.calls| - 1].FetchCurrent? &&
         var sent := e.calls[|e.calls| - 1].params;
         env.fetchCurrent(sent).Some? && WellShaped(env.fetchCurrent(sent).value))
    ensures var e := Expected(req, env);
      e.outcome.Ok? ==>
        e.outcome.data == Flatten(env.fetchCurrent(e.calls[|e.calls| - 1].params).value,
                                  NormaliseUnits(req.query, env.owm)).value
  {
  }

  /** `{q: "London", units: "imperial"}` reaches the provider unchanged and echoes `imperial`. */
  lemma LondonImperial(env: Environment, raw: RawWeather)
    requires "imperial" in env.owm.values
    requires env.fetchCurrent(map["q" := Single("London"), "units" := Single("imperial")]) == Some(raw)
    requires WellShaped(raw)
    ensures var e := Expected(Request(map["q" := Single("London"), "units" := Single("imperial")], map[]), env);
      e.calls == [FetchCurrent(map["q" := Single("London"), "units" := Single("imperial")])] &&
      e.outcome.Ok? && e.outcome.data.units == "imperial"
  {
    var query := map["q" := Single("London"), "units" := Single("imperial")];
    assert AssembleParams(query, "imperial") == query;
  }
}
