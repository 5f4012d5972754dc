/**
 * The request side of the endpoint: query values as a URL-query parser hands
 * them over (a key given once is a string, a repeated key an array of
 * strings), request headers, JavaScript truthiness of a parameter, and the
 * provider parameter map the handler assembles and then overwrites two keys of.
 */
module QueryParams {
  import opened Wrappers

  /** One query parameter: `string | string[]`. */
  datatype QueryValue = Single(text: string) | Multi(items: seq<string>)

  /** `req.query` and the provider parameters (`OWMParams`) share this shape. */
  type Params = map<string, QueryValue>

  /** One request header: `string | string[]`; an absent header is a missing key. */
  datatype HeaderValue = One(text: string) | Many(items: seq<string>)

  const UnitsKey := "units"
  const ForwardedForHeader := "x-forwarded-for"

  /** The four keys that each name a location mode for the provider. */
  const LocationKeys: set<string> := {"zip", "q", "lat", "lon"}

  /**
   * `!!params[key]` in JavaScript: an absent key (`undefined`) and the empty
   * string are falsy; any other string is truthy, and so is every array,
   * even an empty one.
   */
  predicate Truthy(params: Params, key: string)
    ensures Truthy(params, key) <==> key in params && params[key] != Single("")
  {
    key in params &&
    match params[key]
    case Single(s) => s != ""
    case Multi(_) => true
  }

  /**
   * The fallback test `!params.zip && !params.q && !params.lat && !params.lon`:
   * geolocation is needed exactly when every location key is absent or an
   * empty string.
   */
  predicate NeedsGeolocation(params: Params)
    ensures NeedsGeolocation(params) <==>
      forall k :: k in LocationKeys && k in params ==> params[k] == Single("")
  {
    !Truthy(params, "zip") && !Truthy(params, "q") && !Truthy(params, "lat") && !Truthy(params, "lon")
  }

  /** An array is truthy even when it is empty, so it always suppresses the fallback. */
  lemma ArrayLocationSuppressesFallback(params: Params, key: string, items: seq<string>)
    requires key in LocationKeys
    ensures !NeedsGeolocation(params[key := Multi(items)])
  {
  }

  /**
   * `{...req.query, units}`: every raw key and value is copied, and the
   * validated units string replaces whatever the query held under `units`.
   */
  function AssembleParams(query: Params, units: string): (params: Params)
    ensures params.Keys == query.Keys + {UnitsKey}
    ensures params[UnitsKey] == Single(units)
    ensures forall k :: k in query && k != UnitsKey ==> params[k] == query[k]
  {
    query[UnitsKey := Single(units)]
  }

  /** Merging in `units` never changes whether the location fallback is taken. */
  lemma AssemblePreservesLocationMode(query: Params, units: string)
    ensures NeedsGeolocation(AssembleParams(query, units)) == NeedsGeolocation(query)
  {
  }

  /**
   * `[params.lat, params.lon] = [String(lat), String(lon)]`: the two
   * coordinate keys are overwritten and nothing else changes.
   */
  function InjectCoordinates(params: Params, lat: string, lon: string): (patched: Params)
    ensures patched.Keys == params.Keys + {"lat", "lon"}
    ensures patched["lat"] == Single(lat) && patched["lon"] == Single(lon)
    ensures forall k :: k in params && k != "lat" && k != "lon" ==> patched[k] == params[k]
  {
    params["lat" := Single(lat)]["lon" := Single(lon)]
  }

  /**
   * `req.headers['x-forwarded-for']` when `typeof` says it is a string; an
   * absent or repeated header gives no address.
   */
  function ForwardedIp(headers: map<string, HeaderValue>): (ip: Option<string>)
    ensures ip.Some? <==> ForwardedForHeader in headers && headers[ForwardedForHeader].One?
    ensures ip.Some? ==> headers[ForwardedForHeader] == One(ip.value)
  {
    if ForwardedForHeader in headers then
      match headers[ForwardedForHeader]
      case One(s) => Some(s)
      case Many(_) => None
    else None
  }
}
