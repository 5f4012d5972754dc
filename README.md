# Current-weather endpoint: request normalisation and response shaping

This project models the core of the `api/current` serverless handler of a
weather API. The handler takes a query (`units`, `zip`, `q`, `lat`, `lon` and
any other provider parameter, each either a string or an array of strings)
and the request headers, and does five things in order:

1. **Units normalisation.** The `units` value is taken; of an array, only the
   first element is taken. The value is kept when it is one of the `OWMUnits`
   enumeration's values, compared case-sensitively. Otherwise it silently
   becomes `OWMUnits.Metric`.
2. **Parameter assembly.** The raw query is copied, and the validated units
   replace any raw `units` key.
3. **Location fallback.** When `zip`, `q`, `lat` and `lon` are all falsy in
   JavaScript terms, the caller's IP comes from the `x-forwarded-for` header.
   The header must be a single string, otherwise the handler throws. The IP is
   resolved to coordinates, which are stringified into `lat` and `lon`.
4. **Fetch and flatten.** The provider's nested response is copied field by
   field into the flat `CurrentWeatherData`. The four precipitation fields
   default to 0, and `units` echoes the normalised value.
5. **Outcome.** Every thrown error ends in status 500 with an empty body.

Modules, one per stage:

- `Wrappers`: `Option`.
- `QueryParams`: query and header values, JavaScript truthiness, the
  fallback test, the parameter merge and the coordinate injection.
- `Units`: the `OWMUnits` enumeration (as a value list plus the `Metric`
  value), `Array.prototype.includes`, and units normalisation.
- `Weather`: the provider's record, the output record and `Flatten`.
- `Current`: the collaborators, the handler `Handle` (imperative: it
  reassigns its local parameter map and leaves at the first failure) and the pure
  composition `Expected` it is proved equal to, with lemmas about it.

The two network collaborators, `fetchCoordinates` and the OpenWeather
client's `fetchCurrent`, are function-valued fields of `Environment`.
Each returns `None` when the call throws. `String(number)` is the field
`numToString`. `Handle` also returns the list of collaborator calls it made,
so that "not called" can be stated.

The fallback test (api/current.ts:50) is JavaScript falsiness: an empty
string counts as absent, and an array, even an empty one, counts as present.

## Model

| member | source | states |
|---|---|---|
| `QueryParams.Truthy` | api/current.ts:50 | A parameter is truthy exactly when it is present and not the empty string; every array, even an empty one, is truthy. |
| `QueryParams.NeedsGeolocation` | api/current.ts:50 | The fallback is taken exactly when each of `zip`, `q`, `lat`, `lon` is absent or the empty string. |
| `QueryParams.ArrayLocationSuppressesFallback` | api/current.ts:50 | An array under a location key, even an empty one, is truthy and suppresses the fallback. |
| `QueryParams.AssembleParams` | api/current.ts:48 | The params keep every raw key and value except `units`, which holds the validated value; no key is lost and only `units` may be added. |
| `QueryParams.AssemblePreservesLocationMode` | api/current.ts:48-50 | Testing the fallback on the merged params gives the same answer as testing the raw query. |
| `QueryParams.InjectCoordinates` | api/current.ts:55-56 | After the injection `lat` and `lon` hold the stringified coordinates, and every other key and value is unchanged. |
| `QueryParams.ForwardedIp` | api/current.ts:51-54 | An IP is obtained exactly when `x-forwarded-for` is present and a single string, and it is that string. |
| `Units.Includes` | api/current.ts:44-46 | The `includes` test on the enumeration's value list is true iff the value is in the list. |
| `Units.UnitsInput` | api/current.ts:38-41 | The input is missing exactly when `units` is absent or an empty array; otherwise it is the string, or the array's first element. |
| `Units.NormaliseUnits` | api/current.ts:38-46 | The chosen units always belong to `OWMUnits`. They equal the input when the input is a member, and are `Metric` otherwise, including when the input is missing. |
| `Units.FirstElementOnly` | api/current.ts:40-41 | An array `units` normalises exactly as its first element given alone would. |
| `Units.MissingUnitsIsMetric` | api/current.ts:40-46 | An absent `units` and an empty array both give `Metric`. |
| `Units.CaseSensitive` | api/current.ts:46 | `Imperial` is not `imperial`: with the OpenWeatherMap value list it falls back to `metric`. |
| `Units.NormaliseAssembledIsFixpoint` | api/current.ts:43-48 | Normalising the assembled params again returns the units already chosen, so normalisation is idempotent. |
| `Weather.Amount` | api/current.ts:71-74 | `(p && p[w]) \|\| 0` is the reading when the object and the key are present, a present 0 included, and 0 when either is missing. |
| `Weather.Flatten` | api/current.ts:62-86 | Flattening succeeds iff `coord`, `main`, `wind`, `clouds` and `sys` are present. On success the output `units` is the normalised value passed in, not anything from the response. |
| `Weather.WellShaped` | api/current.ts:63-85 | The nested objects the object literal dereferences (`clouds`, `sys`, `main`, `coord`, `wind`) are all present; flattening succeeds exactly then (see `Weather.Flatten`). |
| `Weather.PrecipitationDefaults` | api/current.ts:71-74 | Each of `rain_1h`, `rain_3h`, `snow_1h`, `snow_3h` is the provider's value when both levels are present, and 0 when either is missing. |
| `Weather.RainOneHourOnly` | api/current.ts:71-74 | `rain: {'1h': 2.5}` and no `snow` give `rain_1h == 2.5` and 0 for the other three. |
| `Weather.DirectCopies` | api/current.ts:62-86 | Every non-precipitation, non-units output field is the corresponding provider field. |
| `Weather.FlattenNestRoundTrip` | api/current.ts:62-86 | Each flat record is recovered from a provider response carrying its values, so no field is lost or cross-wired. |
| `Current.FetchAndFlatten` | api/current.ts:59-86 | The provider is called exactly once, after the earlier calls. Success holds exactly when it answers with a response that can be flattened, and the output echoes the given units. |
| `Current.Expected` | api/current.ts:36-94 | Calls are strictly sequential: at most a location lookup, then at most one provider fetch. A success always ends with the fetch. |
| `Current.Handle` | api/current.ts:36-94 | The imperative handler returns exactly the outcome and the collaborator calls of the stage composition `Expected`. On success its `units` are the normalised ones. |
| `Current.EchoedUnits` | api/current.ts:43-82 | On success the output `units` is the normalised value, and it belongs to `OWMUnits`. |
| `Current.GeolocationIff` | api/current.ts:50-55 | Geolocation is attempted iff no location key is truthy and the forwarded IP is a single string, and it is attempted with that IP. |
| `Current.LocationGivenFetches` | api/current.ts:48-60 | With a truthy location key, the only call is one provider fetch with the assembled params. |
| `Current.LocatedFetches` | api/current.ts:50-60 | After a successful lookup the calls are that lookup, then one provider fetch whose params carry the stringified coordinates as `lat` and `lon`. |
| `Current.MissingIpFailsFirst` | api/current.ts:50-54 | With no location and no single forwarded IP the outcome is 500, and no collaborator is called. |
| `Current.LocateFailureFails` | api/current.ts:55-93 | A failing coordinates lookup gives 500, and the provider is never called. |
| `Current.ProviderParams` | api/current.ts:48-60 | The provider receives the raw query with `units` replaced. `lat`/`lon` are the stringified coordinates when geolocation ran, and the query's own otherwise. |
| `Current.SuccessIff` | api/current.ts:59-93 | Success holds exactly when the provider answered with a response that can be flattened, and the body is that flattening. Every other failure is the same empty 500. |
| `Current.LondonImperial` | api/current.ts:40-88 | `{q: "London", units: "imperial"}` reaches the provider unchanged and the output echoes `imperial`. |

## Left out

- HTTP plumbing (`res.json`, `res.status(500).end()`): only the `Outcome` they carry is modelled.
- `console.error` logging of the caught error: a side effect with no effect on the outcome.
- The `OPENWEATHER_API_KEY` lookup and the client's construction: both are folded into the `fetchCurrent` collaborator.
- The internals of `fetchCoordinates` and of the OpenWeather client: network calls, modelled as functions that may fail.
- `async`/`await`: the two awaits are strictly sequential, so the handler is a sequential method.
- The `OWMUnits` declaration is not part of this model: its value list and its `Metric` value are parameters. `Units.CaseSensitive` uses OpenWeatherMap's `standard`/`metric`/`imperial` only as an example.
- `Weather.Amount`: JavaScript numbers are modelled as `real`, so `NaN` (falsy, hence turned into 0 by `|| 0`) is not modelled.
- The exact text of `String(lat)`: it is the abstract `numToString`.
- Leaf fields missing from the provider response: a missing leaf is `undefined` in JavaScript and is dropped from the JSON. The model gives every leaf a value and only lets the nested objects be missing. A provider `null` response is not modelled either.
- The contents of `OWMWeatherCondition` values and of provider pass-through parameters: they are copied opaquely. The condition record uses OpenWeatherMap's four documented fields.
- Header-name case folding and object-prototype keys: headers and the query are plain maps.
