/**
 * Normalisation of the `units` query parameter against the provider's
 * `OWMUnits` enumeration. The enumeration's declaration is not part of this
 * model, so its list of string values is a parameter, together with the
 * value of `OWMUnits.Metric`, the default.
 */
module Units {
  import opened Wrappers
  import opened QueryParams

  /** `Object.values(OWMUnits)` in declaration order, and `OWMUnits.Metric`. */
  datatype UnitsEnum = UnitsEnum(values: seq<string>, metric: string) {
    /** `Metric` is one of the enumeration's own values. */
    predicate Valid() {
      metric in values
    }
  }

  /** `list.includes(x)` on strings: equality, compared case-sensitively. */
  function Includes(list: seq<string>, x: string): (found: bool)
    ensures found <==> x in list
  {
    if list == [] then false
    else list[0] == x || Includes(list[1..], x)
  }

  /**
   * The value the handler validates: the raw `units` string, or the first
   * element when `units` arrived as an array; `undefined` when the key is
   * absent or the array is empty.
   */
  function UnitsInput(query: Params): (input: Option<string>)
    ensures input.None? <==> UnitsKey !in query || query[UnitsKey] == Multi([])
    ensures input.Some? && query[UnitsKey].Single? ==> input.value == query[UnitsKey].text
    ensures input.Some? && query[UnitsKey].Multi? ==> input.value == query[UnitsKey].items[0]
  {
    if UnitsKey !in query then None
    else match query[UnitsKey]
      case Single(s) => Some(s)
      case Multi(items) => if |items| > 0 then Some(items[0]) else None
  }

  /**
   * The units actually used: the input when it is one of the enumeration's
   * values, otherwise silently `Metric`. No input is rejected.
   */
  function NormaliseUnits(query: Params, owm: UnitsEnum): (units: string)
    ensures owm.Valid() ==> units in owm.values
    ensures UnitsInput(query).Some? && UnitsInput(query).value in owm.values ==>
      units == UnitsInput(query).value
    ensures UnitsInput(query).None? || UnitsInput(query).value !in owm.values ==>
      units == owm.metric
  {
    var input := UnitsInput(query);
    if input.Some? && Includes(owm.values, input.value) then input.value else owm.metric
  }

  /** Of an array of units only the first element is looked at. */
  lemma FirstElementOnly(query: Params, owm: UnitsEnum, first: string, rest: seq<string>)
    ensures NormaliseUnits(query[UnitsKey := Multi([first] + rest)], owm) ==
            NormaliseUnits(query[UnitsKey := Single(first)], owm)
  {
  }

  /** An absent `units` and an empty array both give `Metric`. */
  lemma MissingUnitsIsMetric(query: Params, owm: UnitsEnum)
    requires UnitsKey !in query || query[UnitsKey] == Multi([])
    ensures NormaliseUnits(query, owm) == owm.metric
  {
  }

  /** The comparison is case-sensitive: an input that differs from every value only in case falls back to `Metric`. */
  lemma CaseSensitive(query: Params)
    requires UnitsKey in query && query[UnitsKey] == Single("Imperial")
    ensures NormaliseUnits(query, UnitsEnum(["standard", "metric", "imperial"], "metric")) == "metric"
  {
  }

  /** Normalisation is idempotent: normalising the assembled parameters again yields the units already chosen. */
  lemma NormaliseAssembledIsFixpoint(query: Params, owm: UnitsEnum)
    ensures NormaliseUnits(AssembleParams(query, NormaliseUnits(query, owm)), owm) == NormaliseUnits(query, owm)
  {
  }
}
