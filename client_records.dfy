/**
 * A disaster item as the map page receives it from the API and hands it to the heat-map
 * layer. Only the properties the client code reads are kept.
 */
module ClientRecords {
  import opened Js

  /**
   * `item.location.coordinates`: the location is missing or falsy, the location has no
   * truthy `coordinates`, or `coordinates` is an array (normally `[longitude, latitude]`).
   */
  datatype Location = NoLocation | NoCoordinates | Coords(values: seq<JsValue>)

  datatype Fields = Fields(
    location: Location,
    alertLevel: JsValue,
    severity: JsValue,
    kind: JsValue,
    date: JsValue,
    title: JsValue,
    description: JsValue)

  /** An element of the API's list: `null`/`undefined`, another non-object value, or an object. */
  datatype Item = Nullish | Primitive | Record(fields: Fields)

  /** `vs[i]`: `undefined` past the end of the array. */
  function At(vs: seq<JsValue>, i: nat): (v: JsValue)
    ensures i >= |vs| ==> v == Undefined
    ensures i < |vs| ==> v == vs[i]
  {
    if i < |vs| then vs[i] else Undefined
  }
}
