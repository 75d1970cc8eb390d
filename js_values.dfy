/** Values shared by the whole model: an optional value (a JavaScript
    property that may be `undefined`) and JSON documents (graph templates,
    signal payloads). */
module JsValues {

  /** `None` stands for JavaScript's `undefined`. */
  datatype Option<+T> = None | Some(value: T)

  /** A value, or the error a JavaScript exception would have carried. */
  datatype Result<+T, +E> = Success(value: T) | Failure(error: E)

  /** A JSON document, as the graph files and the runtime's payloads carry them.
      Numbers are kept as integers: no float in the core is inspected. */
  datatype Json =
    | JNull
    | JBool(b: bool)
    | JNum(n: int)
    | JStr(s: string)
    | JArr(items: seq<Json>)
    | JObj(fields: map<string, Json>)

  /** A form body as `express.urlencoded` hands it over: field name to text.
      A name that is not a key is a field that was not submitted. */
  type Form = map<string, string>

  /** `form[key]`: the field, or `undefined` when it was not submitted. */
  function Lookup(form: Form, key: string): (r: Option<string>)
    ensures r.Some? <==> key in form
    ensures r.Some? ==> r.value == form[key]
  {
    if key in form then Some(form[key]) else None
  }

  /** JavaScript truthiness of an optional string: `undefined` and `''` are falsy. */
  predicate Truthy(v: Option<string>)
  {
    v.Some? && v.value != ""
  }

  /** `v || fallback` for an optional string. */
  function OrElse(v: Option<string>, fallback: string): (r: string)
    ensures Truthy(v) ==> r == v.value
    ensures !Truthy(v) ==> r == fallback
  {
    if Truthy(v) then v.value else fallback
  }
}
