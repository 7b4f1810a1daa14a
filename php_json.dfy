/**
 * Already-decoded JSON values, as PHP's json_decode($text, true) hands them
 * to the gateway, together with the two PHP tests the gateway applies to
 * them: isset($value[$key]) and empty($value).
 */
module PhpJson {

  datatype Option<+T> = None | Some(value: T)

  /** A decoded JSON document. Objects and lists both become PHP arrays;
      numbers are kept as reals (their float rounding is not modelled). */
  datatype Json =
    | JNull
    | JBool(b: bool)
    | JNumber(n: real)
    | JString(s: string)
    | JArray(items: seq<Json>)
    | JObject(fields: map<string, Json>)

  /** PHP empty(): null, false, 0, "", "0" and the empty array are empty. */
  predicate Empty(j: Json) {
    match j
    case JNull => true
    case JBool(b) => !b
    case JNumber(n) => n == 0.0
    case JString(s) => s == "" || s == "0"
    case JArray(items) => items == []
    case JObject(fields) => fields == map[]
  }

  /** PHP truthiness, the test behind `if (!$data)`. */
  predicate Truthy(j: Json) {
    !Empty(j)
  }

  /** `isset($j[$key]) ? $j[$key] : null` for a non-numeric string key: only a
      decoded object holding the key with a non-null value has it; lists,
      strings and scalars never do. */
  function Field(j: Json, key: string): (r: Option<Json>)
    ensures r.Some? <==> j.JObject? && key in j.fields && j.fields[key] != JNull
    ensures r.Some? ==> r.value == j.fields[key] && r.value != JNull
  {
    if j.JObject? && key in j.fields && j.fields[key] != JNull then Some(j.fields[key]) else None
  }
}
