/** Values the client exchanges with PHP's JSON functions, and the PHP
    built-ins it calls, which this model treats as given functions. */
module PhpJson {

  /** A JSON value as `json_decode($text, true)` yields it: objects become
      string-keyed mappings, arrays become lists. */
  datatype Json =
    | JNull
    | JBool(b: bool)
    | JNumber(n: real)
    | JString(s: string)
    | JArray(items: seq<Json>)
    | JObject(fields: map<string, Json>)

  /** The library functions the client relies on and cannot see into:
      `json_encode`, `json_decode` (with `$assoc = true`) and `serialize`.
      A `json_decode` failure is the value `JNull`. */
  datatype Runtime = Runtime(
    jsonEncode: Json -> string,
    jsonDecode: string -> Json,
    serialize: Json -> string)

  /** Decoding the encoding of `v` gives `v` back. */
  ghost predicate RoundTrips(php: Runtime, v: Json)
  {
    php.jsonDecode(php.jsonEncode(v)) == v
  }

  /** Whether PHP's `if ($v)` takes the branch: every value but the seven
      falsy ones listed by PHP's boolean conversion rules. */
  function Truthy(v: Json): (r: bool)
    ensures r <==> v !in {JNull, JBool(false), JNumber(0.0), JString(""), JString("0"),
                          JArray([]), JObject(map[])}
  {
    match v
    case JNull => false
    case JBool(b) => b
    case JNumber(n) => n != 0.0
    case JString(s) => s != "" && s != "0"
    case JArray(items) => items != []
    case JObject(fields) => fields != map[]
  }

  /** `$m[$key]` on a PHP array: the stored value, or null when the key is
      missing. */
  function Lookup(m: map<string, Json>, key: string): Json
  {
    if key in m then m[key] else JNull
  }

  /** `$v[$key]` on a decoded value: a member of a mapping, otherwise null
      (a list has integer keys only, and null has no members). */
  function Index(v: Json, key: string): Json
  {
    if v.JObject? then Lookup(v.fields, key) else JNull
  }

  /** PHP 8's loose `$v == $s` between a decoded value and a string. A
      boolean compares with the string's truthiness, null equals only the
      empty string, an array never equals a string. Two strings compare as
      text and a number never equals a string: PHP's numeric-string rules
      are not modelled. */
  predicate LooseEqualsString(v: Json, s: string)
  {
    match v
    case JNull => s == ""
    case JBool(b) => b == Truthy(JString(s))
    case JString(t) => t == s
    case JNumber(_) => false
    case JArray(_) => false
    case JObject(_) => false
  }
}
