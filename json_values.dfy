/** The JSON values the client receives from the model (tool arguments) and
    from the scheduling service (response bodies), seen as the Python objects
    `json.loads` produces, with the dictionary operations the client applies
    to them and the exceptions those operations raise. */
module JsonValues {
  import opened Types

  /** JSON numbers are kept as integers; objects are dictionaries. */
  datatype Json =
    | JNull
    | JBool(b: bool)
    | JNum(n: int)
    | JStr(s: string)
    | JArr(items: seq<Json>)
    | JObj(fields: map<string, Json>)

  /** Python truthiness: None, False, 0, "", [] and {} are false. */
  predicate Truthy(j: Json) {
    match j
    case JNull => false
    case JBool(b) => b
    case JNum(n) => n != 0
    case JStr(s) => s != ""
    case JArr(items) => items != []
    case JObj(fields) => fields != map[]
  }

  /** An exception raised while a tool runs; its text as Python prints it is left opaque. */
  datatype Error =
    | KeyError(key: string)                      // d["key"] on a dict without the key
    | NotSubscriptable(value: Json)              // v["key"] on a value that is not a dict
    | NoAttribute(value: Json, attribute: string) // v.get(...) or v.strip() on the wrong type
    | RequestFailed(detail: string)              // network error, non-2xx status, body not JSON

  /** `d.get(key)` on a dict: the stored value, or None. */
  function Get(fields: map<string, Json>, key: string): (r: Json)
    ensures key !in fields ==> r == JNull
    ensures key in fields ==> r == fields[key]
  {
    if key in fields then fields[key] else JNull
  }

  /** `v[key]`: the stored value, KeyError for a missing key, TypeError for a non-dict. */
  function Lookup(v: Json, key: string): (r: Result<Json, Error>)
    ensures r.Success? <==> v.JObj? && key in v.fields
    ensures r.Success? ==> r.value == v.fields[key]
    ensures v.JObj? && key !in v.fields ==> r == Failure(KeyError(key))
    ensures !v.JObj? ==> r == Failure(NotSubscriptable(v))
  {
    if !v.JObj? then Failure(NotSubscriptable(v))
    else if key in v.fields then Success(v.fields[key])
    else Failure(KeyError(key))
  }

  /** `d.get(key, default)` on a dict: a present key wins even when it holds None. */
  function GetOrDefault(fields: map<string, Json>, key: string, default: Json): (r: Json)
    ensures key in fields ==> r == fields[key]
    ensures key !in fields ==> r == default
  {
    if key in fields then fields[key] else default
  }

  /** `v.get(key, default)` on any value: a non-dict has no `get`. */
  function GetOr(v: Json, key: string, default: Json): (r: Result<Json, Error>)
    ensures r.Success? <==> v.JObj?
    ensures v.JObj? && key in v.fields ==> r == Success(v.fields[key])
    ensures v.JObj? && key !in v.fields ==> r == Success(default)
    ensures !v.JObj? ==> r == Failure(NoAttribute(v, "get"))
  {
    if !v.JObj? then Failure(NoAttribute(v, "get")) else Success(GetOrDefault(v.fields, key, default))
  }
}
