/** JSON values as Python's `json` module produces and consumes them (floats are not modelled). */
module Json {
  import opened Wrappers

  datatype Json =
    | JNull
    | JBool(b: bool)
    | JInt(i: int)
    | JString(s: string)
    | JArray(items: seq<Json>)
    | JObject(fields: map<string, Json>)

  /** Python truthiness (`if x:`) of a decoded JSON value. */
  predicate Truthy(j: Json) {
    match j
    case JNull => false
    case JBool(b) => b
    case JInt(i) => i != 0
    case JString(s) => s != []
    case JArray(items) => items != []
    case JObject(fields) => fields != map[]
  }

  /** The empty JSON object `{}`. */
  const EmptyObject: Json := JObject(map[])

  /** Python truthiness of an optional string argument. */
  predicate Given(s: Option<string>) {
    s.Some? && s.value != []
  }

  /** `requirement and isinstance(requirement, dict)`. */
  predicate IsNonEmptyDict(j: Json) {
    j.JObject? && j.fields != map[]
  }

  /** The one-key dict `{key: value}` when `present`, and `{}` otherwise. */
  function Entry(present: bool, key: string, value: Json): (m: map<string, Json>)
    ensures m.Keys == (if present then {key} else {})
    ensures present ==> m[key] == value
  {
    if present then map[key := value] else map[]
  }

  /** Adding an entry to a dict is setting its key, or nothing when it is absent. */
  lemma EntryUpdate(m: map<string, Json>, present: bool, key: string, value: Json)
    ensures m + Entry(present, key, value) == if present then m[key := value] else m
  {
  }
}
