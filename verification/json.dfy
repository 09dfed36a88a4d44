/** Decoded JSON values as Python sees them after `json.loads`: the wire
    payloads of both jobs, Telegram response bodies and Cloudinary upload
    results are all dictionaries of these. */
module JsonValues {
  import opened Wrappers
  import opened Text

  /** A JSON value. `JNull` is Python's `None`; numbers are integers only. */
  datatype Json =
    | JNull
    | JBool(b: bool)
    | JInt(n: int)
    | JStr(s: string)
    | JArr(items: seq<Json>)
    | JObj(fields: map<string, Json>)

  /** Python truthiness: `None`, `False`, `0`, `""`, `[]` and `{}` are false. */
  predicate Truthy(j: Json) {
    match j
    case JNull => false
    case JBool(b) => b
    case JInt(n) => n != 0
    case JStr(s) => |s| > 0
    case JArr(items) => |items| > 0
    case JObj(fields) => |fields| > 0
  }

  /** `d.get(key)`: the stored value, or `None` when the key is absent. */
  function Get(d: map<string, Json>, key: string): Json {
    if key in d then d[key] else JNull
  }

  /** Truthiness of an optional string (`x or ...` on `str | None`). */
  predicate TruthyText(s: Option<string>) {
    s.Some? && |s.value| > 0
  }

  /** Python's `str(v)` for a decoded JSON value. Lists and dictionaries are
      rendered as a fixed marker rather than Python's repr. */
  function PyStr(j: Json): string {
    match j
    case JNull => "None"
    case JBool(b) => if b then "True" else "False"
    case JInt(n) => IntToString(n)
    case JStr(s) => s
    case JArr(_) => "[...]"
    case JObj(_) => "{...}"
  }
}
