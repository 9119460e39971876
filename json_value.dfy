// The parsed JSON value that the validators receive (what `JSON.parse`
// returns), and the issues a Zod-style schema reports about it.
module JsonValue {
  import opened Wrappers
  import opened Text

  /** A JSON value. Numbers are never inspected by the schemas, so their value is kept abstract as an int. */
  datatype Json =
    | JNull
    | JBool(b: bool)
    | JNumber(n: int)
    | JString(s: string)
    | JArray(items: seq<Json>)
    | JObject(fields: map<string, Json>)

  /** A step of an issue's path: an object key or an array index. */
  datatype PathSegment = Key(name: string) | Index(i: nat)

  type Path = seq<PathSegment>

  /** One schema violation: where it is and what it says. */
  datatype Issue = Issue(path: Path, message: string)

  /** A member of an object; `None` is JavaScript's `undefined` (the key is absent). */
  function Get(m: map<string, Json>, key: string): Option<Json> {
    if key in m then Some(m[key]) else None
  }

  /** The name the schema library gives the type of a parsed value. */
  function TypeName(j: Json): string {
    match j
    case JNull => "null"
    case JBool(_) => "boolean"
    case JNumber(_) => "number"
    case JString(_) => "string"
    case JArray(_) => "array"
    case JObject(_) => "object"
  }

  /** The library's default message for a value of the wrong type: "Required" when it is absent. */
  function TypeMessage(expected: string, v: Option<Json>): string {
    match v
    case None => "Required"
    case Some(j) => "Expected " + expected + ", received " + TypeName(j)
  }

  /** How a path segment prints in `path.join(".")`: numbers in decimal. */
  function SegmentText(seg: PathSegment): string {
    match seg
    case Key(name) => name
    case Index(i) => NatToString(i)
  }

  /** `path.join(".")`. */
  function JoinPath(path: Path): string {
    Join(seq(|path|, k requires 0 <= k < |path| => SegmentText(path[k])), ".")
  }
}
