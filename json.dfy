/**
 * The values a request dictionary holds: what Python's json module serialises
 * (None, bool, int, str, list, dict with string keys). Floats are not used by
 * the client and are left out.
 */
module JsonValues {
  import opened Wrappers

  datatype Json =
    | JNull
    | JBool(b: bool)
    | JInt(i: int)
    | JStr(s: string)
    | JList(items: seq<Json>)
    | JObject(fields: map<string, Json>)

  /** A Python dict with string keys, as the client builds and sends it. */
  type Dict = map<string, Json>

  /** Python truthiness: None, False, 0, "" and empty containers are false. */
  predicate Truthy(v: Json)
  {
    match v
    case JNull => false
    case JBool(b) => b
    case JInt(i) => i != 0
    case JStr(s) => |s| > 0
    case JList(items) => |items| > 0
    case JObject(fields) => |fields| > 0
  }

  /** `d.get(k)`: the value under `k`, or None when the key is missing. */
  function Get(d: Dict, k: string): Json
  {
    if k in d then d[k] else JNull
  }

  // Encoders for the argument types the client's signatures declare.

  function Str(s: string): Json { JStr(s) }

  function Int(i: int): Json { JInt(i) }

  function Bool(b: bool): Json { JBool(b) }

  function Ints(xs: seq<int>): Json
  {
    JList(seq(|xs|, k requires 0 <= k < |xs| => JInt(xs[k])))
  }

  function Strs(xs: seq<string>): Json
  {
    JList(seq(|xs|, k requires 0 <= k < |xs| => JStr(xs[k])))
  }

  /** An `Optional[str]` argument: None is sent as JSON null. */
  function OptStr(o: Option<string>): Json
  {
    match o
    case None => JNull
    case Some(s) => JStr(s)
  }

  function OptInt(o: Option<int>): Json
  {
    match o
    case None => JNull
    case Some(i) => JInt(i)
  }

  function OptBool(o: Option<bool>): Json
  {
    match o
    case None => JNull
    case Some(b) => JBool(b)
  }

  function OptInts(o: Option<seq<int>>): Json
  {
    match o
    case None => JNull
    case Some(xs) => Ints(xs)
  }
}
