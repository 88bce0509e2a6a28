/**
 * The dynamically typed payloads that travel through the system: the values
 * stored under the string keys of a message's `content`, of a task
 * descriptor, of a document's or response's `metadata`, and of every
 * `to_dict` rendering.
 */
module Values {
  import opened Wrappers

  /** A capability an agent advertises: a name plus free-form schemas. */
  datatype AgentCapability = AgentCapability(
    name: string,
    description: string,
    inputSchema: map<string, Value>,
    outputSchema: map<string, Value>)

  /**
   * One Python value. `Float` keeps a float payload opaque (no arithmetic is
   * done on it), `Timestamp(t)` stands for the ISO-8601 text of instant `t`,
   * `Capability` is an `AgentCapability` object, and `Object` is a reference
   * to a mutable dictionary (the coordinator's workflow records).
   */
  datatype Value =
    | Null
    | Bool(b: bool)
    | Int(i: int)
    | Float(x: real)
    | Str(s: string)
    | Timestamp(at: int)
    | List(items: seq<Value>)
    | Dict(fields: map<string, Value>)
    | Capability(cap: AgentCapability)
    | Object(ref: object)

  /** `d.get(key)`: the stored value, or `None` when the key is absent. */
  function Get(d: map<string, Value>, key: string): (v: Value)
    ensures key !in d ==> v == Null
    ensures key in d ==> v == d[key]
  {
    if key in d then d[key] else Null
  }

  /** `d.get(key, default)`. */
  function GetOr(d: map<string, Value>, key: string, default: Value): (v: Value)
    ensures key !in d ==> v == default
    ensures key in d ==> v == d[key]
  {
    if key in d then d[key] else default
  }

  /** Decimal text of a natural number. */
  function NatToString(n: nat): (s: string)
    ensures |s| > 0
    ensures forall k :: 0 <= k < |s| ==> '0' <= s[k] <= '9'
    decreases n
  {
    var digit := ['0' + (n % 10) as char];
    if n < 10 then digit else NatToString(n / 10) + digit
  }

  /** `str(n)` for a Python int. */
  function IntToString(i: int): (s: string)
    ensures |s| > 0
    ensures (i < 0) <==> s[0] == '-'
  {
    if i < 0 then "-" + NatToString(-i) else NatToString(i)
  }

  /**
   * `str(v)`, as used in f-strings. Exact for strings, `None`, booleans and
   * integers; the other kinds get a placeholder naming their type.
   */
  function Render(v: Value): (text: string)
  {
    match v
    case Null => "None"
    case Bool(b) => if b then "True" else "False"
    case Int(i) => IntToString(i)
    case Str(s) => s
    case _ => "<" + TypeName(v) + ">"
  }

  /** `type(v).__name__`. */
  function TypeName(v: Value): (name: string)
    ensures |name| > 0
  {
    match v
    case Null => "NoneType"
    case Bool(_) => "bool"
    case Int(_) => "int"
    case Float(_) => "float"
    case Str(_) => "str"
    case Timestamp(_) => "str"
    case List(_) => "list"
    case Dict(_) => "dict"
    case Capability(_) => "AgentCapability"
    case Object(_) => "dict"
  }

  /** The items of a list value; anything else reads as the empty list. */
  function ListItems(v: Value): (items: seq<Value>)
    ensures v.List? ==> items == v.items
    ensures !v.List? ==> items == []
  {
    if v.List? then v.items else []
  }

  /** Python's `hash` accepts the value: lists, dictionaries and (non-frozen) dataclass objects are refused. */
  predicate Hashable(v: Value)
  {
    !(v.List? || v.Dict? || v.Capability? || v.Object?)
  }

  /** The `TypeError` text for using an unhashable value as a dictionary key. */
  function UnhashableError(v: Value): (e: string)
    ensures |e| > 0
  {
    "unhashable type: '" + TypeName(v) + "'"
  }

  /** `None` or a string, as stored for an `Optional[str]` field. */
  function OptionalStr(o: Option<string>): (v: Value)
    ensures o.None? <==> v == Null
  {
    match o
    case None => Null
    case Some(s) => Str(s)
  }

  /** Inverse of `OptionalStr`; fails on anything that is neither `None` nor a string. */
  function ParseOptionalStr(v: Value): (r: Option<Option<string>>)
    ensures forall o :: r == Some(o) ==> OptionalStr(o) == v
  {
    match v
    case Null => Some(None)
    case Str(s) => Some(Some(s))
    case _ => None
  }
}
