/** JSON values as they arrive in a request body, and JavaScript's truthiness on them. */
module Json {

  /** A JSON value. JSON has no NaN and no infinity, so a number is a real. */
  datatype Value =
    | Null
    | Bool(b: bool)
    | Number(n: real)
    | String(s: string)
    | Array(items: seq<Value>)
    | Object(fields: map<string, Value>)

  /** `Boolean(v)` in JavaScript: null, false, 0 and "" are falsy; arrays and objects are truthy. */
  function Truthy(v: Value): (b: bool)
    ensures !b <==> v == Null || v == Bool(false) || v == Number(0.0) || v == String("")
  {
    match v
    case Null => false
    case Bool(b) => b
    case Number(n) => n != 0.0
    case String(s) => s != ""
    case Array(_) => true
    case Object(_) => true
  }

  /** A list of booleans as it is serialised to JSON; reading it back gives the same booleans. */
  function FromBools(bs: seq<bool>): (vs: seq<Value>)
    ensures |vs| == |bs|
    ensures forall i :: 0 <= i < |bs| ==> Truthy(vs[i]) == bs[i]
  {
    seq(|bs|, i requires 0 <= i < |bs| => Bool(bs[i]))
  }
}
