/**
 * JavaScript values as the import code sees them after `JSON.parse`: the value kinds, their
 * truthiness, property access, `||`, and the `Number(...)`/`String(...)` conversions. The
 * parts of those conversions that depend on the number grammar or on number formatting are
 * parameters.
 */
module Json {
  import opened Optional
  import opened Text

  /** A JavaScript value. `NaN` is the one number that is not a real; objects map keys to values. */
  datatype Value =
    | Undefined
    | Null
    | Bool(b: bool)
    | Number(n: real)
    | NaN
    | Str(s: string)
    | Array(items: seq<Value>)
    | Object(fields: map<string, Value>)

  /** The conversions that the model leaves to the runtime. */
  datatype Runtime = Runtime(
    numberOfString: string -> Option<real>,   // Number(s) on a string; None is NaN
    formatNumber: real -> string)             // String(n) on a number

  /** ToBoolean: what `if (v)`, `!v` and `v || w` test. */
  predicate Truthy(v: Value) {
    match v
    case Undefined => false
    case Null => false
    case Bool(b) => b
    case Number(n) => n != 0.0
    case NaN => false
    case Str(s) => s != ""
    case Array(_) => true
    case Object(_) => true
  }

  /** `v.key` on a value that is neither null nor undefined: only objects have own data keys. */
  function Property(v: Value, key: string): (r: Value)
    requires !v.Null? && !v.Undefined?
    ensures r != Undefined ==> v.Object? && key in v.fields && r == v.fields[key]
  {
    if v.Object? && key in v.fields then v.fields[key] else Undefined
  }

  /** `a || b`: the first operand when it is truthy, the second otherwise. */
  function Or(a: Value, b: Value): (r: Value)
    ensures Truthy(r) <==> Truthy(a) || Truthy(b)
    ensures Truthy(a) ==> r == a
    ensures !Truthy(a) ==> r == b
  {
    if Truthy(a) then a else b
  }

  /** `String(v)`; an array joins its items with `,`, writing null and undefined items as ''. */
  function ToStr(v: Value, rt: Runtime): string
    decreases v, 1
  {
    match v
    case Undefined => "undefined"
    case Null => "null"
    case Bool(b) => if b then "true" else "false"
    case Number(n) => rt.formatNumber(n)
    case NaN => "NaN"
    case Str(s) => s
    case Array(items) => JoinItems(v, items, rt)
    case Object(_) => "[object Object]"
  }

  function JoinItems(v: Value, items: seq<Value>, rt: Runtime): string
    requires forall i :: 0 <= i < |items| ==> items[i] < v
    decreases v, 0, |items|
  {
    if items == [] then ""
    else
      var head := if items[0].Null? || items[0].Undefined? then "" else ToStr(items[0], rt);
      if |items| == 1 then head else head + "," + JoinItems(v, items[1..], rt)
  }

  /**
   * `Number(v)`, with None for NaN: null is 0, booleans are 0 and 1, a string goes through the
   * number grammar, an array or object through its string form.
   */
  function ToNumber(v: Value, rt: Runtime): Option<real> {
    match v
    case Undefined => None
    case Null => Some(0.0)
    case Bool(b) => Some(if b then 1.0 else 0.0)
    case Number(n) => Some(n)
    case NaN => None
    case Str(s) => rt.numberOfString(s)
    case Array(_) => rt.numberOfString(ToStr(v, rt))
    case Object(_) => rt.numberOfString(ToStr(v, rt))
  }

  /** A number value from an optional real, None being NaN. */
  function NumberValue(x: Option<real>): (v: Value)
    ensures v.Number? || v.NaN?
  {
    match x
    case Some(n) => Number(n)
    case None => NaN
  }

  /** `Number(...)` reads a number value back, NaN included, whatever the runtime. */
  lemma NumberRoundTrip(x: Option<real>, rt: Runtime)
    ensures ToNumber(NumberValue(x), rt) == x
  {
  }
}
