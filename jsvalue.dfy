/** The JavaScript values the CLI handles: flag values as the option parser
    hands them over (`unknown`), and the JSON the server sends back. Numbers
    are integers only. Object fields are a map: the order in which a parsed
    response lists its keys is not modelled. */
module JsValue {
  import Text
  import Numbers

  datatype Value =
    | Undefined
    | Null
    | Bool(b: bool)
    | Num(n: int)
    | Str(s: string)
    | Arr(items: seq<Value>)
    | Obj(fields: map<string, Value>)

  /** JavaScript truthiness, as in `if (options.id)` or `value || other`. */
  predicate Truthy(v: Value) {
    match v
    case Undefined => false
    case Null => false
    case Bool(b) => b
    case Num(n) => n != 0
    case Str(s) => s != []
    case Arr(_) => true
    case Obj(_) => true
  }

  /** `v === null || v === undefined` */
  predicate Nullish(v: Value) {
    v.Undefined? || v.Null?
  }

  /** `a ?? b` */
  function Coalesce(a: Value, b: Value): (r: Value)
    ensures !Nullish(a) ==> r == a
    ensures Nullish(a) ==> r == b
  {
    if Nullish(a) then b else a
  }

  /** `v && typeof v === "object"`: arrays pass this test as well as objects. */
  predicate IsObjectLike(v: Value) {
    v.Arr? || v.Obj?
  }

  /** `v.key` for the named fields the CLI reads; anything that is not an
      object holding the key gives `undefined`. */
  function Field(v: Value, key: string): Value {
    if v.Obj? && key in v.fields then v.fields[key] else Undefined
  }

  /** `String(v)`; an array is joined with "," after writing its null and
      undefined elements as empty strings. */
  function ToJsString(v: Value): string {
    match v
    case Undefined => "undefined"
    case Null => "null"
    case Bool(b) => if b then "true" else "false"
    case Num(n) => Numbers.IntToString(n)
    case Str(s) => s
    case Arr(xs) => Text.Join(ElementStrings(xs), ',')
    case Obj(_) => "[object Object]"
  }

  /** The elements of an array as `Array.prototype.join` writes them. */
  function ElementStrings(xs: seq<Value>): (r: seq<string>)
    ensures |r| == |xs|
    ensures forall i :: 0 <= i < |xs| ==> r[i] == if Nullish(xs[i]) then "" else ToJsString(xs[i])
  {
    if xs == [] then []
    else [if Nullish(xs[0]) then "" else ToJsString(xs[0])] + ElementStrings(xs[1..])
  }

  /** An array of strings. */
  function Strs(ss: seq<string>): (r: seq<Value>)
    ensures |r| == |ss|
  {
    if ss == [] then [] else [Str(ss[0])] + Strs(ss[1..])
  }

  lemma {:induction false} StrsAt(ss: seq<string>, i: int)
    requires 0 <= i < |ss|
    ensures Strs(ss)[i] == Str(ss[i])
  {
    if i > 0 {
      StrsAt(ss[1..], i - 1);
      assert ss[1..][i - 1] == ss[i];
    }
  }

  /** The own enumerable fields of `{...v}` for an array: one per index,
      keyed by the index written in decimal. */
  function IndexFields(xs: seq<Value>): (m: map<string, Value>)
    ensures forall i :: 0 <= i < |xs| ==> Numbers.NatToString(i) in m && m[Numbers.NatToString(i)] == xs[i]
    ensures forall k :: k in m ==> exists i :: 0 <= i < |xs| && k == Numbers.NatToString(i)
  {
    if xs == [] then map[]
    else
      var n := |xs| - 1;
      Numbers.NatToStringValue(n);
      assert forall i :: 0 <= i < n ==> Numbers.NatToString(i) != Numbers.NatToString(n) by {
        forall i | 0 <= i < n ensures Numbers.NatToString(i) != Numbers.NatToString(n) {
          Numbers.NatToStringValue(i);
        }
      }
      IndexFields(xs[..n])[Numbers.NatToString(n) := xs[n]]
  }

  /** The fields of `{...v}` for a value that passed `IsObjectLike`. */
  function SpreadFields(v: Value): map<string, Value>
    requires IsObjectLike(v)
  {
    if v.Obj? then v.fields else IndexFields(v.items)
  }
}
