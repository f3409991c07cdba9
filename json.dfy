/**
 * The value `JSON.parse` yields for a backup file, and the few JavaScript
 * operations the options page applies to it: property access, truthiness,
 * `typeof`, `Object.keys(..).length` and `Object.values`.
 * An object is the list of its own properties in document order; the
 * objects `JSON.parse` yields have distinct property names. JavaScript
 * enumerates integer-like property names first, in ascending order; this
 * model keeps document order, which no check on the values depends on.
 */
module Json {

  import opened Wrappers

  datatype Value =
    | Null
    | Bool(b: bool)
    | Num(n: real)
    | Str(s: string)
    | Arr(items: seq<Value>)
    | Obj(members: seq<(string, Value)>)

  /** JavaScript truthiness of a parsed value (`undefined` is the absent `Option`). */
  function Truthy(v: Value): (b: bool)
    ensures !b <==> v in {Null, Bool(false), Num(0.0), Str("")}
  {
    match v
    case Null => false
    case Bool(b) => b
    case Num(n) => n != 0.0
    case Str(s) => s != ""
    case Arr(_) => true
    case Obj(_) => true
  }

  /** Truthiness of a property read that may give `undefined`. */
  predicate TruthyOpt(v: Option<Value>)
  {
    v.Some? && Truthy(v.value)
  }

  /** `typeof v === 'object'` (which holds of `null` and of arrays too). */
  predicate IsObjectType(v: Value)
  {
    v.Null? || v.Arr? || v.Obj?
  }

  /** The first property named `name` among `members`. */
  function Member(members: seq<(string, Value)>, name: string): (r: Option<Value>)
    ensures r.Some? <==> exists i :: 0 <= i < |members| && members[i].0 == name
    ensures r.Some? ==> exists i :: 0 <= i < |members| && members[i] == (name, r.value)
  {
    if |members| == 0 then None
    else if members[0].0 == name then Some(members[0].1)
    else
      var r := Member(members[1..], name);
      assert forall i :: 1 <= i < |members| ==> members[i] == members[1..][i - 1];
      r
  }

  /** Outcome of `v.name`: reading a property of `null` throws a TypeError. */
  datatype Access = Throws | Read(value: Option<Value>)

  /**
   * `v.name` for the property names the options page reads; none of them is
   * an own property of strings, numbers, booleans or arrays.
   */
  function Get(v: Value, name: string): (r: Access)
    ensures r.Throws? <==> v.Null?
    ensures r.Read? && r.value.Some? ==> v.Obj?
    ensures v.Obj? ==> r == Read(Member(v.members, name))
  {
    match v
    case Null => Throws
    case Obj(members) => Read(Member(members, name))
    case _ => Read(None)
  }

  /** `Object.keys(v).length` for a value that is not `null`. */
  function KeyCount(v: Value): (n: nat)
    requires !v.Null?
    ensures v.Obj? ==> n == |v.members|
    ensures v.Arr? ==> n == |v.items|
    ensures v.Str? ==> n == |v.s|
    ensures v.Bool? || v.Num? ==> n == 0
  {
    match v
    case Obj(members) => |members|
    case Arr(items) => |items|
    case Str(s) => |s|
    case Bool(_) => 0
    case Num(_) => 0
  }

  /** `Object.values(v)` for an object or an array. */
  function Values(v: Value): (r: seq<Value>)
    requires v.Arr? || v.Obj?
    ensures |r| == KeyCount(v)
    ensures v.Obj? ==> forall i :: 0 <= i < |r| ==> r[i] == v.members[i].1
    ensures v.Arr? ==> r == v.items
  {
    match v
    case Arr(items) => items
    case Obj(members) => seq(|members|, i requires 0 <= i < |members| => members[i].1)
  }
}
