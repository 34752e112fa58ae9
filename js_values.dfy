/** The slice of the JavaScript runtime that the enum module relies on:
    untyped values, truthiness, `undefined` as the absent marker,
    `Object.keys` over an object literal, property access,
    `Array.prototype.includes`, and `console.log` as an append-only log. */
module JsValues {

  /** A runtime value of static type `unknown`. Numbers are integers here;
      an object (including arrays and functions) carries no contents. */
  datatype Value = Str(s: string) | Num(n: int) | Bool(b: bool) | Null | Undefined | Obj

  /** JavaScript truthiness, as used by an `if (...)` test. */
  predicate Truthy(v: Value)
    ensures !Truthy(v) <==> v in [Str(""), Num(0), Bool(false), Null, Undefined]
  {
    match v
    case Str(s) => s != ""
    case Num(n) => n != 0
    case Bool(b) => b
    case Null => false
    case Undefined => false
    case Obj => true
  }

  /** An object literal (or a string enum) with string-valued properties,
      as its own properties in declaration order. `ObjectKeys` and `Get`
      agree with JavaScript only on objects whose names are `OrdinaryNames`. */
  type Entries = seq<(string, string)>

  /** Digits without a leading zero. This over-approximates the names that
      `Object.keys` lists before the others (array indices, which stop at
      2^32 - 2), so excluding it is the conservative choice. */
  predicate IntegerLike(name: string)
  {
    |name| > 0 && (forall i :: 0 <= i < |name| ==> '0' <= name[i] <= '9') && (name[0] == '0' ==> |name| == 1)
  }

  /** No two properties share a name and no name is integer-like. TypeScript
      rejects duplicate names in enums and object literals; integer-like
      names would be listed first by `Object.keys`, not in declaration order. */
  predicate OrdinaryNames(o: Entries)
  {
    (forall i, j :: 0 <= i < j < |o| ==> o[i].0 != o[j].0) &&
    (forall i :: 0 <= i < |o| ==> !IntegerLike(o[i].0))
  }

  /** `Object.keys(o)`: the property names, in declaration order. */
  function ObjectKeys(o: Entries): (r: seq<string>)
    ensures |r| == |o|
    ensures forall i :: 0 <= i < |o| ==> r[i] == o[i].0
  {
    if o == [] then [] else [o[0].0] + ObjectKeys(o[1..])
  }

  /** Property access `o[key]`: the value of the property named `key`, or
      `undefined` when there is none. With `OrdinaryNames` there is at most one. */
  function Get(o: Entries, key: string): (r: Value)
    ensures r == Undefined <==> key !in ObjectKeys(o)
    ensures r != Undefined ==> r.Str? && (key, r.s) in o
  {
    if o == [] then Undefined
    else if o[0].0 == key then Str(o[0].1)
    else Get(o[1..], key)
  }

  /** With distinct names, property access finds the one value paired with a name. */
  lemma GetUnique(o: Entries, key: string, value: string)
    requires OrdinaryNames(o) && (key, value) in o
    ensures Get(o, key) == Str(value)
  {
  }

  /** `keys.includes(v)`. The comparison is SameValueZero, which on a string
      element holds exactly for the same string. */
  function Includes(keys: seq<string>, v: Value): (r: bool)
    ensures r <==> v.Str? && v.s in keys
  {
    if keys == [] then false
    else v == Str(keys[0]) || Includes(keys[1..], v)
  }

  /** The console: every `console.log(x)` appends `x` to `log`. */
  class Console {
    var log: seq<Value>

    constructor ()
      ensures log == []
    {
      log := [];
    }

    method Log(x: Value)
      modifies this
      ensures log == old(log) + [x]
    {
      log := log + [x];
    }
  }
}
