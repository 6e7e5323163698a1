/** The JavaScript values the screens receive from the remote service, with the
    parts of JavaScript's semantics the screens rely on: truthiness, property
    access with and without optional chaining, `typeof` and `Object.entries`. */
module Js {

  datatype Option<T> = None | Some(value: T)

  /** A JavaScript value as decoded from a JSON body. `Obj` holds an object's
      own enumerable properties in property order; keys are distinct in every
      object the decoder builds. `Undefined` is the value of a missing property. */
  datatype Value =
    | Undefined
    | Null
    | Bool(b: bool)
    | Num(n: real)
    | Str(s: string)
    | Arr(items: seq<Value>)
    | Obj(props: seq<(string, Value)>)

  /** JavaScript's ToBoolean: `undefined`, `null`, `false`, `0` and `""` are
      falsy, every array and every object is truthy. */
  predicate Truthy(v: Value) {
    match v
    case Undefined => false
    case Null => false
    case Bool(b) => b
    case Num(n) => n != 0.0
    case Str(s) => s != ""
    case Arr(_) => true
    case Obj(_) => true
  }

  /** `null` and `undefined`: the values on which property access throws a
      TypeError and optional chaining short-circuits. */
  predicate IsNullish(v: Value) {
    v.Undefined? || v.Null?
  }

  /** `typeof v === 'object'`, which holds of `null` and of arrays too. */
  predicate TypeofObject(v: Value) {
    v.Null? || v.Arr? || v.Obj?
  }

  /** The value of the first property named `key`, or `undefined`. */
  function Lookup(props: seq<(string, Value)>, key: string): (r: Value)
    ensures (forall i :: 0 <= i < |props| ==> props[i].0 != key) ==> r == Undefined
    ensures forall i :: 0 <= i < |props| && props[i].0 == key && (forall j :: 0 <= j < i ==> props[j].0 != key)
                        ==> r == props[i].1
  {
    if props == [] then Undefined
    else if props[0].0 == key then props[0].1
    else Lookup(props[1..], key)
  }

  /** `v[key]` on a value that is not nullish, for a property name that is not
      an array index and not a built-in property such as `length`: only an
      object can have such a property. */
  function Get(v: Value, key: string): Value
    requires !IsNullish(v)
  {
    if v.Obj? then Lookup(v.props, key) else Undefined
  }

  /** `v?.[key]`: `undefined` when `v` is nullish, `v[key]` otherwise. */
  function OptGet(v: Value, key: string): Value
  {
    if IsNullish(v) then Undefined else Get(v, key)
  }

  /** `v?.[0]`: the first element of an array, the property "0" of an object,
      the first character of a string, and `undefined` for everything else. */
  function OptIndexZero(v: Value): Value
  {
    match v
    case Arr(items) => if |items| > 0 then items[0] else Undefined
    case Obj(props) => Lookup(props, "0")
    case Str(s) => if |s| > 0 then Str([s[0]]) else Undefined
    case _ => Undefined
  }

  /** The decimal digits of `n`: the property key of array index `n`. */
  function IndexKey(n: nat): (r: string)
    ensures |r| > 0
    decreases n
  {
    var digit := [('0' as int + n % 10) as char];
    if n < 10 then digit else IndexKey(n / 10) + digit
  }

  /** Distinct indices have distinct keys, so an array's entries never share a key. */
  lemma {:induction false} IndexKeyInjective(m: nat, n: nat)
    ensures IndexKey(m) == IndexKey(n) ==> m == n
    decreases m
  {
    if IndexKey(m) == IndexKey(n) {
      var km, kn := IndexKey(m), IndexKey(n);
      assert km[|km| - 1] == kn[|kn| - 1];
      assert m % 10 == n % 10;
      if m < 10 || n < 10 {
        assert |km| == 1 && |kn| == 1;
      } else {
        assert IndexKey(m / 10) == km[..|km| - 1] == kn[..|kn| - 1] == IndexKey(n / 10);
        IndexKeyInjective(m / 10, n / 10);
      }
    }
  }

  /** `Object.entries(v)` for an array or an object. An array's entries are
      keyed by its indices, so no two of them share a key. */
  function Entries(v: Value): (r: seq<(string, Value)>)
    requires v.Arr? || v.Obj?
    ensures v.Arr? ==> forall i, j :: 0 <= i < j < |r| ==> r[i].0 != r[j].0
  {
    if v.Obj? then v.props
    else
      var es := seq(|v.items|, i requires 0 <= i < |v.items| => (IndexKey(i), v.items[i]));
      assert forall i, j :: 0 <= i < j < |es| ==> es[i].0 != es[j].0 by {
        forall i, j | 0 <= i < j < |es| ensures es[i].0 != es[j].0 {
          IndexKeyInjective(i, j);
        }
      }
      es
  }

  /** Reading an array's entries by the key of index `i` gives its `i`-th element:
      the entries agree with index access. */
  lemma EntriesIndex(xs: seq<Value>, i: nat)
    requires i < |xs|
    ensures Lookup(Entries(Arr(xs)), IndexKey(i)) == xs[i]
  {
    var es := Entries(Arr(xs));
    assert es[i] == (IndexKey(i), xs[i]);
  }

  /** On a non-empty array, `v?.[0]` is the entry with key "0". */
  lemma OptIndexZeroIsFirstEntry(v: Value)
    requires v.Arr? && |v.items| > 0
    ensures OptIndexZero(v) == Lookup(Entries(v), "0")
  {
    assert IndexKey(0) == "0";
    EntriesIndex(v.items, 0);
  }
}
