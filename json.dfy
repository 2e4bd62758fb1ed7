/**
 * A JSON-like tree for the untyped documents the storefront cleans before
 * writing and converts after reading: JavaScript `undefined` and `null`,
 * primitives, store timestamps, arrays and plain objects.  An object is
 * its own enumerable entries in insertion order.
 */
module Json {
  import opened Wrappers

  datatype Prim = PStr(s: string) | PNum(n: real) | PBool(b: bool)

  datatype Value =
    | Undef
    | Nil                                  // JavaScript `null`
    | Prim(p: Prim)
    | Ts(seconds: int, nanoseconds: int)   // a store `Timestamp` object
    | Arr(items: seq<Value>)
    | Obj(members: seq<Member>)

  datatype Member = Member(key: string, value: Value)

  function Keys(ms: seq<Member>): (r: seq<string>)
    ensures |r| == |ms| && forall i :: 0 <= i < |ms| ==> r[i] == ms[i].key
  {
    if ms == [] then [] else [ms[0].key] + Keys(ms[1..])
  }

  /** The value of the first member named `key`. */
  function Lookup(ms: seq<Member>, key: string): (r: Option<Value>)
    ensures r.None? <==> key !in Keys(ms)
    ensures r.Some? ==> Member(key, r.value) in ms
  {
    if ms == [] then None
    else if ms[0].key == key then Some(ms[0].value)
    else Lookup(ms[1..], key)
  }

  predicate DistinctKeys(ms: seq<Member>) {
    forall i, j :: 0 <= i < j < |ms| ==> ms[i].key != ms[j].key
  }
}
