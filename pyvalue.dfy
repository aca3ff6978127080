/** The Python semantics the container helpers rely on, over the JSON-like
    tree that a container's `attrs` mapping is made of: truthiness, `==`,
    the `in` operator and subscription by a string key. */
module PyValue {

  /** A container's state as the runtime reports it: a nested mapping from
      string keys to strings, numbers, booleans, `None`, lists and mappings. */
  datatype Value =
    | Null
    | Bool(b: bool)
    | Int(i: int)
    | Str(s: string)
    | List(items: seq<Value>)
    | Map(entries: map<string, Value>)

  /** The exceptions that Python raises while looking a key up. */
  datatype PyError =
    | KeyError(key: string)   // `d[key]` on a dict without that key
    | TypeError               // `in` on None/int/bool, or `x[key]` on a non-dict

  datatype Result<T> = Ok(value: T) | Err(error: PyError)

  /** Python's `bool(v)`: None, False, 0, '' and empty containers are falsy. */
  predicate Truthy(v: Value) {
    match v
    case Null => false
    case Bool(b) => b
    case Int(i) => i != 0
    case Str(s) => s != ""
    case List(items) => items != []
    case Map(entries) => entries != map[]
  }

  /** The value Python's `==` sees: a bool compares as the integer 0 or 1. */
  function Normal(v: Value): (r: Value)
    ensures !r.Bool?
    ensures r.Null? <==> v.Null?
    ensures r.Str? <==> v.Str?
    ensures r.Str? ==> r == v
    ensures Truthy(r) == Truthy(v)
  {
    match v
    case Bool(b) => Int(if b then 1 else 0)
    case List(items) => List(seq(|items|, k requires 0 <= k < |items| => Normal(items[k])))
    case Map(entries) => Map(map key | key in entries :: Normal(entries[key]))
    case _ => v
  }

  /** Python's `a == b` on two values of the tree. */
  predicate PyEq(a: Value, b: Value) {
    Normal(a) == Normal(b)
  }

  /** `needle` occurs in `hay` as a contiguous piece (Python `needle in hay` on str). */
  predicate IsSubstring(needle: string, hay: string) {
    exists k | 0 <= k <= |hay| :: OccursAt(needle, hay, k)
  }

  predicate OccursAt(needle: string, hay: string, k: int) {
    0 <= k <= |hay| - |needle| && hay[k..k + |needle|] == needle
  }

  /** Python's `key in v` for a string key. */
  function Contains(v: Value, key: string): (r: Result<bool>)
    ensures r.Err? <==> v.Null? || v.Bool? || v.Int?
    ensures v.Map? ==> r == Ok(key in v.entries)
    ensures r.Err? ==> r.error == TypeError
  {
    match v
    case Map(entries) => Ok(key in entries)
    case Str(s) => Ok(IsSubstring(key, s))
    case List(items) => Ok(Str(key) in items)
    case _ => Err(TypeError)
  }

  /** Python's `v[key]` for a string key. */
  function Subscript(v: Value, key: string): (r: Result<Value>)
    ensures r.Ok? <==> v.Map? && key in v.entries
    ensures r.Ok? ==> r.value == v.entries[key]
    ensures r.Err? && v.Map? ==> r.error == KeyError(key)
    ensures r.Err? && !v.Map? ==> r.error == TypeError
  {
    match v
    case Map(entries) => if key in entries then Ok(entries[key]) else Err(KeyError(key))
    case _ => Err(TypeError)
  }

  /** `==` as Python computes it is an equivalence that tells strings apart exactly,
      and equates True with 1. */
  lemma PyEqFacts(a: Value, b: Value, s: string)
    ensures PyEq(a, a)
    ensures PyEq(a, b) ==> PyEq(b, a)
    ensures PyEq(a, Str(s)) <==> a == Str(s)
    ensures PyEq(a, Null) <==> a == Null
    ensures PyEq(Bool(true), Int(1)) && PyEq(Bool(false), Int(0))
    ensures PyEq(a, b) ==> (Truthy(a) <==> Truthy(b))
  {
  }
}
