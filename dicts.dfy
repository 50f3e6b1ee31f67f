/** A JavaScript object (or array) used as a dictionary: string keys, kept in
    insertion order, which is the order `Object.keys` reports as long as no
    key is an array index. */
module Dicts {

  ghost predicate Distinct<T>(s: seq<T>) {
    forall i, j :: 0 <= i < j < |s| ==> s[i] != s[j]
  }

  /** `s` with every occurrence of `x` removed, order kept. */
  function Without(s: seq<string>, x: string): (r: seq<string>)
    ensures forall y :: y in r <==> y in s && y != x
    ensures Distinct(s) ==> Distinct(r)
    ensures x !in s ==> r == s
  {
    if s == [] then []
    else if s[0] == x then Without(s[1..], x)
    else
      var r := [s[0]] + Without(s[1..], x);
      assert Distinct(s) ==> s[0] !in s[1..];
      r
  }

  datatype Dict<V> = Dict(keys: seq<string>, m: map<string, V>) {

    /** Each key listed once, and exactly the keys of the map. */
    ghost predicate Valid() {
      Distinct(keys) && forall k :: k in m <==> k in keys
    }

    /** `obj[k] = v`: a new key goes to the end, an existing one keeps its place. */
    function Put(k: string, v: V): (d: Dict<V>)
      requires Valid()
      ensures d.Valid()
    {
      if k in m then Dict(keys, m[k := v]) else Dict(keys + [k], m[k := v])
    }

    /** `delete obj[k]`. */
    function Remove(k: string): (d: Dict<V>)
      requires Valid()
      ensures d.Valid()
    {
      Dict(Without(keys, k), m - {k})
    }

    /** A second `obj[k] = b` overwrites the first. */
    lemma PutPut(k: string, a: V, b: V)
      requires Valid()
      ensures Put(k, a).Put(k, b) == Put(k, b)
    {
      assert k in Put(k, a).m;
    }
  }

  function Empty<V>(): (d: Dict<V>)
    ensures d.Valid()
  {
    Dict([], map[])
  }
}
