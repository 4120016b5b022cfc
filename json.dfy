/**
  Loosely typed values as they arrive from JSON and from the services'
  dictionaries. A dictionary is an association list in insertion order,
  because that order is visible when a dictionary is iterated.
*/
module Json {
  import opened Wrappers

  datatype Value =
    | VNull
    | VBool(b: bool)
    | VInt(i: int)
    | VNum(r: real)
    | VStr(s: string)
    | VList(items: seq<Value>)
    | VObject(fields: seq<(string, Value)>)

  type Fields = seq<(string, Value)>

  /** `d.get(key)`: the value stored under `key`, if any. */
  function Get(fields: Fields, key: string): (r: Option<Value>)
    ensures r.Some? ==> (key, r.value) in fields
    ensures r.None? <==> forall i :: 0 <= i < |fields| ==> fields[i].0 != key
  {
    if fields == [] then None
    else if fields[0].0 == key then Some(fields[0].1)
    else Get(fields[1..], key)
  }

  /** `d.get(key, default)`. */
  function GetOr(fields: Fields, key: string, default: Value): (r: Value)
    ensures Get(fields, key).None? ==> r == default
    ensures Get(fields, key).Some? ==> r == Get(fields, key).value
  {
    match Get(fields, key)
    case Some(v) => v
    case None => default
  }

  /** Every key occurs once, as in a dictionary. */
  predicate DistinctKeys(fields: Fields)
  {
    forall i, j :: 0 <= i < j < |fields| ==> fields[i].0 != fields[j].0
  }

  /** Looking up the key at position i gives the value at i when no earlier entry has that key. */
  lemma {:induction false} GetFirst(fields: Fields, i: nat)
    requires i < |fields|
    requires forall t :: 0 <= t < i ==> fields[t].0 != fields[i].0
    ensures Get(fields, fields[i].0) == Some(fields[i].1)
  {
    if i > 0 {
      assert fields[1..][i - 1] == fields[i];
      GetFirst(fields[1..], i - 1);
    }
  }

  /** In a dictionary, looking up the key at position i gives the value at position i. */
  lemma GetDistinct(fields: Fields, i: nat)
    requires DistinctKeys(fields) && i < |fields|
    ensures Get(fields, fields[i].0) == Some(fields[i].1)
  {
    GetFirst(fields, i);
  }
}
