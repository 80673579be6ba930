/**
 * JSON-like Python values: the dictionaries, lists and scalars that
 * responses, session records and configuration trees are made of.
 * A dictionary keeps its insertion order as a sequence of fields whose
 * keys are distinct.
 */
module Json {
  import opened Wrappers

  datatype Json =
    | JNull
    | JBool(b: bool)
    | JInt(i: int)
    | JFloat(f: real)
    | JStr(s: string)
    | JArr(items: seq<Json>)
    | JObj(fields: seq<(string, Json)>)

  /** Python truthiness: None, False, 0, 0.0, "", [] and {} are falsy. */
  predicate Truthy(v: Json) {
    match v
    case JNull => false
    case JBool(b) => b
    case JInt(i) => i != 0
    case JFloat(f) => f != 0.0
    case JStr(s) => s != []
    case JArr(items) => items != []
    case JObj(fields) => fields != []
  }

  predicate IsDict(v: Json) { v.JObj? }

  predicate IsList(v: Json) { v.JArr? }

  /** Python `key in d` for a dictionary. */
  predicate Has(fields: seq<(string, Json)>, key: string) {
    exists i :: 0 <= i < |fields| && fields[i].0 == key
  }

  /** Python `d.get(key)`: the value stored at `key`, or `None`. */
  function Get(fields: seq<(string, Json)>, key: string): (r: Option<Json>)
    ensures r.Some? <==> Has(fields, key)
  {
    if fields == [] then None
    else if fields[0].0 == key then Some(fields[0].1)
    else
      var r := Get(fields[1..], key);
      assert Has(fields[1..], key) ==> Has(fields, key) by {
        if Has(fields[1..], key) {
          var i :| 0 <= i < |fields[1..]| && fields[1..][i].0 == key;
          assert fields[i + 1].0 == key;
        }
      }
      assert Has(fields, key) ==> Has(fields[1..], key) by {
        if Has(fields, key) {
          var i :| 0 <= i < |fields| && fields[i].0 == key;
          assert fields[1..][i - 1].0 == key;
        }
      }
      r
  }

  /** Keys of a dictionary are distinct, as in a Python `dict`. */
  predicate DistinctKeys(fields: seq<(string, Json)>) {
    forall i, j :: 0 <= i < j < |fields| ==> fields[i].0 != fields[j].0
  }

  lemma {:induction false} GetAt(fields: seq<(string, Json)>, k: nat)
    requires DistinctKeys(fields) && k < |fields|
    ensures Get(fields, fields[k].0) == Some(fields[k].1)
  {
    if k > 0 {
      assert fields[0].0 != fields[k].0;
      assert fields[1..][k - 1] == fields[k];
      GetAt(fields[1..], k - 1);
    }
  }

  /** `d.get(key, default)`. */
  function GetOr(fields: seq<(string, Json)>, key: string, default: Json): (r: Json)
    ensures Has(fields, key) ==> Some(r) == Get(fields, key)
    ensures !Has(fields, key) ==> r == default
  {
    Get(fields, key).GetOr(default)
  }
}
