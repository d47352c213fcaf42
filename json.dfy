/**
 * Parsed JSON values as the client sees them after `r.json()`, and the dict
 * operations it performs on them.  An object keeps its members in order,
 * because the client iterates some of them (`accounts.items()`,
 * `other.items()`) and keeps the first match.
 */
module JsonValues {
  import opened Wrappers

  datatype Json =
    | JNull
    | JBool(b: bool)
    | JNum(n: int)
    | JStr(s: string)
    | JArr(items: seq<Json>)
    | JObj(members: seq<(string, Json)>)

  /** The members of a JSON object, in insertion order. */
  type Members = seq<(string, Json)>

  /** The set of keys of an object. */
  function KeySet(ms: Members): set<string>
  {
    if ms == [] then {} else {ms[0].0} + KeySet(ms[1..])
  }

  /** No key occurs twice: what a Python dict guarantees of itself. */
  predicate DistinctKeys(ms: Members)
  {
    forall i, j :: 0 <= i < j < |ms| ==> ms[i].0 != ms[j].0
  }

  /** A JSON value that is a Python dict. */
  predicate IsDict(j: Json)
  {
    j.JObj? && DistinctKeys(j.members)
  }

  /**
   * The value of the first member with the given key; for a dict, `d[key]`
   * when the key is present and None where Python raises KeyError.
   */
  function Lookup(ms: Members, key: string): (r: Option<Json>)
    ensures r.Some? <==> key in KeySet(ms)
    ensures r.Some? ==> (key, r.value) in ms
  {
    if ms == [] then None
    else if ms[0].0 == key then Some(ms[0].1)
    else Lookup(ms[1..], key)
  }

  /** Dropping the first member of a dict leaves a dict. */
  lemma DistinctTail(ms: Members)
    requires DistinctKeys(ms) && ms != []
    ensures DistinctKeys(ms[1..])
  {
  }

  /** On a dict, looking up the key of any member yields that member's value. */
  lemma {:induction false} LookupInDict(ms: Members, i: nat)
    requires DistinctKeys(ms) && i < |ms|
    ensures Lookup(ms, ms[i].0) == Some(ms[i].1)
  {
    if i > 0 {
      assert ms[0].0 != ms[i].0;
      DistinctTail(ms);
      LookupInDict(ms[1..], i - 1);
      assert ms[1..][i - 1] == ms[i];
    }
  }
}
