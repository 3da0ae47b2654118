/**
 * The sidecar mapping as a Python dict value: leaves are `None`, strings,
 * lists of `(label, value)` pairs or lists of strings, and a dict is an
 * association list that keeps Python's insertion order.
 */
module Sidecar {
  import opened Wrappers

  datatype Value =
    | Null
    | Str(s: string)
    | Pairs(pairs: seq<(string, string)>)
    | Strs(strs: seq<string>)
    | Dict(entries: seq<(string, Value)>)

  /** A dict's `items()`, in insertion order. */
  type Entries = seq<(string, Value)>

  /** The dict's keys in insertion order. */
  function Keys(d: Entries): (ks: seq<string>)
    ensures |ks| == |d|
    ensures forall i :: 0 <= i < |d| ==> ks[i] == d[i].0
  {
    if d == [] then [] else [d[0].0] + Keys(d[1..])
  }

  /** A Python dict never holds a key twice. */
  predicate UniqueKeys(d: Entries)
  {
    forall i, j :: 0 <= i < j < |d| ==> d[i].0 != d[j].0
  }

  /** No value of the dict is itself a dict. */
  predicate Flat(d: Entries)
  {
    forall i :: 0 <= i < |d| ==> !d[i].1.Dict?
  }

  /** Entries whose keys are, index by index, those of `ks` have exactly the keys `ks`. */
  lemma KeysMatch(d: Entries, ks: seq<string>)
    requires |d| == |ks|
    requires forall i :: 0 <= i < |d| ==> d[i].0 == ks[i]
    ensures Keys(d) == ks
  {
  }

  lemma FlatAppend(a: Entries, b: Entries)
    requires Flat(a) && Flat(b)
    ensures Flat(a + b)
  {
    forall i | |a| <= i < |a + b| ensures !(a + b)[i].1.Dict? {
      assert (a + b)[i] == b[i - |a|];
    }
  }

  /** The keys of a concatenation are the keys of its parts, in order. */
  lemma {:induction false} KeysAppend(a: Entries, b: Entries)
    ensures Keys(a + b) == Keys(a) + Keys(b)
  {
    if a != [] {
      assert (a + b)[1..] == a[1..] + b;
      KeysAppend(a[1..], b);
    } else {
      assert a + b == b;
    }
  }

  /** `d.get(k)`: the value stored under `k`, if any. */
  function Lookup(d: Entries, k: string): (r: Option<Value>)
    ensures r.Some? <==> k in Keys(d)
    ensures r.Some? ==> exists i :: 0 <= i < |d| && d[i] == (k, r.value)
  {
    if d == [] then None
    else if d[0].0 == k then Some(d[0].1)
    else
      var r := Lookup(d[1..], k);
      assert r.Some? ==> exists i :: 0 <= i < |d| && d[i] == (k, r.value) by {
        if r.Some? {
          var i :| 0 <= i < |d[1..]| && d[1..][i] == (k, r.value);
          assert d[i + 1] == (k, r.value);
        }
      }
      r
  }

  /** `d[k] = v`: an existing key keeps its place, a new key goes last. */
  function Put(d: Entries, k: string, v: Value): (r: Entries)
    ensures Keys(r) == if k in Keys(d) then Keys(d) else Keys(d) + [k]
    ensures forall q :: Lookup(r, q) == if q == k then Some(v) else Lookup(d, q)
    ensures UniqueKeys(d) ==> UniqueKeys(r)
  {
    if d == [] then [(k, v)]
    else if d[0].0 == k then [(k, v)] + d[1..]
    else
      var r := [d[0]] + Put(d[1..], k, v);
      assert r[1..] == Put(d[1..], k, v);
      assert Keys(d)[1..] == Keys(d[1..]);
      r
  }

  /** Storing the value a key already holds changes nothing. */
  lemma {:induction false} PutSame(d: Entries, k: string)
    requires k in Keys(d)
    ensures Put(d, k, Lookup(d, k).value) == d
  {
    if d[0].0 != k {
      assert Keys(d)[1..] == Keys(d[1..]);
      PutSame(d[1..], k);
    }
  }
}
