/**
 * `deepmerge`: merge a profile fragment into a mapping, recursing into keys
 * that hold a dict on both sides and raising `ValueError` on any other
 * collision.
 */
module ProfileHelpers {
  import opened Wrappers
  import opened Sidecar

  /** The bare `ValueError()` a collision raises. */
  const MergeConflict: Exception := ValueError("")

  /**
   * Reference definition of the loop: the items of `d2` from position `i` on,
   * folded into `acc` one key at a time.
   */
  function MergeFrom(acc: Entries, d2: Entries, i: nat): (r: Result<Entries>)
    requires i <= |d2|
    ensures r.Err? ==> r.error == MergeConflict
    decreases Dict(d2), |d2| - i
  {
    if i == |d2| then Ok(acc)
    else
      var (key, value) := d2[i];
      match Lookup(acc, key)
      case None => MergeFrom(Put(acc, key, value), d2, i + 1)
      case Some(existing) =>
        if existing.Dict? && value.Dict? then
          assert d2[i] in d2;
          var merged :- MergeFrom(existing.entries, value.entries, 0);
          MergeFrom(Put(acc, key, Dict(merged)), d2, i + 1)
        else Err(MergeConflict)
  }

  /** `deepmerge(dict1, dict2)` as a value. */
  function Merge(d1: Entries, d2: Entries): Result<Entries>
  {
    MergeFrom(d1, d2, 0)
  }

  /** `deepmerge`: copy `dict1`, then bring in `dict2` key by key. */
  method DeepMerge(dict1: Entries, dict2: Entries) returns (r: Result<Entries>)
    ensures r == Merge(dict1, dict2)
    ensures dict2 == [] ==> r == Ok(dict1)
    ensures r.Err? ==> r.error == MergeConflict
    decreases Dict(dict2)
  {
    var result := dict1;
    for i := 0 to |dict2|
      invariant MergeFrom(result, dict2, i) == Merge(dict1, dict2)
    {
      var (key, value) := dict2[i];
      var existing := Lookup(result, key);
      if existing.Some? {
        if existing.value.Dict? && value.Dict? {
          assert dict2[i] in dict2;
          var merged := DeepMerge(existing.value.entries, value.entries);
          if merged.Err? {
            return merged;
          }
          result := Put(result, key, Dict(merged.value));
        } else {
          return Err(MergeConflict);
        }
      } else {
        result := Put(result, key, value);
      }
    }
    return Ok(result);
  }

  /** The keys of `ks`, in order, that are not among `existing`. */
  function NewKeys(ks: seq<string>, existing: seq<string>): (r: seq<string>)
    ensures forall k :: k in r <==> k in ks && k !in existing
  {
    if ks == [] then []
    else (if ks[0] in existing then [] else [ks[0]]) + NewKeys(ks[1..], existing)
  }

  lemma {:induction false} NewKeysExtend(ks: seq<string>, existing: seq<string>, k: string)
    requires k !in ks
    ensures NewKeys(ks, existing + [k]) == NewKeys(ks, existing)
  {
    if ks != [] {
      NewKeysExtend(ks[1..], existing, k);
    }
  }

  /** A key that `Put` has not seen before is appended. */
  lemma {:induction false} PutNew(d: Entries, k: string, v: Value)
    requires k !in Keys(d)
    ensures Put(d, k, v) == d + [(k, v)]
  {
    if d != [] {
      assert Keys(d)[1..] == Keys(d[1..]);
      PutNew(d[1..], k, v);
    }
  }

  /** Splitting off the first item of a dict's tail. */
  lemma TailStep(d2: Entries, i: nat, q: string)
    requires i < |d2|
    ensures d2[i..] == [d2[i]] + d2[i + 1..]
    ensures Keys(d2[i..]) == [d2[i].0] + Keys(d2[i + 1..])
    ensures Lookup(d2[i..], q) == if q == d2[i].0 then Some(d2[i].1) else Lookup(d2[i + 1..], q)
  {
    assert d2[i..] == [d2[i]] + d2[i + 1..];
    assert d2[i..][1..] == d2[i + 1..];
  }

  lemma UniqueTail(d2: Entries, i: nat)
    requires i < |d2| && UniqueKeys(d2)
    ensures d2[i].0 !in Keys(d2[i + 1..])
    ensures UniqueKeys(d2[i + 1..])
  {
    var tail := d2[i + 1..];
    forall j | 0 <= j < |tail|
      ensures Keys(tail)[j] != d2[i].0
    {
      assert tail[j] == d2[i + 1 + j];
    }
  }

  /** The key list the loop builds: each key of `d2` from `i` on joins the end unless present. */
  function KeysAfter(ks: seq<string>, d2: Entries, i: nat): seq<string>
    requires i <= |d2|
    decreases |d2| - i
  {
    if i == |d2| then ks
    else KeysAfter(if d2[i].0 in ks then ks else ks + [d2[i].0], d2, i + 1)
  }

  lemma {:induction false} MergeKeysFrom(acc: Entries, d2: Entries, i: nat)
    requires i <= |d2| && MergeFrom(acc, d2, i).Ok?
    ensures Keys(MergeFrom(acc, d2, i).value) == KeysAfter(Keys(acc), d2, i)
    ensures UniqueKeys(acc) ==> UniqueKeys(MergeFrom(acc, d2, i).value)
    decreases |d2| - i
  {
    if i < |d2| {
      var key, value := d2[i].0, d2[i].1;
      if key !in Keys(acc) {
        MergeKeysFrom(Put(acc, key, value), d2, i + 1);
      } else {
        var existing := Lookup(acc, key).value;
        var merged := MergeFrom(existing.entries, value.entries, 0).value;
        MergeKeysFrom(Put(acc, key, Dict(merged)), d2, i + 1);
      }
    }
  }

  /** The keys of `ks` in order with the keys of `ls` not yet present appended one by one. */
  function AppendNew(ks: seq<string>, ls: seq<string>): seq<string>
    decreases |ls|
  {
    if ls == [] then ks else AppendNew(if ls[0] in ks then ks else ks + [ls[0]], ls[1..])
  }

  lemma {:induction false} KeysAfterAppendNew(ks: seq<string>, d2: Entries, i: nat)
    requires i <= |d2|
    ensures KeysAfter(ks, d2, i) == AppendNew(ks, Keys(d2[i..]))
    decreases |d2| - i
  {
    if i < |d2| {
      TailStep(d2, i, d2[i].0);
      assert Keys(d2[i..])[1..] == Keys(d2[i + 1..]);
      KeysAfterAppendNew(if d2[i].0 in ks then ks else ks + [d2[i].0], d2, i + 1);
    } else {
      assert Keys(d2[i..]) == [];
    }
  }

  lemma {:induction false} AppendNewIsNewKeys(ks: seq<string>, ls: seq<string>)
    decreases |ls|
    requires forall i, j :: 0 <= i < j < |ls| ==> ls[i] != ls[j]
    ensures AppendNew(ks, ls) == ks + NewKeys(ls, ks)
  {
    if ls != [] {
      var x, rest := ls[0], ls[1..];
      assert x !in rest by {
        forall j | 0 <= j < |rest| ensures rest[j] != x { assert rest[j] == ls[j + 1]; }
      }
      if x in ks {
        AppendNewIsNewKeys(ks, rest);
      } else {
        AppendNewIsNewKeys(ks + [x], rest);
        NewKeysExtend(rest, ks, x);
      }
    }
  }

  /**
   * The merged dict's keys are those of `dict1` in their order, followed by
   * the keys only `dict2` has, in `dict2`'s order; so its key set is the union.
   */
  lemma DeepMergeKeys(d1: Entries, d2: Entries)
    requires UniqueKeys(d2) && Merge(d1, d2).Ok?
    ensures Keys(Merge(d1, d2).value) == Keys(d1) + NewKeys(Keys(d2), Keys(d1))
    ensures forall k :: k in Keys(Merge(d1, d2).value) <==> k in Keys(d1) || k in Keys(d2)
    ensures UniqueKeys(d1) ==> UniqueKeys(Merge(d1, d2).value)
  {
    assert d2[0..] == d2;
    MergeKeysFrom(d1, d2, 0);
    KeysAfterAppendNew(Keys(d1), d2, 0);
    AppendNewIsNewKeys(Keys(d1), Keys(d2));
  }

  /** What a successful merge stores under one key, by where the key came from. */
  predicate MergedAt(d1: Entries, d2: Entries, merged: Entries, q: string)
  {
    var in1, in2 := q in Keys(d1), q in Keys(d2);
    && (in1 && !in2 ==> Lookup(merged, q) == Lookup(d1, q))
    && (!in1 && in2 ==> Lookup(merged, q) == Lookup(d2, q))
    && (in1 && in2 ==>
          && Lookup(d1, q).value.Dict? && Lookup(d2, q).value.Dict?
          && var sub := Merge(Lookup(d1, q).value.entries, Lookup(d2, q).value.entries);
          && sub.Ok? && Lookup(merged, q) == Some(Dict(sub.value)))
  }

  lemma {:induction false} MergeLookupFrom(acc: Entries, d2: Entries, i: nat, q: string)
    requires i <= |d2| && UniqueKeys(d2) && MergeFrom(acc, d2, i).Ok?
    ensures MergedAt(acc, d2[i..], MergeFrom(acc, d2, i).value, q)
    decreases |d2| - i
  {
    if i < |d2| {
      var (key, value) := d2[i];
      TailStep(d2, i, q);
      UniqueTail(d2, i);
      match Lookup(acc, key)
      case None =>
        MergeLookupFrom(Put(acc, key, value), d2, i + 1, q);
      case Some(existing) =>
        var merged := MergeFrom(existing.entries, value.entries, 0).value;
        MergeLookupFrom(Put(acc, key, Dict(merged)), d2, i + 1, q);
    }
  }

  /**
   * After a successful merge: a key only in `dict1` keeps its value, a key
   * only in `dict2` takes `dict2`'s value, and a key in both held a dict on
   * both sides and now holds the merge of the two.
   */
  lemma DeepMergeLookup(d1: Entries, d2: Entries, q: string)
    requires UniqueKeys(d2) && Merge(d1, d2).Ok?
    ensures MergedAt(d1, d2, Merge(d1, d2).value, q)
  {
    assert d2[0..] == d2;
    MergeLookupFrom(d1, d2, 0, q);
  }

  /**
   * A key present on both sides raises `ValueError` unless both values are
   * dicts that merge: two equal strings collide like any other leaves.
   */
  lemma SharedKeyConflict(d1: Entries, d2: Entries, q: string)
    requires UniqueKeys(d2) && q in Keys(d1) && q in Keys(d2)
    requires var v1, v2 := Lookup(d1, q).value, Lookup(d2, q).value;
      !(v1.Dict? && v2.Dict? && Merge(v1.entries, v2.entries).Ok?)
    ensures Merge(d1, d2) == Err(MergeConflict)
  {
    if Merge(d1, d2).Ok? {
      DeepMergeLookup(d1, d2, q);
    }
  }

  lemma AppendStep(acc: Entries, d2: Entries, i: nat)
    requires i < |d2|
    ensures acc + [d2[i]] + d2[i + 1..] == acc + d2[i..]
  {
    assert d2[i..] == [d2[i]] + d2[i + 1..];
  }

  lemma {:induction false} DisjointMergeFrom(acc: Entries, d2: Entries, i: nat)
    requires i <= |d2| && UniqueKeys(d2)
    requires forall j :: i <= j < |d2| ==> d2[j].0 !in Keys(acc)
    ensures MergeFrom(acc, d2, i) == Ok(acc + d2[i..])
    decreases |d2| - i
  {
    if i < |d2| {
      var key, value := d2[i].0, d2[i].1;
      assert Lookup(acc, key).None?;
      PutNew(acc, key, value);
      var acc' := acc + [(key, value)];
      KeysAppend(acc, [(key, value)]);
      forall j | i + 1 <= j < |d2|
        ensures d2[j].0 !in Keys(acc')
      {
        assert d2[j].0 != key;
      }
      assert MergeFrom(acc, d2, i) == MergeFrom(acc', d2, i + 1);
      DisjointMergeFrom(acc', d2, i + 1);
      AppendStep(acc, d2, i);
    } else {
      assert acc + d2[i..] == acc;
    }
  }

  /** Dicts with no key in common merge into `dict1`'s items followed by `dict2`'s. */
  lemma DisjointMerge(d1: Entries, d2: Entries)
    requires UniqueKeys(d2)
    requires forall k :: k in Keys(d2) ==> k !in Keys(d1)
    ensures Merge(d1, d2) == Ok(d1 + d2)
  {
    assert d2[0..] == d2;
    forall j | 0 <= j < |d2| ensures d2[j].0 !in Keys(d1) {
      assert d2[j].0 == Keys(d2)[j];
    }
    DisjointMergeFrom(d1, d2, 0);
  }

  /** Merging in `{key: {}}` where `dict1` holds a dict under `key` gives back `dict1`. */
  lemma MergeEmptySubDict(d1: Entries, key: string)
    requires key in Keys(d1) && Lookup(d1, key).value.Dict?
    ensures Merge(d1, [(key, Dict([]))]) == Ok(d1)
  {
    var d2 := [(key, Dict([]))];
    var existing := Lookup(d1, key).value;
    assert MergeFrom(existing.entries, [], 0) == Ok(existing.entries);
    PutSame(d1, key);
    assert MergeFrom(d1, d2, 1) == Ok(d1);
  }
}
