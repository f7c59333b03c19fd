/**
 * Ruby's Hash where its order shows: a caller's option hash that the API
 * methods edit with `delete`, and the query that `call_api` assembles with
 * `merge` and `[]=`. Storing under a key already present replaces the value
 * where it stands; a new key is appended.
 */
module OrderedHash {
  import opened Values

  type Pairs<K, V> = seq<(K, V)>

  predicate DistinctKeys<K(==), V>(p: Pairs<K, V>)
  {
    forall i, j :: 0 <= i < j < |p| ==> p[i].0 != p[j].0
  }

  function KeySet<K(==), V>(p: Pairs<K, V>): (ks: set<K>)
    ensures forall i :: 0 <= i < |p| ==> p[i].0 in ks
  {
    if p == [] then {} else {p[0].0} + KeySet(p[1..])
  }

  /** `h[k]`, as an option: the entry stored under `k`, if any. */
  function Find<K(==), V>(p: Pairs<K, V>, k: K): Option<V>
  {
    if p == [] then None
    else if p[0].0 == k then Some(p[0].1)
    else Find(p[1..], k)
  }

  /** `h[k]` with Ruby's nil for a missing key. */
  function Get(p: Pairs<Key, Value>, k: Key): Value
  {
    match Find(p, k)
    case Some(v) => v
    case None => Nil
  }

  /** `h[k] = v`. */
  function Put<K(==), V>(p: Pairs<K, V>, k: K, v: V): Pairs<K, V>
  {
    if p == [] then [(k, v)]
    else if p[0].0 == k then [(k, v)] + p[1..]
    else [p[0]] + Put(p[1..], k, v)
  }

  /** `h.delete(k)`, the hash that remains. */
  function Deleted<K(==), V>(p: Pairs<K, V>, k: K): Pairs<K, V>
  {
    if p == [] then []
    else if p[0].0 == k then Deleted(p[1..], k)
    else [p[0]] + Deleted(p[1..], k)
  }

  /** `h.merge(other)`: every entry of `other`, in its order, stored into `h`. */
  function Merge<K(==), V>(p: Pairs<K, V>, other: Pairs<K, V>): Pairs<K, V>
    decreases |other|
  {
    if other == [] then p else Merge(Put(p, other[0].0, other[0].1), other[1..])
  }

  /** `Hash[pairs]`: a hash built from key/value pairs, a later pair overriding an earlier one. */
  function FromPairs<K(==), V>(pairs: Pairs<K, V>): Pairs<K, V>
  {
    Merge([], pairs)
  }

  lemma {:induction false} KeySetFind<K, V>(p: Pairs<K, V>, k: K)
    ensures k in KeySet(p) <==> Find(p, k).Some?
  {
    if p != [] {
      KeySetFind(p[1..], k);
    }
  }

  /** Storing under `k` answers the new value for `k` and changes no other key's answer. */
  lemma {:induction false} FindPut<K, V>(p: Pairs<K, V>, k: K, v: V, k': K)
    ensures Find(Put(p, k, v), k') == if k' == k then Some(v) else Find(p, k')
  {
    if p != [] && p[0].0 != k {
      FindPut(p[1..], k, v, k');
    }
  }

  /** Storing adds `k` to the keys, keeps the keys distinct, and keeps an existing key in its place. */
  lemma {:induction false} PutShape<K, V>(p: Pairs<K, V>, k: K, v: V)
    ensures KeySet(Put(p, k, v)) == KeySet(p) + {k}
    ensures DistinctKeys(p) ==> DistinctKeys(Put(p, k, v))
    ensures k in KeySet(p) ==> |Put(p, k, v)| == |p| && forall i :: 0 <= i < |p| ==> Put(p, k, v)[i].0 == p[i].0
    ensures k !in KeySet(p) ==> Put(p, k, v) == p + [(k, v)]
  {
    if p != [] && p[0].0 != k {
      PutShape(p[1..], k, v);
      var r := Put(p, k, v);
      assert r == [p[0]] + Put(p[1..], k, v);
      if DistinctKeys(p) {
        assert p[0].0 !in KeySet(p[1..]) by {
          if p[0].0 in KeySet(p[1..]) {
            KeySetFind(p[1..], p[0].0);
            KeySetIndex(p[1..], p[0].0);
            assert false;
          }
        }
        forall i, j | 0 <= i < j < |r| ensures r[i].0 != r[j].0 {
          if i == 0 {
            assert r[j].0 in KeySet(Put(p[1..], k, v));
          }
        }
      }
    } else if p != [] && DistinctKeys(p) {
      var r := Put(p, k, v);
      forall i, j | 0 <= i < j < |r| ensures r[i].0 != r[j].0 {
        assert r[i].0 == p[i].0 && r[j].0 == p[j].0;
      }
    }
  }

  /** With distinct keys, each entry answers for its own key. */
  lemma {:induction false} FindDistinct<K, V>(p: Pairs<K, V>, i: int)
    requires DistinctKeys(p) && 0 <= i < |p|
    ensures Find(p, p[i].0) == Some(p[i].1)
  {
    if i > 0 {
      assert p[1..][i - 1] == p[i];
      FindDistinct(p[1..], i - 1);
    }
  }

  lemma {:induction false} KeySetIndex<K, V>(p: Pairs<K, V>, k: K)
    requires k in KeySet(p)
    ensures exists i :: 0 <= i < |p| && p[i].0 == k
  {
    if p[0].0 != k {
      KeySetIndex(p[1..], k);
      var i :| 0 <= i < |p[1..]| && p[1..][i].0 == k;
      assert p[i + 1].0 == k;
    }
  }

  /** Deleting `k` leaves no entry for `k` and every other entry, in order. */
  lemma {:induction false} FindDelete<K, V>(p: Pairs<K, V>, k: K, k': K)
    ensures Find(Deleted(p, k), k') == if k' == k then None else Find(p, k')
    ensures KeySet(Deleted(p, k)) == KeySet(p) - {k}
  {
    if p != [] {
      FindDelete(p[1..], k, k');
    }
  }

  lemma {:induction false} DeleteDistinct<K, V>(p: Pairs<K, V>, k: K)
    requires DistinctKeys(p)
    ensures DistinctKeys(Deleted(p, k))
  {
    if p != [] {
      DeleteDistinct(p[1..], k);
      var rest := Deleted(p[1..], k);
      if p[0].0 != k {
        FindDelete(p[1..], k, p[0].0);
        if p[0].0 in KeySet(p[1..]) {
          KeySetIndex(p[1..], p[0].0);
          assert false;
        }
        var r := [p[0]] + rest;
        forall i, j | 0 <= i < j < |r| ensures r[i].0 != r[j].0 {
          if i == 0 {
            assert r[j].0 in KeySet(rest);
          }
        }
      }
    }
  }

  /**
   * Merging: a key of `other` answers `other`'s value, any other key keeps
   * its answer in `p`; distinct keys stay distinct.
   */
  lemma {:induction false} FindMerge<K, V>(p: Pairs<K, V>, other: Pairs<K, V>, k: K)
    requires DistinctKeys(other)
    ensures Find(Merge(p, other), k) == if Find(other, k).Some? then Find(other, k) else Find(p, k)
    decreases |other|
  {
    if other != [] {
      var (k0, v0) := other[0];
      FindMerge(Put(p, k0, v0), other[1..], k);
      FindPut(p, k0, v0, k);
      if k == k0 {
        KeySetFind(other[1..], k);
        if k in KeySet(other[1..]) {
          KeySetIndex(other[1..], k);
          assert false;
        }
      }
    }
  }

  lemma {:induction false} MergeDistinct<K, V>(p: Pairs<K, V>, other: Pairs<K, V>)
    requires DistinctKeys(p)
    ensures DistinctKeys(Merge(p, other))
    ensures KeySet(Merge(p, other)) == KeySet(p) + KeySet(other)
    decreases |other|
  {
    if other != [] {
      PutShape(p, other[0].0, other[0].1);
      MergeDistinct(Put(p, other[0].0, other[0].1), other[1..]);
    }
  }

  /** `Hash[pairs]` has distinct keys, exactly those the pairs mention. */
  lemma FromPairsShape<K, V>(pairs: Pairs<K, V>)
    ensures DistinctKeys(FromPairs(pairs))
    ensures KeySet(FromPairs(pairs)) == KeySet(pairs)
  {
    MergeDistinct([], pairs);
  }

  /**
   * A caller's Ruby Hash that API methods edit in place; the edits are
   * seen by the caller afterwards.
   */
  class ParamHash {
    var entries: Pairs<Key, Value>

    ghost predicate Valid()
      reads this
    {
      DistinctKeys(entries)
    }

    constructor (entries: Pairs<Key, Value>)
      requires DistinctKeys(entries)
      ensures Valid() && this.entries == entries
    {
      this.entries := entries;
    }

    /** `params.delete(k)`: the removed value (nil when absent); the entry is gone. */
    method Delete(k: Key) returns (v: Value)
      requires Valid()
      modifies this
      ensures Valid()
      ensures v == Get(old(entries), k)
      ensures entries == Deleted(old(entries), k)
      ensures Find(entries, k) == None
      ensures forall k' :: k' != k ==> Find(entries, k') == Find(old(entries), k')
    {
      v := Get(entries, k);
      DeleteDistinct(entries, k);
      forall k' ensures Find(Deleted(entries, k), k') == if k' == k then None else Find(entries, k') {
        FindDelete(entries, k, k');
      }
      entries := Deleted(entries, k);
    }
  }
}
