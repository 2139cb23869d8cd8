/** A JavaScript `Map` (or a plain record filled by assignment) as a sequence of
    key/value pairs in insertion order. `set` on a present key replaces the value in
    place and keeps the key's position; `set` on a new key appends; `delete` removes
    the entry. Iteration (`values()`, `Object.entries`) follows the sequence. */
module OrderedMap {
  import opened Wrappers

  /** No key occurs twice: every map built with Put has this shape. */
  ghost predicate DistinctKeys<K, V>(m: seq<(K, V)>)
  {
    forall i, j :: 0 <= i < j < |m| ==> m[i].0 != m[j].0
  }

  predicate Has<K(==,!new), V>(m: seq<(K, V)>, k: K)
  {
    exists i :: 0 <= i < |m| && m[i].0 == k
  }

  /** `map.get(k)`: the value of the first entry with key k. */
  function Get<K(==,!new), V>(m: seq<(K, V)>, k: K): (r: Option<V>)
    ensures r.Some? <==> Has(m, k)
    ensures r.Some? ==> exists i :: 0 <= i < |m| && m[i] == (k, r.value)
    ensures DistinctKeys(m) ==> forall i :: 0 <= i < |m| && m[i].0 == k ==> r == Some(m[i].1)
  {
    if m == [] then None
    else if m[0].0 == k then Some(m[0].1)
    else
      var r := Get(m[1..], k);
      assert forall i :: 1 <= i < |m| ==> m[i] == m[1..][i - 1];
      r
  }

  /** `map.set(k, v)`. */
  function Put<K(==,!new), V>(m: seq<(K, V)>, k: K, v: V): seq<(K, V)>
  {
    if m == [] then [(k, v)]
    else if m[0].0 == k then [(k, v)] + m[1..]
    else [m[0]] + Put(m[1..], k, v)
  }

  lemma {:induction false} HasTail<K(!new), V>(m: seq<(K, V)>, k: K)
    requires m != [] && m[0].0 != k
    ensures Has(m, k) <==> Has(m[1..], k)
  {
    if Has(m, k) {
      var i :| 0 <= i < |m| && m[i].0 == k;
      assert m[1..][i - 1].0 == k;
    }
    if Has(m[1..], k) {
      var i :| 0 <= i < |m[1..]| && m[1..][i].0 == k;
      assert m[i + 1].0 == k;
    }
  }

  /** A present key keeps its position: the key column is unchanged. */
  lemma {:induction false} PutPresent<K(!new), V>(m: seq<(K, V)>, k: K, v: V)
    requires Has(m, k)
    ensures |Put(m, k, v)| == |m| && forall i :: 0 <= i < |m| ==> Put(m, k, v)[i].0 == m[i].0
  {
    if m[0].0 != k {
      HasTail(m, k);
      PutPresent(m[1..], k, v);
      assert Put(m, k, v) == [m[0]] + Put(m[1..], k, v);
    }
  }

  /** A new key is appended. */
  lemma {:induction false} PutAbsent<K(!new), V>(m: seq<(K, V)>, k: K, v: V)
    requires !Has(m, k)
    ensures Put(m, k, v) == m + [(k, v)]
  {
    if m != [] {
      assert m[0].0 != k;
      HasTail(m, k);
      PutAbsent(m[1..], k, v);
      assert m == [m[0]] + m[1..];
    }
  }

  /** Appending an absent key keeps keys distinct and makes it map to its value. */
  lemma AppendAbsent<K(!new), V>(m: seq<(K, V)>, k: K, v: V)
    requires DistinctKeys(m) && !Has(m, k)
    ensures DistinctKeys(m + [(k, v)])
    ensures Get(m + [(k, v)], k) == Some(v)
  {
    var r := m + [(k, v)];
    forall i, j | 0 <= i < j < |r| ensures r[i].0 != r[j].0 {
      assert r[i] == m[i];
      if j == |m| {
        assert r[j].0 == k;
      } else {
        assert r[j] == m[j];
      }
    }
    assert r[|m|] == (k, v);
  }

  /** After a Put, the keys present are the old ones and k. */
  lemma PutHas<K(!new), V>(m: seq<(K, V)>, k: K, v: V, n: K)
    ensures Has(Put(m, k, v), n) <==> Has(m, n) || n == k
  {
    if Has(m, k) {
      PutPresent(m, k, v);
      var r := Put(m, k, v);
      if Has(r, n) { var i :| 0 <= i < |r| && r[i].0 == n; assert m[i].0 == n; }
      if Has(m, n) { var i :| 0 <= i < |m| && m[i].0 == n; assert r[i].0 == n; }
    } else {
      PutAbsent(m, k, v);
      var r := m + [(k, v)];
      if Has(r, n) && n != k { var i :| 0 <= i < |r| && r[i].0 == n; assert m[i].0 == n; }
      if Has(m, n) { var i :| 0 <= i < |m| && m[i].0 == n; assert r[i].0 == n; }
      assert r[|m|].0 == k;
    }
  }

  /** Every entry after a Put is the new one or an old one. */
  lemma {:induction false} PutFrom<K(!new), V>(m: seq<(K, V)>, k: K, v: V)
    ensures forall i :: 0 <= i < |Put(m, k, v)| ==> Put(m, k, v)[i] == (k, v) || Put(m, k, v)[i] in m
  {
    if m != [] && m[0].0 != k {
      PutFrom(m[1..], k, v);
      var tail := Put(m[1..], k, v);
      assert Put(m, k, v) == [m[0]] + tail;
      forall i | 1 <= i < |Put(m, k, v)| ensures Put(m, k, v)[i] == (k, v) || Put(m, k, v)[i] in m {
        assert Put(m, k, v)[i] == tail[i - 1];
        if tail[i - 1] != (k, v) {
          assert tail[i - 1] in m[1..];
        }
      }
    }
  }

  /** The three facts together. */
  lemma PutShape<K(!new), V>(m: seq<(K, V)>, k: K, v: V)
    ensures Has(m, k) ==> |Put(m, k, v)| == |m| && forall i :: 0 <= i < |m| ==> Put(m, k, v)[i].0 == m[i].0
    ensures !Has(m, k) ==> Put(m, k, v) == m + [(k, v)]
    ensures forall i :: 0 <= i < |Put(m, k, v)| ==> Put(m, k, v)[i] == (k, v) || Put(m, k, v)[i] in m
  {
    if Has(m, k) { PutPresent(m, k, v); } else { PutAbsent(m, k, v); }
    PutFrom(m, k, v);
  }

  /** Put keeps keys distinct, makes k map to v and leaves every other key alone. */
  lemma PutGet<K(!new), V>(m: seq<(K, V)>, k: K, v: V)
    ensures DistinctKeys(m) ==> DistinctKeys(Put(m, k, v))
    ensures Get(Put(m, k, v), k) == Some(v)
    ensures forall k' :: k' != k ==> Get(Put(m, k, v), k') == Get(m, k')
  {
    if DistinctKeys(m) {
      PutKeepsDistinct(m, k, v);
    }
    PutGetSame(m, k, v);
    forall k' | k' != k ensures Get(Put(m, k, v), k') == Get(m, k') {
      PutGetOther(m, k, v, k');
    }
  }

  lemma {:induction false} PutKeepsDistinct<K(!new), V>(m: seq<(K, V)>, k: K, v: V)
    requires DistinctKeys(m)
    ensures DistinctKeys(Put(m, k, v))
  {
    if m != [] && m[0].0 != k {
      var tail := Put(m[1..], k, v);
      PutKeepsDistinct(m[1..], k, v);
      PutFrom(m[1..], k, v);
      var r := [m[0]] + tail;
      assert Put(m, k, v) == r;
      forall i | 0 <= i < |tail| ensures tail[i].0 != m[0].0 {
        if tail[i] != (k, v) {
          var j :| 0 <= j < |m[1..]| && m[1..][j] == tail[i];
          assert m[j + 1] == tail[i];
        }
      }
      forall i, j | 0 <= i < j < |r| ensures r[i].0 != r[j].0 {
        assert r[j] == tail[j - 1];
        if i > 0 { assert r[i] == tail[i - 1]; }
      }
    }
  }

  lemma {:induction false} PutGetSame<K(!new), V>(m: seq<(K, V)>, k: K, v: V)
    ensures Get(Put(m, k, v), k) == Some(v)
  {
    if m != [] && m[0].0 != k {
      PutGetSame(m[1..], k, v);
      assert Put(m, k, v) == [m[0]] + Put(m[1..], k, v);
    }
  }

  lemma {:induction false} PutGetOther<K(!new), V>(m: seq<(K, V)>, k: K, v: V, k': K)
    requires k' != k
    ensures Get(Put(m, k, v), k') == Get(m, k')
  {
    if m != [] && m[0].0 != k {
      PutGetOther(m[1..], k, v, k');
      assert Put(m, k, v) == [m[0]] + Put(m[1..], k, v);
    }
  }

  /** `map.delete(k)`. */
  function Remove<K(==,!new), V>(m: seq<(K, V)>, k: K): (r: seq<(K, V)>)
    requires DistinctKeys(m)
    ensures DistinctKeys(r)
    ensures !Has(r, k)
    ensures forall k' :: k' != k ==> Get(r, k') == Get(m, k')
    ensures !Has(m, k) ==> r == m
    ensures forall i :: 0 <= i < |r| ==> r[i] in m
  {
    if m == [] then []
    else
      assert forall i :: 1 <= i < |m| ==> m[i] == m[1..][i - 1];
      if m[0].0 == k then m[1..]
      else [m[0]] + Remove(m[1..], k)
  }

  /** With distinct keys, deleting the key found at position p cuts out exactly that entry. */
  lemma {:induction false} RemoveAt<K(!new), V>(m: seq<(K, V)>, k: K, p: nat)
    requires DistinctKeys(m) && p < |m| && m[p].0 == k
    ensures Remove(m, k) == m[..p] + m[p + 1..]
  {
    assert forall i :: 1 <= i < |m| ==> m[i] == m[1..][i - 1];
    if p > 0 {
      RemoveAt(m[1..], k, p - 1);
      assert m[1..][..p - 1] == m[1..p];
      assert m[1..][p..] == m[p + 1..];
      assert [m[0]] + m[1..p] == m[..p];
    }
  }

  /** Deleting the only key empties the map. */
  lemma RemoveOnly<K(!new), V>(k: K, v: V)
    ensures DistinctKeys([(k, v)]) && Get([(k, v)], k) == Some(v) && Remove([(k, v)], k) == []
  {
    RemoveAt([(k, v)], k, 0);
  }

  /** `[...map.values()]`. */
  function Values<K, V>(m: seq<(K, V)>): (r: seq<V>)
    ensures |r| == |m|
    ensures forall i :: 0 <= i < |m| ==> r[i] == m[i].1
  {
    if m == [] then [] else [m[0].1] + Values(m[1..])
  }
}
