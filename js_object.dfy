/**
 * A plain JavaScript object with string keys, as the page uses it for the
 * subscription store, the per-email counts and the product catalogs.
 *
 * An object is the list of its entries in iteration order: `Object.keys`,
 * `Object.values` and `Object.entries` all follow insertion order, assigning
 * to an existing key keeps its place, assigning to a new key appends it, and
 * `delete` drops the entry. A key occurs at most once.
 */
module JsObject {
  import opened Wrappers

  type Entry<V> = (string, V)

  /** `new Set(Object.keys(obj))`. */
  function KeySet<V>(d: seq<Entry<V>>): set<string>
  {
    if d == [] then {} else {d[0].0} + KeySet(d[1..])
  }

  /** The key set holds the key at every index of the list, and nothing else. */
  lemma {:induction false} KeySetIndex<V>(d: seq<Entry<V>>, k: string)
    ensures k in KeySet(d) <==> exists i :: 0 <= i < |d| && d[i].0 == k
  {
    if d != [] {
      KeySetIndex(d[1..], k);
      if k in KeySet(d[1..]) {
        var i :| 0 <= i < |d| - 1 && d[1..][i].0 == k;
        assert d[i + 1].0 == k;
      }
      if exists i :: 0 <= i < |d| && d[i].0 == k {
        var i :| 0 <= i < |d| && d[i].0 == k;
        if i > 0 { assert d[1..][i - 1].0 == k; }
      }
    }
  }

  /** No key occurs twice. */
  ghost predicate DistinctKeys<V>(d: seq<Entry<V>>)
  {
    d == [] || (d[0].0 !in KeySet(d[1..]) && DistinctKeys(d[1..]))
  }

  type Obj<V> = d: seq<Entry<V>> | DistinctKeys(d)

  /** `obj[k]`: the value stored under `k`, if any. */
  function Get<V>(d: Obj<V>, k: string): (r: Option<V>)
    ensures r.Some? <==> k in KeySet(d)
    ensures r.Some? ==> (k, r.value) in d
    ensures r.None? ==> forall i :: 0 <= i < |d| ==> d[i].0 != k
  {
    if d == [] then None
    else if d[0].0 == k then Some(d[0].1)
    else Get(d[1..], k)
  }

  /** `obj[k] = v` on a copy of the object. */
  function Put<V>(d: Obj<V>, k: string, v: V): (r: Obj<V>)
    ensures KeySet(r) == KeySet(d) + {k}
  {
    if d == [] then
      assert [(k, v)][1..] == [];
      [(k, v)]
    else if d[0].0 == k then
      assert ([(k, v)] + d[1..])[1..] == d[1..];
      [(k, v)] + d[1..]
    else
      var rest := Put(d[1..], k, v);
      assert ([d[0]] + rest)[1..] == rest;
      [d[0]] + rest
  }

  /** `delete obj[k]` on a copy of the object. */
  function Delete<V>(d: Obj<V>, k: string): (r: Obj<V>)
    ensures KeySet(r) == KeySet(d) - {k}
  {
    if d == [] then []
    else if d[0].0 == k then Delete(d[1..], k)
    else
      var rest := Delete(d[1..], k);
      assert ([d[0]] + rest)[1..] == rest;
      [d[0]] + rest
  }

  /** `Object.values(obj)`, in iteration order. */
  function Values<V>(d: seq<Entry<V>>): (r: seq<V>)
    ensures |r| == |d|
    ensures forall i :: 0 <= i < |d| ==> r[i] == d[i].1
  {
    if d == [] then [] else [d[0].1] + Values(d[1..])
  }

  /** Distinct keys: an object holds one entry per key, so it has as many keys as entries. */
  lemma {:induction false} KeyCount<V>(d: Obj<V>)
    ensures |KeySet(d)| == |d|
  {
    if d != [] {
      KeyCount(d[1..]);
    }
  }

  /** The first key does not occur again later in the list. */
  lemma HeadKeyNotRepeated<V>(d: Obj<V>, i: nat)
    requires 0 < i < |d|
    ensures d[i].0 != d[0].0
  {
    assert d[1..][i - 1] == d[i];
    KeySetIndex(d[1..], d[i].0);
  }

  /** Key positions are unique: equal keys sit at the same index. */
  lemma {:induction false} KeysUnique<V>(d: Obj<V>, i: nat, j: nat)
    requires i < |d| && j < |d| && d[i].0 == d[j].0
    ensures i == j
  {
    if i > 0 && j > 0 {
      KeysUnique(d[1..], i - 1, j - 1);
    } else if i > 0 {
      HeadKeyNotRepeated(d, i);
    } else if j > 0 {
      HeadKeyNotRepeated(d, j);
    }
  }

  /** After `obj[k] = v`, `k` reads back as `v` and every other key reads as before. */
  lemma {:induction false} GetPut<V>(d: Obj<V>, k: string, v: V, j: string)
    ensures Get(Put(d, k, v), j) == if j == k then Some(v) else Get(d, j)
  {
    if d != [] && d[0].0 != k {
      GetPut(d[1..], k, v, j);
    }
  }

  /** Assigning to a key that is present overwrites its value in place: same keys, same order. */
  lemma {:induction false} PutExisting<V>(d: Obj<V>, k: string, v: V)
    requires k in KeySet(d)
    ensures |Put(d, k, v)| == |d|
    ensures forall i :: 0 <= i < |d| ==> Put(d, k, v)[i] == if d[i].0 == k then (k, v) else d[i]
  {
    if d[0].0 != k {
      PutExisting(d[1..], k, v);
    } else {
      forall i | 0 < i < |d| ensures d[i].0 != k {
        HeadKeyNotRepeated(d, i);
      }
    }
  }

  /** Assigning to a key that is absent appends one entry at the end. */
  lemma {:induction false} PutNew<V>(d: Obj<V>, k: string, v: V)
    requires k !in KeySet(d)
    ensures Put(d, k, v) == d + [(k, v)]
  {
    if d != [] {
      var rest := d[1..];
      assert d[0].0 != k && k !in KeySet(rest);
      PutNew(rest, k, v);
      assert d == [d[0]] + rest;
      assert d + [(k, v)] == [d[0]] + (rest + [(k, v)]);
    }
  }

  /** After `delete obj[k]`, `k` is absent and every other key reads as before. */
  lemma {:induction false} GetDelete<V>(d: Obj<V>, k: string, j: string)
    ensures Get(Delete(d, k), j) == if j == k then None else Get(d, j)
  {
    if d != [] {
      GetDelete(d[1..], k, j);
    }
  }

  /** Deleting a key that is absent leaves the object as it was. */
  lemma {:induction false} DeleteAbsent<V>(d: Obj<V>, k: string)
    requires k !in KeySet(d)
    ensures Delete(d, k) == d
  {
    if d != [] {
      DeleteAbsent(d[1..], k);
    }
  }

  /** Deleting a key keeps the remaining entries in their order. */
  lemma {:induction false} DeleteOrder<V>(d: Obj<V>, k: string)
    ensures Subsequence(Delete(d, k), d)
    ensures forall e :: e in Delete(d, k) <==> e in d && e.0 != k
  {
    if d != [] {
      DeleteOrder(d[1..], k);
      if d[0].0 != k {
        assert Delete(d, k)[1..] == Delete(d[1..], k);
      }
    }
  }

  /** Assigning a fresh key and then deleting it gives back the original object. */
  lemma {:induction false} DeleteUndoesPut<V>(d: Obj<V>, k: string, v: V)
    requires k !in KeySet(d)
    ensures Delete(Put(d, k, v), k) == d
  {
    if d != [] {
      DeleteUndoesPut(d[1..], k, v);
    }
  }

  /** `a` is `b` with some entries left out, the rest in their order. */
  ghost predicate Subsequence<T>(a: seq<T>, b: seq<T>)
    decreases |b|
  {
    a == [] || (b != [] && ((a[0] == b[0] && Subsequence(a[1..], b[1..])) || Subsequence(a, b[1..])))
  }
}
