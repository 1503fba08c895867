/**
 * A PHP array with string keys, as the generator uses it for name-keyed
 * collections: entries keep the order in which their keys were first
 * written, and writing an existing key replaces its value in place.
 */
module OrderedMaps {
  import opened Results

  /** The keys, in entry order. */
  function Keys<V>(m: seq<(string, V)>): seq<string> {
    seq(|m|, i requires 0 <= i < |m| => m[i].0)
  }

  /** No key occurs twice. */
  predicate DistinctKeys<V>(m: seq<(string, V)>) {
    forall i, j :: 0 <= i < j < |m| ==> m[i].0 != m[j].0
  }

  /** The value stored under `k`. */
  function Lookup<V>(m: seq<(string, V)>, k: string): Option<V> {
    if m == [] then None
    else if m[0].0 == k then Some(m[0].1)
    else Lookup(m[1..], k)
  }

  /** `$m[$k] = $v`. */
  function Put<V>(m: seq<(string, V)>, k: string, v: V): (r: seq<(string, V)>)
    requires DistinctKeys(m)
    ensures DistinctKeys(r)
    ensures Lookup(r, k) == Some(v)
    ensures forall k' :: k' != k ==> Lookup(r, k') == Lookup(m, k')
    ensures k in Keys(m) ==> Keys(r) == Keys(m)
    ensures k !in Keys(m) ==> Keys(r) == Keys(m) + [k]
  {
    if m == [] then [(k, v)]
    else
      DistinctTail(m);
      if m[0].0 == k then
        DistinctCons((k, v), m[1..]);
        assert Keys(m)[0] == k && Keys([(k, v)] + m[1..]) == Keys(m);
        [(k, v)] + m[1..]
      else
        var rest := Put(m[1..], k, v);
        PutBehind(m, k, v, rest);
        [m[0]] + rest
  }

  /** A write behind a first entry with another key: the first entry stays
      in front of what the write does to the rest. */
  lemma PutBehind<V>(m: seq<(string, V)>, k: string, v: V, rest: seq<(string, V)>)
    requires m != [] && DistinctKeys(m) && m[0].0 != k
    requires DistinctKeys(rest) && Lookup(rest, k) == Some(v)
    requires forall k' :: k' != k ==> Lookup(rest, k') == Lookup(m[1..], k')
    requires k in Keys(m[1..]) ==> Keys(rest) == Keys(m[1..])
    requires k !in Keys(m[1..]) ==> Keys(rest) == Keys(m[1..]) + [k]
    ensures var r := [m[0]] + rest;
      && DistinctKeys(r) && Lookup(r, k) == Some(v)
      && (forall k' :: k' != k ==> Lookup(r, k') == Lookup(m, k'))
      && (k in Keys(m) ==> Keys(r) == Keys(m))
      && (k !in Keys(m) ==> Keys(r) == Keys(m) + [k])
  {
    var r := [m[0]] + rest;
    assert r[1..] == rest;
    DistinctTail(m);
    assert Keys(m) == [m[0].0] + Keys(m[1..]);
    assert Keys(r) == [m[0].0] + Keys(rest);
    assert m[0].0 !in Keys(rest) by {
      if k !in Keys(m[1..]) {
        assert Keys(rest) == Keys(m[1..]) + [k];
      }
    }
    DistinctCons(m[0], rest);
  }

  /** The entries after the first keep distinct keys, none of them the
      first key. */
  lemma DistinctTail<V>(m: seq<(string, V)>)
    requires m != [] && DistinctKeys(m)
    ensures DistinctKeys(m[1..]) && m[0].0 !in Keys(m[1..])
  {
    assert forall i, j :: 0 <= i < j < |m| - 1 ==> m[1..][i] == m[i + 1] && m[1..][j] == m[j + 1];
  }

  /** A new first entry whose key is fresh keeps the keys distinct. */
  lemma DistinctCons<V>(kv: (string, V), m: seq<(string, V)>)
    requires DistinctKeys(m) && kv.0 !in Keys(m)
    ensures DistinctKeys([kv] + m)
  {
    var r := [kv] + m;
    forall i, j | 0 <= i < j < |r| ensures r[i].0 != r[j].0 {
      if i == 0 {
        assert r[j].0 == Keys(m)[j - 1];
      } else {
        assert r[i] == m[i - 1] && r[j] == m[j - 1];
      }
    }
  }

  /** Writes the pairs of `kvs` one after the other. */
  function PutAll<V>(m: seq<(string, V)>, kvs: seq<(string, V)>): (r: seq<(string, V)>)
    requires DistinctKeys(m)
    ensures DistinctKeys(r)
    decreases |kvs|
  {
    if kvs == [] then m else PutAll(Put(m, kvs[0].0, kvs[0].1), kvs[1..])
  }

  /** The value of the last pair of `kvs` whose key is `k`. */
  function LastValue<V>(kvs: seq<(string, V)>, k: string): Option<V> {
    if kvs == [] then None
    else if kvs[|kvs| - 1].0 == k then Some(kvs[|kvs| - 1].1)
    else LastValue(kvs[..|kvs| - 1], k)
  }

  lemma {:induction false} LastValueCons<V>(kv: (string, V), kvs: seq<(string, V)>, k: string)
    ensures LastValue([kv] + kvs, k) ==
      if LastValue(kvs, k).Some? then LastValue(kvs, k)
      else if kv.0 == k then Some(kv.1) else None
  {
    if kvs != [] {
      assert ([kv] + kvs)[..|[kv] + kvs| - 1] == [kv] + kvs[..|kvs| - 1];
      LastValueCons(kv, kvs[..|kvs| - 1], k);
    }
  }

  /** After a sequence of writes, a key holds the last value written to it,
      or its old value when it was not written: later writes win. */
  lemma {:induction false} PutAllLookup<V>(m: seq<(string, V)>, kvs: seq<(string, V)>, k: string)
    requires DistinctKeys(m)
    ensures Lookup(PutAll(m, kvs), k) ==
      if LastValue(kvs, k).Some? then LastValue(kvs, k) else Lookup(m, k)
    decreases |kvs|
  {
    if kvs != [] {
      PutAllLookup(Put(m, kvs[0].0, kvs[0].1), kvs[1..], k);
      LastValueCons(kvs[0], kvs[1..], k);
      assert [kvs[0]] + kvs[1..] == kvs;
    }
  }

  /** Writing keys that are already present keeps the key order. */
  lemma {:induction false} PutAllKeepsKeys<V>(m: seq<(string, V)>, kvs: seq<(string, V)>)
    requires DistinctKeys(m)
    requires forall i :: 0 <= i < |kvs| ==> kvs[i].0 in Keys(m)
    ensures Keys(PutAll(m, kvs)) == Keys(m)
    decreases |kvs|
  {
    if kvs != [] {
      PutAllKeepsKeys(Put(m, kvs[0].0, kvs[0].1), kvs[1..]);
    }
  }

  /** Every written key is present afterwards, and at most one entry is added
      per write. */
  lemma {:induction false} PutAllKeys<V>(m: seq<(string, V)>, kvs: seq<(string, V)>)
    requires DistinctKeys(m)
    ensures forall x :: x in Keys(m) ==> x in Keys(PutAll(m, kvs))
    ensures forall i :: 0 <= i < |kvs| ==> kvs[i].0 in Keys(PutAll(m, kvs))
    ensures |PutAll(m, kvs)| <= |m| + |kvs|
    decreases |kvs|
  {
    if kvs != [] {
      var m' := Put(m, kvs[0].0, kvs[0].1);
      PutAllKeys(m', kvs[1..]);
      var r := PutAll(m', kvs[1..]);
      assert PutAll(m, kvs) == r;
      assert kvs[0].0 in Keys(m') by {
        if kvs[0].0 !in Keys(m) {
          assert Keys(m') == Keys(m) + [kvs[0].0];
        }
      }
      assert forall x :: x in Keys(m) ==> x in Keys(m');
      forall i | 0 <= i < |kvs| ensures kvs[i].0 in Keys(PutAll(m, kvs)) {
        if i > 0 {
          assert kvs[i] == kvs[1..][i - 1];
        }
      }
    }
  }

  /** In a map with distinct keys, the entry at each position is what the
      lookup of its key returns. */
  lemma {:induction false} LookupAt<V>(m: seq<(string, V)>, i: nat)
    requires DistinctKeys(m) && i < |m|
    ensures Lookup(m, m[i].0) == Some(m[i].1)
  {
    if i > 0 {
      LookupAt(m[1..], i - 1);
    }
  }

  /** Two maps with distinct keys, the same key order and the same lookups
      are equal. */
  lemma Extensional<V>(a: seq<(string, V)>, b: seq<(string, V)>)
    requires DistinctKeys(a) && DistinctKeys(b) && Keys(a) == Keys(b)
    requires forall k :: Lookup(a, k) == Lookup(b, k)
    ensures a == b
  {
    assert |a| == |Keys(a)| == |Keys(b)| == |b|;
    forall i | 0 <= i < |a| ensures a[i] == b[i] {
      assert a[i].0 == Keys(a)[i] == Keys(b)[i] == b[i].0;
      LookupAt(a, i);
      LookupAt(b, i);
    }
  }

  /** Repeating the same writes changes nothing. */
  lemma PutAllTwice<V>(m: seq<(string, V)>, kvs: seq<(string, V)>)
    requires DistinctKeys(m)
    ensures PutAll(PutAll(m, kvs), kvs) == PutAll(m, kvs)
  {
    var once := PutAll(m, kvs);
    PutAllKeys(m, kvs);
    PutAllKeepsKeys(once, kvs);
    forall k ensures Lookup(PutAll(once, kvs), k) == Lookup(once, k) {
      PutAllLookup(once, kvs, k);
      PutAllLookup(m, kvs, k);
    }
    Extensional(PutAll(once, kvs), once);
  }

  /** One more write after a sequence of writes. */
  lemma {:induction false} PutAllSnoc<V>(m: seq<(string, V)>, kvs: seq<(string, V)>, kv: (string, V))
    requires DistinctKeys(m)
    ensures PutAll(m, kvs + [kv]) == Put(PutAll(m, kvs), kv.0, kv.1)
    decreases |kvs|
  {
    if kvs == [] {
      assert kvs + [kv] == [kv];
    } else {
      assert (kvs + [kv])[1..] == kvs[1..] + [kv];
      PutAllSnoc(Put(m, kvs[0].0, kvs[0].1), kvs[1..], kv);
    }
  }
}
