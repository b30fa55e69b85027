/**
 * PHP's ordered arrays, restricted to string keys: a sequence of (key, value)
 * entries in insertion order. PHP never stores a key twice; UniqueKeys states
 * that, and every operation below keeps it.
 *
 * The operations are plain functions; what they mean is stated by the lemmas
 * next to them, which callers invoke where they need the facts.
 */
module PhpArrays {
  import opened Wrappers

  type PhpArray<V> = seq<(string, V)>

  /** The keys of `a`, in order (what `array_keys($a)` returns). */
  function Keys<V>(a: PhpArray<V>): (r: seq<string>)
  {
    seq(|a|, i requires 0 <= i < |a| => a[i].0)
  }

  predicate UniqueKeys<V>(a: PhpArray<V>)
  {
    forall i, j :: 0 <= i < j < |a| ==> a[i].0 != a[j].0
  }

  /** Position of the first entry with key `k`, or |a| when there is none. */
  function IndexOf<V>(a: PhpArray<V>, k: string): (i: nat)
    ensures i <= |a|
    ensures i < |a| ==> a[i].0 == k
    ensures forall j :: 0 <= j < i ==> a[j].0 != k
  {
    if a == [] then 0
    else if a[0].0 == k then 0
    else 1 + IndexOf(a[1..], k)
  }

  lemma IndexOfFound<V>(a: PhpArray<V>, k: string)
    ensures IndexOf(a, k) < |a| <==> k in Keys(a)
  {
    var i := IndexOf(a, k);
    if i < |a| {
      assert Keys(a)[i] == k;
    }
  }

  /** `$a[$k]`: the value stored under `k`, None when the key is absent. */
  function Get<V>(a: PhpArray<V>, k: string): (r: Option<V>)
  {
    var i := IndexOf(a, k);
    if i < |a| then Some(a[i].1) else None
  }

  lemma GetFound<V>(a: PhpArray<V>, k: string)
    ensures Get(a, k).Some? <==> k in Keys(a)
  {
    IndexOfFound(a, k);
  }

  /** Two arrays whose keys agree on the first |a| positions find every key of `a` at the same place. */
  lemma IndexOfPrefix<V, W>(a: PhpArray<V>, b: PhpArray<W>, k: string)
    requires |a| <= |b|
    requires forall j :: 0 <= j < |a| ==> b[j].0 == a[j].0
    ensures IndexOf(a, k) < |a| ==> IndexOf(b, k) == IndexOf(a, k)
    ensures IndexOf(a, k) == |a| ==> IndexOf(b, k) >= |a|
  {
  }

  /**
   * `$a[$k] = $v`: an existing key keeps its position and takes the new
   * value; a new key is appended at the end.
   */
  function Put<V>(a: PhpArray<V>, k: string, v: V): (r: PhpArray<V>)
  {
    var i := IndexOf(a, k);
    if i < |a| then a[i := (k, v)] else a + [(k, v)]
  }

  /** What `$a[$k] = $v` does: `k` now holds `v`, every other key holds what it held, and keys stay unique and in place. */
  lemma PutFacts<V>(a: PhpArray<V>, k: string, v: V)
    ensures Keys(Put(a, k, v)) == if k in Keys(a) then Keys(a) else Keys(a) + [k]
    ensures Get(Put(a, k, v), k) == Some(v)
    ensures forall k' :: k' != k ==> Get(Put(a, k, v), k') == Get(a, k')
    ensures UniqueKeys(a) ==> UniqueKeys(Put(a, k, v))
  {
    var r := Put(a, k, v);
    IndexOfFound(a, k);
    IndexOfPrefix(a, r, k);
    if k !in Keys(a) {
      assert r[|a|].0 == k;
    }
    forall k' | k' != k
      ensures Get(r, k') == Get(a, k')
    {
      IndexOfPrefix(a, r, k');
    }
    if UniqueKeys(a) && k !in Keys(a) {
      forall j | 0 <= j < |a|
        ensures r[j].0 != k
      {
        assert Keys(a)[j] == a[j].0;
      }
    }
  }

  /** An assignment to a key the array does not hold appends it. */
  lemma PutAppends<V>(a: PhpArray<V>, k: string, v: V)
    requires forall i :: 0 <= i < |a| ==> a[i].0 != k
    ensures Put(a, k, v) == a + [(k, v)]
  {
  }

  /**
   * The array with every entry whose key is in `s` unset (`unset($a[$k])`
   * for each such key); the other entries keep their values and their order.
   */
  function Without<V>(a: PhpArray<V>, s: set<string>): (r: PhpArray<V>)
  {
    if a == [] then []
    else if a[0].0 in s then Without(a[1..], s)
    else [a[0]] + Without(a[1..], s)
  }

  lemma {:induction false} WithoutKeys<V>(a: PhpArray<V>, s: set<string>)
    ensures forall k :: k in Keys(Without(a, s)) <==> k in Keys(a) && k !in s
  {
    if a != [] {
      WithoutKeys(a[1..], s);
      assert Keys(a) == [a[0].0] + Keys(a[1..]);
      if a[0].0 !in s {
        assert Keys([a[0]] + Without(a[1..], s)) == [a[0].0] + Keys(Without(a[1..], s));
      }
    }
  }

  /** The keys of `ks` that are not in `s`, in their order in `ks`. */
  function KeysOutside(ks: seq<string>, s: set<string>): (r: seq<string>)
    ensures |r| <= |ks|
    ensures forall k :: k in r <==> k in ks && k !in s
  {
    if ks == [] then []
    else if ks[0] in s then KeysOutside(ks[1..], s)
    else [ks[0]] + KeysOutside(ks[1..], s)
  }

  /** Unsetting keeps the surviving keys in their old order. */
  lemma {:induction false} WithoutKeysInOrder<V>(a: PhpArray<V>, s: set<string>)
    ensures Keys(Without(a, s)) == KeysOutside(Keys(a), s)
  {
    if a != [] {
      WithoutKeysInOrder(a[1..], s);
      assert Keys(a) == [a[0].0] + Keys(a[1..]);
      assert Keys(a)[1..] == Keys(a[1..]);
      if a[0].0 !in s {
        assert Keys([a[0]] + Without(a[1..], s)) == [a[0].0] + Keys(Without(a[1..], s));
      }
    }
  }

  lemma {:induction false} WithoutGet<V>(a: PhpArray<V>, s: set<string>, k: string)
    ensures Get(Without(a, s), k) == if k in s then None else Get(a, k)
  {
    if a != [] {
      WithoutGet(a[1..], s, k);
      var rest := Without(a[1..], s);
      if a[0].0 !in s {
        assert ([a[0]] + rest)[1..] == rest;
      }
    }
  }

  lemma {:induction false} WithoutUnique<V>(a: PhpArray<V>, s: set<string>)
    requires UniqueKeys(a)
    ensures UniqueKeys(Without(a, s))
  {
    if a != [] {
      WithoutUnique(a[1..], s);
      WithoutKeys(a[1..], s);
      var rest := Without(a[1..], s);
      if a[0].0 !in s {
        var r := [a[0]] + rest;
        forall j | 1 <= j < |r| ensures r[j].0 != a[0].0 {
          var x := r[j].0;
          assert Keys(rest)[j - 1] == x;
          assert x in Keys(a[1..]);
          var m :| 0 <= m < |a| - 1 && Keys(a[1..])[m] == x;
          assert a[m + 1].0 == x;
        }
      }
    }
  }

  /** Unsetting keeps exactly the keys outside `s`, in their old order and each with its old value, and never makes a key repeat. */
  lemma WithoutFacts<V>(a: PhpArray<V>, s: set<string>)
    ensures Keys(Without(a, s)) == KeysOutside(Keys(a), s)
    ensures forall k :: k in Keys(Without(a, s)) <==> k in Keys(a) && k !in s
    ensures forall k :: Get(Without(a, s), k) == if k in s then None else Get(a, k)
    ensures UniqueKeys(a) ==> UniqueKeys(Without(a, s))
  {
    WithoutKeysInOrder(a, s);
    WithoutKeys(a, s);
    forall k ensures Get(Without(a, s), k) == if k in s then None else Get(a, k) {
      WithoutGet(a, s, k);
    }
    if UniqueKeys(a) {
      WithoutUnique(a, s);
    }
  }

  /** `unset($a[$k])`. */
  function Remove<V>(a: PhpArray<V>, k: string): (r: PhpArray<V>)
  {
    Without(a, {k})
  }

  lemma {:induction false} WithoutNothing<V>(a: PhpArray<V>)
    ensures Without(a, {}) == a
  {
    if a != [] {
      WithoutNothing(a[1..]);
    }
  }

  /** Unsetting the keys of `s` and then those of `t` unsets the keys of both. */
  lemma {:induction false} WithoutWithout<V>(a: PhpArray<V>, s: set<string>, t: set<string>)
    ensures Without(Without(a, s), t) == Without(a, s + t)
  {
    if a != [] {
      WithoutWithout(a[1..], s, t);
      if a[0].0 !in s {
        assert ([a[0]] + Without(a[1..], s))[1..] == Without(a[1..], s);
      }
    }
  }

  /**
   * `foreach ($e as $k => $v) { $a[$k] = $v; }`: every entry of `e` assigned
   * into `a` in turn.
   */
  function PutAll<V>(a: PhpArray<V>, e: seq<(string, V)>): (r: PhpArray<V>)
    decreases |e|
  {
    if e == [] then a
    else
      var n := |e| - 1;
      Put(PutAll(a, e[..n]), e[n].0, e[n].1)
  }

  /** The value the last entry of `e` with key `k` carries: the one that survives a run of assignments. */
  function LastValue<V>(e: seq<(string, V)>, k: string): (r: Option<V>)
    decreases |e|
  {
    if e == [] then None
    else
      var n := |e| - 1;
      if e[n].0 == k then Some(e[n].1) else LastValue(e[..n], k)
  }

  /**
   * The keys of `ks` that are not in `seen`, each once, in the order of
   * their first occurrence in `ks`.
   */
  function NewKeys(seen: seq<string>, ks: seq<string>): (r: seq<string>)
    ensures forall k :: k in r <==> k in ks && k !in seen
    ensures forall i, j :: 0 <= i < j < |r| ==> r[i] != r[j]
    decreases |ks|
  {
    if ks == [] then []
    else
      var n := |ks| - 1;
      var p := NewKeys(seen, ks[..n]);
      assert ks == ks[..n] + [ks[n]];
      if ks[n] in seen || ks[n] in p then p else p + [ks[n]]
  }

  lemma KeysSnoc<V>(e: seq<(string, V)>)
    requires e != []
    ensures Keys(e) == Keys(e[..|e| - 1]) + [e[|e| - 1].0]
  {
  }

  /** A run of assignments keeps the old keys in place and appends the new ones in first-seen order. */
  lemma {:induction false} PutAllKeys<V>(a: PhpArray<V>, e: seq<(string, V)>)
    ensures Keys(PutAll(a, e)) == Keys(a) + NewKeys(Keys(a), Keys(e))
    decreases |e|
  {
    if e != [] {
      var n := |e| - 1;
      PutAllKeys(a, e[..n]);
      PutFacts(PutAll(a, e[..n]), e[n].0, e[n].1);
      KeysSnoc(e);
    }
  }

  /** After a run of assignments, a key holds its last assigned value, or its old one when `e` never assigns it. */
  lemma {:induction false} PutAllGet<V>(a: PhpArray<V>, e: seq<(string, V)>, k: string)
    ensures Get(PutAll(a, e), k) == if k in Keys(e) then LastValue(e, k) else Get(a, k)
    decreases |e|
  {
    if e != [] {
      var n := |e| - 1;
      PutAllGet(a, e[..n], k);
      PutFacts(PutAll(a, e[..n]), e[n].0, e[n].1);
      KeysSnoc(e);
    }
  }

  /** A run of assignments never stores a key twice. */
  lemma {:induction false} PutAllUnique<V>(a: PhpArray<V>, e: seq<(string, V)>)
    requires UniqueKeys(a)
    ensures UniqueKeys(PutAll(a, e))
    decreases |e|
  {
    if e != [] {
      var n := |e| - 1;
      PutAllUnique(a, e[..n]);
      PutFacts(PutAll(a, e[..n]), e[n].0, e[n].1);
    }
  }
}
