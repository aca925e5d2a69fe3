/**
 * Insertion-ordered dictionaries: JavaScript `Map`s and plain objects keep
 * their keys in the order they were first set, and setting an existing key
 * replaces its value where it stands.
 */
module Assoc {
  import opened Wrappers

  type Entries<V> = seq<(string, V)>

  function Keys<V>(m: Entries<V>): (ks: seq<string>)
    ensures |ks| == |m|
    ensures forall i :: 0 <= i < |m| ==> ks[i] == m[i].0
  {
    if |m| == 0 then [] else [m[0].0] + Keys(m[1..])
  }

  predicate HasKey<V>(m: Entries<V>, k: string)
  {
    k in Keys(m)
  }

  predicate Distinct(ks: seq<string>)
  {
    forall i, j :: 0 <= i < j < |ks| ==> ks[i] != ks[j]
  }

  predicate DistinctKeys<V>(m: Entries<V>)
  {
    Distinct(Keys(m))
  }

  /** The value stored under `k` (`map.get(k)`), the first entry that has it. */
  function Get<V>(m: Entries<V>, k: string): (r: Option<V>)
    ensures r.None? <==> !HasKey(m, k)
  {
    if |m| == 0 then None
    else if m[0].0 == k then Some(m[0].1)
    else
      assert Keys(m) == [m[0].0] + Keys(m[1..]);
      Get(m[1..], k)
  }

  /** `map.set(k, v)` / `obj[k] = v`. */
  function Put<V>(m: Entries<V>, k: string, v: V): (r: Entries<V>)
    ensures forall k' :: Get(r, k') == if k' == k then Some(v) else Get(m, k')
    ensures Keys(r) == if HasKey(m, k) then Keys(m) else Keys(m) + [k]
  {
    if |m| == 0 then [(k, v)]
    else if m[0].0 == k then
      var r := [(k, v)] + m[1..];
      assert r[1..] == m[1..];
      r
    else
      var rest := Put(m[1..], k, v);
      var r := [m[0]] + rest;
      assert r[1..] == rest;
      assert Keys(m) == [m[0].0] + Keys(m[1..]);
      assert Keys(r) == [m[0].0] + Keys(rest);
      r
  }

  /** Two entry lists with the same key at every position have the same keys. */
  lemma SameKeys<V, W>(a: Entries<V>, b: Entries<W>)
    requires |a| == |b| && forall j :: 0 <= j < |a| ==> a[j].0 == b[j].0
    ensures Keys(a) == Keys(b)
  {
  }

  /** Setting a key keeps the keys distinct. */
  lemma PutDistinct<V>(m: Entries<V>, k: string, v: V)
    requires DistinctKeys(m)
    ensures DistinctKeys(Put(m, k, v))
  {
    var ks := Keys(m);
    if !HasKey(m, k) {
      assert Keys(Put(m, k, v)) == ks + [k];
      assert forall i :: 0 <= i < |ks| ==> ks[i] != k;
    }
  }

  /** The entries whose key is not in `drop`, in their order. */
  function Without<V>(m: Entries<V>, drop: seq<string>): (r: Entries<V>)
    ensures forall k :: Get(r, k) == if k in drop then None else Get(m, k)
    ensures |r| <= |m|
  {
    if |m| == 0 then []
    else if m[0].0 in drop then
      var r := Without(m[1..], drop);
      assert forall k :: k != m[0].0 ==> Get(m, k) == Get(m[1..], k);
      r
    else
      var r := [m[0]] + Without(m[1..], drop);
      assert r[1..] == Without(m[1..], drop);
      r
  }

  /** `Get` on a concatenation looks in the first part, then in the second. */
  lemma {:induction false} GetConcat<V>(a: Entries<V>, b: Entries<V>, key: string)
    ensures Get(a + b, key) == if HasKey(a, key) then Get(a, key) else Get(b, key)
  {
    if |a| > 0 {
      assert (a + b)[1..] == a[1..] + b;
      assert Keys(a) == [a[0].0] + Keys(a[1..]);
      GetConcat(a[1..], b, key);
    } else {
      assert a + b == b;
    }
  }

  /** A key of a concatenation is a key of one of its parts. */
  lemma {:induction false} HasKeyConcat<V>(a: Entries<V>, b: Entries<V>, key: string)
    ensures HasKey(a + b, key) <==> HasKey(a, key) || HasKey(b, key)
  {
    assert Keys(a + b) == Keys(a) + Keys(b);
  }

  /** The keys of entries with one more entry at the end. */
  lemma KeysSnoc<V>(m: Entries<V>, last: (string, V))
    ensures Keys(m + [last]) == Keys(m) + [last.0]
  {
    var ks := Keys(m + [last]);
    assert |ks| == |Keys(m) + [last.0]|;
    forall j | 0 <= j < |ks|
      ensures ks[j] == (Keys(m) + [last.0])[j]
    {
      assert (m + [last])[j].0 == (Keys(m) + [last.0])[j];
    }
  }

  /** The keys of non-empty entries: those of all but the last, then the last one's. */
  lemma KeysInit<V>(m: Entries<V>)
    requires |m| > 0
    ensures Keys(m) == Keys(m[..|m| - 1]) + [m[|m| - 1].0]
  {
    var init, last := m[..|m| - 1], m[|m| - 1];
    KeysSnoc(init, last);
    assert init + [last] == m;
  }

  /** The first `n` entries of distinct-keyed entries: the first `n - 1`, then the `n`-th, whose key is new. */
  lemma PrefixLast<V>(m: Entries<V>, n: nat, k: string)
    requires DistinctKeys(m) && 0 < n <= |m|
    ensures HasKey(m[..n], k) <==> HasKey(m[..n - 1], k) || k == m[n - 1].0
    ensures k == m[n - 1].0 ==> !HasKey(m[..n - 1], k)
    ensures Get(m[..n], k) == if k == m[n - 1].0 then Some(m[n - 1].1) else Get(m[..n - 1], k)
  {
    var init, last := m[..n - 1], m[n - 1];
    assert m[..n] == init + [last];
    HasKeyConcat(init, [last], k);
    GetConcat(init, [last], k);
    assert Keys([last]) == [last.0];
    if k == last.0 {
      var ks := Keys(m);
      assert ks[n - 1] == k;
      forall j | 0 <= j < |init|
        ensures Keys(init)[j] != k
      {
        assert Keys(init)[j] == ks[j];
      }
    }
  }

  /** Setting a key that is absent appends it. */
  lemma {:induction false} PutNew<V>(m: Entries<V>, k: string, v: V)
    requires !HasKey(m, k)
    ensures Put(m, k, v) == m + [(k, v)]
  {
    if |m| > 0 {
      var head, rest := m[0], m[1..];
      assert Keys(m) == [head.0] + Keys(rest);
      assert head.0 != k && !HasKey(rest, k);
      PutNew(rest, k, v);
      assert Put(m, k, v) == [head] + Put(rest, k, v);
      assert m + [(k, v)] == [head] + (rest + [(k, v)]);
    }
  }

  /** `Object.fromEntries`: every entry set in order, a later duplicate replacing the earlier value where it stands. */
  function FromEntries<V>(es: Entries<V>): Entries<V>
  {
    if |es| == 0 then [] else Put(FromEntries(es[..|es| - 1]), es[|es| - 1].0, es[|es| - 1].1)
  }

  /** Entries with distinct keys come back from `Object.fromEntries` as they went in. */
  lemma {:induction false} FromEntriesDistinct<V>(es: Entries<V>)
    requires DistinctKeys(es)
    ensures FromEntries(es) == es
  {
    if |es| > 0 {
      var init, last := es[..|es| - 1], es[|es| - 1];
      KeysInit(es);
      DistinctSnoc(Keys(init), last.0);
      FromEntriesDistinct(init);
      PutNew(init, last.0, last.1);
      InitLast(es);
    }
  }

  /** A non-empty sequence is its prefix followed by its last element. */
  lemma InitLast<T>(s: seq<T>)
    requires |s| > 0
    ensures s[..|s| - 1] + [s[|s| - 1]] == s
  {
  }

  /** Distinct keys with one more at the end: the rest are distinct and do not hold it. */
  lemma DistinctSnoc(ks: seq<string>, k: string)
    requires Distinct(ks + [k])
    ensures Distinct(ks) && k !in ks
  {
    var all := ks + [k];
    forall i, j | 0 <= i < j < |ks|
      ensures ks[i] != ks[j]
    {
      assert all[i] == ks[i] && all[j] == ks[j];
    }
    forall i | 0 <= i < |ks|
      ensures ks[i] != k
    {
      assert all[i] == ks[i] && all[|ks|] == k;
    }
  }

  /** Setting a key to the value it already holds changes nothing. */
  lemma {:induction false} PutSame<V>(m: Entries<V>, k: string)
    requires HasKey(m, k)
    ensures Put(m, k, Get(m, k).value) == m
  {
    if m[0].0 != k {
      assert Keys(m) == [m[0].0] + Keys(m[1..]);
      PutSame(m[1..], k);
    }
  }

  /** Every value replaced by its image under `f`, keys and order kept (a loop updating each value in place). */
  function MapValues<V>(m: Entries<V>, f: V -> V): (r: Entries<V>)
    ensures |r| == |m|
    ensures forall j :: 0 <= j < |m| ==> r[j] == (m[j].0, f(m[j].1))
    ensures Keys(r) == Keys(m)
    ensures forall k :: Get(r, k) == if HasKey(m, k) then Some(f(Get(m, k).value)) else None
  {
    if |m| == 0 then []
    else
      var rest := MapValues(m[1..], f);
      var r := [(m[0].0, f(m[0].1))] + rest;
      assert r[1..] == rest;
      assert Keys(m) == [m[0].0] + Keys(m[1..]);
      assert Keys(r) == [m[0].0] + Keys(rest);
      r
  }

  /** Setting a key twice leaves only the second value. */
  lemma {:induction false} PutOver<V>(m: Entries<V>, k: string, v: V, w: V)
    ensures Put(Put(m, k, v), k, w) == Put(m, k, w)
  {
    if |m| > 0 && m[0].0 != k {
      PutOver(m[1..], k, v, w);
      var rest := Put(m[1..], k, v);
      assert Put(m, k, v) == [m[0]] + rest;
      assert ([m[0]] + rest)[1..] == rest;
    }
  }

  /** Every value replaced by its image under `f`, which also sees the key; keys and order kept. */
  function MapWithKeys<V>(m: Entries<V>, f: (string, V) -> V): (r: Entries<V>)
    ensures |r| == |m|
    ensures forall j :: 0 <= j < |m| ==> r[j] == (m[j].0, f(m[j].0, m[j].1))
    ensures Keys(r) == Keys(m)
    ensures forall k :: Get(r, k) == if HasKey(m, k) then Some(f(k, Get(m, k).value)) else None
  {
    if |m| == 0 then []
    else
      var rest := MapWithKeys(m[1..], f);
      var r := [(m[0].0, f(m[0].0, m[0].1))] + rest;
      assert r[1..] == rest;
      assert Keys(m) == [m[0].0] + Keys(m[1..]);
      assert Keys(r) == [m[0].0] + Keys(rest);
      r
  }

  /** Dropping keys keeps the rest distinct. */
  lemma {:induction false} WithoutDistinct<V>(m: Entries<V>, drop: seq<string>)
    requires DistinctKeys(m)
    ensures DistinctKeys(Without(m, drop))
  {
    if |m| > 0 {
      var ks := Keys(m);
      assert Keys(m) == [m[0].0] + Keys(m[1..]);
      assert DistinctKeys(m[1..]) by {
        var tail := Keys(m[1..]);
        assert forall j :: 0 <= j < |tail| ==> tail[j] == ks[j + 1];
      }
      WithoutDistinct(m[1..], drop);
      if m[0].0 !in drop {
        var rest := Without(m[1..], drop);
        var r := [m[0]] + rest;
        assert r == Without(m, drop);
        assert !HasKey(rest, m[0].0) by {
          assert !HasKey(m[1..], m[0].0) by {
            assert forall j :: 0 <= j < |Keys(m[1..])| ==> Keys(m[1..])[j] == ks[j + 1];
          }
          assert Get(rest, m[0].0).None?;
        }
        assert Keys(r) == [m[0].0] + Keys(rest) by {
          assert r[1..] == rest;
        }
      }
    }
  }

  /** In entries with distinct keys, each key finds its own entry. */
  lemma {:induction false} GetDistinctAt<V>(m: Entries<V>, j: nat)
    requires DistinctKeys(m) && j < |m|
    ensures Get(m, m[j].0) == Some(m[j].1)
  {
    var ks := Keys(m);
    if j > 0 {
      assert ks[0] != ks[j];
      assert Keys(m[1..]) == ks[1..];
      assert DistinctKeys(m[1..]) by {
        var tail := Keys(m[1..]);
        assert forall a :: 0 <= a < |tail| ==> tail[a] == ks[a + 1];
      }
      assert m[1..][j - 1] == m[j];
      GetDistinctAt(m[1..], j - 1);
    }
  }

  /** One more entry of a list sets one more key. */
  lemma FromEntriesStep<V>(es: Entries<V>, j: nat)
    requires j < |es|
    ensures FromEntries(es[..j + 1]) == Put(FromEntries(es[..j]), es[j].0, es[j].1)
  {
    assert es[..j + 1][..j] == es[..j];
  }

  /** In entries with distinct keys, every key finds its own entry. */
  lemma GetDistinct<V>(m: Entries<V>)
    requires DistinctKeys(m)
    ensures forall j :: 0 <= j < |m| ==> Get(m, m[j].0) == Some(m[j].1)
  {
    forall j | 0 <= j < |m|
      ensures Get(m, m[j].0) == Some(m[j].1)
    {
      GetDistinctAt(m, j);
    }
  }
}
