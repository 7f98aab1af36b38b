/**
 * Python's insertion-ordered `dict`, keyed by strings: a sequence of
 * (key, value) pairs in insertion order. A dict built by Python never holds a
 * key twice (`DistinctKeys`); the operations below keep that invariant.
 */
module Dicts {
  import opened Wrappers

  type Dict<V> = seq<(string, V)>

  /** The keys in iteration order (`list(d.keys())`). */
  function Keys<V>(d: Dict<V>): (ks: seq<string>)
    ensures |ks| == |d|
    ensures forall i {:trigger ks[i]} :: 0 <= i < |d| ==> ks[i] == d[i].0
  {
    if d == [] then [] else [d[0].0] + Keys(d[1..])
  }

  ghost predicate DistinctKeys<V>(d: Dict<V>) {
    forall i, j :: 0 <= i < j < |d| ==> d[i].0 != d[j].0
  }

  /** `d.get(k)`: the value stored under `k`, if any. */
  function Get<V>(d: Dict<V>, k: string): (r: Option<V>)
    ensures r.None? <==> k !in Keys(d)
  {
    if d == [] then None
    else if d[0].0 == k then Some(d[0].1)
    else Get(d[1..], k)
  }

  /** `d[k] = v`: an existing key keeps its position, a new key goes last. */
  function Set<V>(d: Dict<V>, k: string, v: V): Dict<V>
  {
    if d == [] then [(k, v)]
    else if d[0].0 == k then [(k, v)] + d[1..]
    else [d[0]] + Set(d[1..], k, v)
  }

  /** `d[k] = v` keeps the key order when `k` is present and appends `k` otherwise. */
  lemma {:induction false} SetKeys<V>(d: Dict<V>, k: string, v: V)
    ensures Keys(Set(d, k, v)) == if k in Keys(d) then Keys(d) else Keys(d) + [k]
  {
    if d != [] && d[0].0 != k {
      SetKeys(d[1..], k, v);
      assert Keys(d) == [d[0].0] + Keys(d[1..]);
    }
  }

  /** After `d[k] = v`, `k` maps to `v` and every other key to what it mapped to before. */
  lemma {:induction false} GetSet<V>(d: Dict<V>, k: string, v: V, k': string)
    ensures Get(Set(d, k, v), k') == if k' == k then Some(v) else Get(d, k')
  {
    if d != [] && d[0].0 != k {
      GetSet(d[1..], k, v, k');
    }
  }

  /** `d.update(e)`: the entries of `e` are assigned one after another, in order. */
  function Update<V>(d: Dict<V>, e: Dict<V>): Dict<V>
  {
    if e == [] then d
    else Set(Update(d, e[..|e| - 1]), e[|e| - 1].0, e[|e| - 1].1)
  }

  /** A key no entry carries is not among the keys. */
  lemma KeyAbsent<V>(d: Dict<V>, k: string)
    requires forall i :: 0 <= i < |d| ==> d[i].0 != k
    ensures k !in Keys(d)
  {
  }

  /** `d.update({k: v})` is `d[k] = v`. */
  lemma UpdateSingle<V>(d: Dict<V>, k: string, v: V)
    ensures Update(d, [(k, v)]) == Set(d, k, v)
  {
    assert [(k, v)][..0] == [];
  }

  lemma {:induction false} KeysAppend<V>(d: Dict<V>, e: Dict<V>)
    ensures Keys(d + e) == Keys(d) + Keys(e)
  {
  }

  /** The keys of a two-entry dict. */
  lemma KeysOfPair<V>(a: (string, V), b: (string, V))
    ensures Keys([a, b]) == [a.0, b.0]
  {
  }

  /** Appending two entries one after the other appends the pair. */
  lemma AppendPair<V>(d: Dict<V>, a: (string, V), b: (string, V))
    ensures d + [a] + [b] == d + [a, b]
  {
  }

  /** Two new keys written one after the other are appended in that order. */
  lemma SetTwoNew<V>(d: Dict<V>, a: (string, V), b: (string, V))
    requires a.0 !in Keys(d) && b.0 !in Keys(d) && a.0 != b.0
    ensures Set(Set(d, a.0, a.1), b.0, b.1) == d + [a, b]
    ensures Keys(d + [a, b]) == Keys(d) + [a.0, b.0]
  {
    SetAppends(d, a.0, a.1);
    SetAppends(d + [a], b.0, b.1);
    AppendPair(d, a, b);
  }

  /** Writing both keys of a trailing pair again replaces the pair in place. */
  lemma SetTwoExisting<V>(d: Dict<V>, a: (string, V), b: (string, V), a': (string, V), b': (string, V))
    requires a.0 !in Keys(d) && b.0 !in Keys(d) && a.0 != b.0 && a'.0 == a.0 && b'.0 == b.0
    ensures Set(Set(d + [a, b], a'.0, a'.1), b'.0, b'.1) == d + [a', b']
  {
    assert d + [a, b] == d + [a] + [b];
    SetReplaces(d, a.0, a.1, [b], a'.1);
    SetAppends(d, a'.0, a'.1);
    assert b.0 !in Keys(d + [a']);
    assert d + [a'] + [b] == d + [a'] + [(b.0, b.1)] + [];
    SetReplaces(d + [a'], b.0, b.1, [], b'.1);
    AppendPair(d, a', b');
  }

  /** Distinct keys are exactly the keys of the sequence of keys being duplicate-free. */
  lemma DistinctKeysAppend<V>(d: Dict<V>, k: string, v: V)
    requires DistinctKeys(d) && k !in Keys(d)
    ensures DistinctKeys(d + [(k, v)])
  {
    forall i | 0 <= i < |d| ensures d[i].0 != k {
      assert Keys(d)[i] == d[i].0;
    }
  }

  /** Assigning a key the dict does not yet hold appends one entry at the end. */
  lemma {:induction false} SetAppends<V>(d: Dict<V>, k: string, v: V)
    requires k !in Keys(d)
    ensures Set(d, k, v) == d + [(k, v)]
    ensures Keys(d + [(k, v)]) == Keys(d) + [k]
  {
    KeysAppend(d, [(k, v)]);
    if d != [] {
      assert Keys(d) == [d[0].0] + Keys(d[1..]);
      SetAppends(d[1..], k, v);
    }
  }

  /** Assigning a key the dict already holds replaces its value where it stands. */
  lemma {:induction false} SetReplaces<V>(a: Dict<V>, k: string, old0: V, b: Dict<V>, v: V)
    requires k !in Keys(a)
    ensures Set(a + [(k, old0)] + b, k, v) == a + [(k, v)] + b
  {
    var d := a + [(k, old0)] + b;
    if a == [] {
      assert d == [(k, old0)] + b;
    } else {
      assert a[0].0 != k && k !in Keys(a[1..]) by {
        assert Keys(a) == [a[0].0] + Keys(a[1..]);
      }
      assert d == [a[0]] + (a[1..] + [(k, old0)] + b);
      SetReplaces(a[1..], k, old0, b, v);
    }
  }

  /** `Get` returns the value at the first position that holds the key. */
  lemma {:induction false} GetFirst<V>(d: Dict<V>, k: string, j: nat)
    requires j < |d| && d[j].0 == k && k !in Keys(d[..j])
    ensures Get(d, k) == Some(d[j].1)
  {
    if j > 0 {
      assert Keys(d[..j]) == [d[0].0] + Keys(d[1..][..j - 1]) by {
        assert d[..j][1..] == d[1..][..j - 1];
      }
      GetFirst(d[1..], k, j - 1);
    }
  }

  /** Looking a key up in `a + b` finds it in `a` first. */
  lemma {:induction false} GetConcat<V>(a: Dict<V>, b: Dict<V>, k: string)
    ensures Get(a + b, k) == if k in Keys(a) then Get(a, k) else Get(b, k)
  {
    if a == [] {
      assert a + b == b;
    } else {
      assert Keys(a) == [a[0].0] + Keys(a[1..]);
      assert (a + b)[0] == a[0];
      if a[0].0 != k {
        assert (a + b)[1..] == a[1..] + b;
        GetConcat(a[1..], b, k);
      }
    }
  }

  /** A key found in the middle part and absent before it is looked up there. */
  lemma GetMiddle<V>(a: Dict<V>, b: Dict<V>, c: Dict<V>, k: string)
    requires k !in Keys(a) && k in Keys(b)
    ensures Get(a + b + c, k) == Get(b, k)
  {
    KeysAppend(a, b);
    GetConcat(a + b, c, k);
    GetConcat(a, b, k);
  }

  /**
   * Updating with entries whose keys are new and distinct appends them in
   * order: `{**d, **e}` is `d` followed by `e`.
   */
  lemma {:induction false} UpdateAppends<V>(d: Dict<V>, e: Dict<V>)
    requires DistinctKeys(e)
    requires forall i :: 0 <= i < |e| ==> e[i].0 !in Keys(d)
    ensures Update(d, e) == d + e
  {
    if e != [] {
      var n := |e| - 1;
      UpdateAppends(d, e[..n]);
      KeysAppend(d, e[..n]);
      assert e[n].0 !in Keys(e[..n]) by {
        forall i | 0 <= i < n ensures Keys(e[..n])[i] != e[n].0 {
          assert Keys(e[..n])[i] == e[i].0;
        }
      }
      SetAppends(d + e[..n], e[n].0, e[n].1);
      assert d + e[..n] + [e[n]] == d + e;
    }
  }

  /** `d.update(e)` leaves the value of a key `e` does not hold as it was. */
  lemma {:induction false} UpdateKeepsOthers<V>(d: Dict<V>, e: Dict<V>, k: string)
    requires k !in Keys(e)
    ensures Get(Update(d, e), k) == Get(d, k)
  {
    if e != [] {
      var n := |e| - 1;
      KeysAppend(e[..n], [e[n]]);
      assert e[..n] + [e[n]] == e;
      UpdateKeepsOthers(d, e[..n], k);
      GetSet(Update(d, e[..n]), e[n].0, e[n].1, k);
    }
  }
}
