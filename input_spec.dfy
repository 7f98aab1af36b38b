/**
 * The input signature of an exported model (`_prune_input_spec`) and the
 * tracker section of the descriptor (`_parse_tracker`).
 *
 * Pruning keeps, in their original order, the named inputs that the pruned
 * inference program still declares; the program itself is represented by the
 * set of variable names its global block holds.
 */
module InputSpecPruning {
  import opened Wrappers
  import opened Dicts
  import opened Values

  /** `paddle.static.InputSpec(name=..., shape=..., dtype=...)`; `-1` marks a dynamic dimension. */
  datatype InputSpec = InputSpec(name: string, shape: seq<int>, dtype: string)

  /** The reference filter: the entries whose key is a program variable, in their original order. */
  function Kept<V>(d: Dict<V>, programVars: set<string>): Dict<V> {
    if d == [] then []
    else Kept(d[..|d| - 1], programVars) + (if d[|d| - 1].0 in programVars then [d[|d| - 1]] else [])
  }

  /** A key survives the filter exactly when it was an input and is a program variable. */
  lemma {:induction false} KeptKeys<V>(d: Dict<V>, programVars: set<string>, k: string)
    ensures k in Keys(Kept(d, programVars)) <==> k in Keys(d) && k in programVars
  {
    if d != [] {
      var n := |d| - 1;
      var last: Dict<V> := if d[n].0 in programVars then [d[n]] else [];
      KeptKeys(d[..n], programVars, k);
      KeysAppend(Kept(d[..n], programVars), last);
      assert d == d[..n] + [d[n]];
      KeysAppend(d[..n], [d[n]]);
    }
  }

  /** The filter keeps the names distinct. */
  lemma {:induction false} KeptDistinct<V>(d: Dict<V>, programVars: set<string>)
    requires DistinctKeys(d)
    ensures DistinctKeys(Kept(d, programVars))
  {
    if d != [] {
      var n := |d| - 1;
      assert DistinctKeys(d[..n]);
      KeptDistinct(d[..n], programVars);
      if d[n].0 in programVars {
        KeptKeys(d[..n], programVars, d[n].0);
        assert d[n].0 !in Keys(d[..n]) by {
          forall i | 0 <= i < n ensures Keys(d[..n])[i] != d[n].0 {
            assert Keys(d[..n])[i] == d[i].0;
          }
        }
        DistinctKeysAppend(Kept(d[..n], programVars), d[n].0, d[n].1);
      }
    }
  }

  /** A kept input carries its original spec; a dropped one is absent. */
  lemma {:induction false} KeptGet<V>(d: Dict<V>, programVars: set<string>, k: string)
    ensures Get(Kept(d, programVars), k) == if k in programVars then Get(d, k) else None
  {
    if d != [] {
      var n := |d| - 1;
      var front := d[..n];
      var last: Dict<V> := if d[n].0 in programVars then [d[n]] else [];
      assert Kept(d, programVars) == Kept(front, programVars) + last;
      assert d == front + [d[n]];
      KeptGet(front, programVars, k);
      KeptKeys(front, programVars, k);
      GetConcat(Kept(front, programVars), last, k);
      GetConcat(front, [d[n]], k);
      if k !in Keys(front) || k !in programVars {
        assert Get(last, k) == if k in programVars then Get([d[n]], k) else None;
      }
    }
  }

  /** Pruning twice against the same program changes nothing. */
  lemma {:induction false} KeptIdempotent<V>(d: Dict<V>, programVars: set<string>)
    ensures Kept(Kept(d, programVars), programVars) == Kept(d, programVars)
  {
    if d != [] {
      var n := |d| - 1;
      var front := Kept(d[..n], programVars);
      KeptIdempotent(d[..n], programVars);
      if d[n].0 in programVars {
        var kept := front + [d[n]];
        assert Kept(d, programVars) == kept;
        assert kept[..|kept| - 1] == front && kept[|kept| - 1] == d[n];
        assert Kept(kept, programVars) == Kept(front, programVars) + [d[n]];
      } else {
        assert Kept(d, programVars) == front + [] == front;
      }
    }
  }

  /** A program that still declares every input keeps the signature whole. */
  lemma {:induction false} KeptAll<V>(d: Dict<V>, programVars: set<string>)
    requires forall i :: 0 <= i < |d| ==> d[i].0 in programVars
    ensures Kept(d, programVars) == d
  {
    if d != [] {
      var n := |d| - 1;
      KeptAll(d[..n], programVars);
      assert d == d[..n] + [d[n]];
    }
  }

  /**
   * `_prune_input_spec`: walks the first signature in order and copies each
   * input the pruned program still declares into the single result signature.
   */
  method PruneInputSpec(inputSpec: seq<Dict<InputSpec>>, programVars: set<string>) returns (pruned: seq<Dict<InputSpec>>)
    requires |inputSpec| >= 1
    requires DistinctKeys(inputSpec[0])
    ensures |pruned| == 1
    ensures pruned[0] == Kept(inputSpec[0], programVars)
  {
    var specs := inputSpec[0];
    pruned := [[]];
    for i := 0 to |specs|
      invariant |pruned| == 1
      invariant pruned[0] == Kept(specs[..i], programVars)
    {
      var name, spec := specs[i].0, specs[i].1;
      assert specs[..i + 1][..i] == specs[..i];
      if name in programVars {
        assert name !in Keys(specs[..i]) by {
          forall j | 0 <= j < i ensures Keys(specs[..i])[j] != name {
            assert Keys(specs[..i])[j] == specs[j].0;
          }
        }
        KeptKeys(specs[..i], programVars, name);
        SetAppends(pruned[0], name, spec);
        pruned := pruned[0 := Set(pruned[0], name, spec)];
      }
    }
    assert specs[..|specs|] == specs;
  }

  /**
   * `_parse_tracker`: copies the tracker section entry by entry with
   * `update({k: v})`; the copy equals the section.
   */
  method ParseTracker(trackerCfg: Dict<Value>) returns (trackerParams: Dict<Value>)
    requires DistinctKeys(trackerCfg)
    ensures trackerParams == trackerCfg
  {
    trackerParams := [];
    for i := 0 to |trackerCfg|
      invariant trackerParams == trackerCfg[..i]
    {
      var k, v := trackerCfg[i].0, trackerCfg[i].1;
      ghost var before := trackerParams;
      trackerParams := Update(trackerParams, [(k, v)]);
      assert trackerParams == before + [(k, v)] by {
        assert k !in Keys(before) by {
          forall j | 0 <= j < i ensures Keys(before)[j] != k {
            assert Keys(before)[j] == trackerCfg[j].0;
          }
        }
        UpdateSingle(before, k, v);
        SetAppends(before, k, v);
      }
      assert trackerCfg[..i + 1] == trackerCfg[..i] + [(k, v)];
    }
    assert trackerCfg[..|trackerCfg|] == trackerCfg;
  }
}
