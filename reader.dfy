/**
 * The preprocess pipeline written into the inference descriptor, built from the
 * reader section of the configuration (`_parse_reader`): the first sample
 * transform is dropped, Resize parameters are rewritten in place, NormalizeImage
 * is dropped when normalisation is fused, and every PadBatch batch transform
 * becomes a PadStride.
 */
module ReaderParsing {
  import opened Wrappers
  import opened Dicts
  import opened Values

  /** The parameters of one operator. */
  type Params = Dict<Value>
  /** One (operator name, parameters) pair of a transform entry. */
  type Op = (string, Params)
  /** One entry of a transform list: a dict from operator name to its parameters. */
  type Transform = Dict<Params>

  /** OpenCV's INTER_LINEAR, the interpolation a Resize gets when it names none. */
  const InterLinear := 1

  /** The reader section (`TestReader`); the Resize parameters in it are rewritten in place. */
  class ReaderConfig {
    var sampleTransforms: seq<Transform>
    /** `batch_transforms`; None when the key is absent or null. */
    var batchTransforms: Option<seq<Transform>>
    /** `fuse_normalize`; None when the key is absent. */
    var fuseNormalize: Option<Value>

    constructor (sampleTransforms: seq<Transform>, batchTransforms: Option<seq<Transform>>, fuseNormalize: Option<Value>)
      ensures this.sampleTransforms == sampleTransforms
      ensures this.batchTransforms == batchTransforms
      ensures this.fuseNormalize == fuseNormalize
    {
      this.sampleTransforms := sampleTransforms;
      this.batchTransforms := batchTransforms;
      this.fuseNormalize := fuseNormalize;
    }
  }

  /** `reader_cfg.get('fuse_normalize', False)`, as a condition. */
  predicate FuseFlag(fuseNormalize: Option<Value>) {
    Truthy(fuseNormalize.GetOr(Bool(false)))
  }

  /**
   * The Resize parameters after the rewrite: `target_size` becomes the spatial
   * part of the image shape unless its height is the wildcard -1, and `interp`
   * defaults to INTER_LINEAR. Existing keys keep their places; new ones go last.
   */
  function ResizeParams(p: Params, imageShape: seq<int>): Params
    requires |imageShape| >= 2
  {
    var sized := if imageShape[1] != -1 then Set(p, "target_size", IntList(imageShape[1..])) else p;
    Set(sized, "interp", Get(sized, "interp").GetOr(Int(InterLinear)))
  }

  /**
   * The rewrite keeps every parameter key in its place and adds only
   * `target_size` and `interp`, at the end.
   */
  lemma ResizeKeys(p: Params, imageShape: seq<int>)
    requires |imageShape| >= 2
    ensures Keys(p) <= Keys(ResizeParams(p, imageShape))
    ensures forall k :: k in Keys(ResizeParams(p, imageShape)) ==> k in Keys(p) || k == "target_size" || k == "interp"
  {
    var sized := if imageShape[1] != -1 then Set(p, "target_size", IntList(imageShape[1..])) else p;
    if imageShape[1] != -1 {
      SetKeys(p, "target_size", IntList(imageShape[1..]));
    }
    SetKeys(sized, "interp", Get(sized, "interp").GetOr(Int(InterLinear)));
  }

  /** An operator's parameters as they stand after the in-place rewrite. */
  function Rewritten(op: Op, imageShape: seq<int>): Params
    requires |imageShape| >= 2
  {
    if op.0 == "Resize" then ResizeParams(op.1, imageShape) else op.1
  }

  /** A transform entry after the rewrite: same operators, Resize parameters rewritten. */
  function RewriteOps(t: Transform, imageShape: seq<int>): (r: Transform)
    requires |imageShape| >= 2
    ensures Keys(r) == Keys(t)
  {
    seq(|t|, k requires 0 <= k < |t| => (t[k].0, Rewritten(t[k], imageShape)))
  }

  /** `sample_transforms[1:]`. */
  function SampleRest(sts: seq<Transform>): seq<Transform> {
    if sts == [] then [] else sts[1..]
  }

  /** Every transform entry of a list rewritten. */
  function RewriteAll(ts: seq<Transform>, imageShape: seq<int>): (r: seq<Transform>)
    requires |imageShape| >= 2
    ensures |r| == |ts|
  {
    seq(|ts|, i requires 0 <= i < |ts| => RewriteOps(ts[i], imageShape))
  }

  /** The first sample transform, which the parse skips and leaves as it is. */
  function SampleHead(sts: seq<Transform>): seq<Transform> {
    if sts == [] then [] else [sts[0]]
  }

  /** The sample transforms after parsing: all but the first entry rewritten. */
  function RewriteSamples(sts: seq<Transform>, imageShape: seq<int>): (r: seq<Transform>)
    requires |imageShape| >= 2
    ensures |r| == |sts|
  {
    SampleHead(sts) + RewriteAll(SampleRest(sts), imageShape)
  }

  /** The operators of a list of transform entries, in iteration order. */
  function Ops(ts: seq<Transform>): seq<Op> {
    if ts == [] then [] else Ops(ts[..|ts| - 1]) + ts[|ts| - 1]
  }

  /** `{'type': key, **params}`. */
  function Render(key: string, p: Params): Params {
    Update([("type", Str(key))], p)
  }

  /** Whether an operator is left out of the pipeline. */
  predicate Omitted(key: string, fuse: bool) {
    fuse && key == "NormalizeImage"
  }

  /** The pipeline entries produced by a sequence of sample operators. */
  function Entries(ops: seq<Op>, fuse: bool, imageShape: seq<int>): seq<Params>
    requires |imageShape| >= 2
  {
    if ops == [] then []
    else
      var op := ops[|ops| - 1];
      Entries(ops[..|ops| - 1], fuse, imageShape)
        + (if Omitted(op.0, fuse) then [] else [Render(op.0, Rewritten(op, imageShape))])
  }

  /** The deploy-time stand-in for PadBatch. */
  function PadStride(stride: Value): Params {
    [("type", Str("PadStride")), ("stride", stride)]
  }

  /** A PadBatch entry carries `pad_to_stride` (the source reads it unconditionally). */
  predicate HasStride(bt: Transform) {
    Get(bt, "PadBatch").Some? ==> "pad_to_stride" in Keys(Get(bt, "PadBatch").value)
  }

  predicate AllHaveStride(bts: seq<Transform>) {
    forall i :: 0 <= i < |bts| ==> HasStride(bts[i])
  }

  /** What one batch-transform entry contributes: one PadStride if it has a PadBatch key. */
  function PadStrideOf(bt: Transform): seq<Params>
    requires HasStride(bt)
  {
    match Get(bt, "PadBatch")
    case None => []
    case Some(p) => [PadStride(Get(p, "pad_to_stride").value)]
  }

  function PadStrides(bts: seq<Transform>): seq<Params>
    requires AllHaveStride(bts)
  {
    if bts == [] then [] else PadStrides(bts[..|bts| - 1]) + PadStrideOf(bts[|bts| - 1])
  }

  predicate BatchWellFormed(bts: Option<seq<Transform>>) {
    bts.Some? ==> AllHaveStride(bts.value)
  }

  function BatchEntries(bts: Option<seq<Transform>>): seq<Params>
    requires BatchWellFormed(bts)
  {
    match bts
    case None => []
    case Some(b) => PadStrides(b)
  }

  /** The whole `Preprocess` list: sample entries first, then the PadStride entries. */
  function Preprocess(sts: seq<Transform>, bts: Option<seq<Transform>>, fuse: bool, imageShape: seq<int>): seq<Params>
    requires |imageShape| >= 2 && BatchWellFormed(bts)
  {
    Entries(Ops(SampleRest(sts)), fuse, imageShape) + BatchEntries(bts)
  }

  /** `[str(cat) for cat in catid2name.values()]`, category names taken in mapping order. */
  function LabelList(catid2name: seq<(int, string)>): (labels: seq<string>)
    ensures |labels| == |catid2name|
    ensures forall i :: 0 <= i < |labels| ==> labels[i] == catid2name[i].1
  {
    seq(|catid2name|, i requires 0 <= i < |catid2name| => catid2name[i].1)
  }

  /** Entries of concatenated operator sequences concatenate. */
  lemma {:induction false} EntriesAppend(a: seq<Op>, b: seq<Op>, fuse: bool, imageShape: seq<int>)
    requires |imageShape| >= 2
    ensures Entries(a + b, fuse, imageShape) == Entries(a, fuse, imageShape) + Entries(b, fuse, imageShape)
  {
    if b == [] {
      assert a + b == a;
    } else {
      var n := |b| - 1;
      assert (a + b)[..|a + b| - 1] == a + b[..n];
      assert (a + b)[|a + b| - 1] == b[n];
      EntriesAppend(a, b[..n], fuse, imageShape);
    }
  }

  /** A transform entry whose first `j` operators have been rewritten. */
  function PartlyRewritten(t: Transform, j: nat, imageShape: seq<int>): Transform
    requires j <= |t| && |imageShape| >= 2
  {
    RewriteOps(t[..j], imageShape) + t[j..]
  }

  /** Rewriting operator `j` in place extends the rewritten prefix by one. */
  lemma RewriteOpsStep(t: Transform, j: nat, imageShape: seq<int>)
    requires j < |t| && |imageShape| >= 2
    ensures PartlyRewritten(t, j + 1, imageShape) == PartlyRewritten(t, j, imageShape)[j := (t[j].0, Rewritten(t[j], imageShape))]
    ensures t[j].0 != "Resize" ==> PartlyRewritten(t, j + 1, imageShape) == PartlyRewritten(t, j, imageShape)
  {
    var before, after := PartlyRewritten(t, j, imageShape), PartlyRewritten(t, j + 1, imageShape);
    var updated := before[j := (t[j].0, Rewritten(t[j], imageShape))];
    forall k | 0 <= k < |after| ensures after[k] == updated[k] {
      if k < j {
        assert t[..j + 1][k] == t[..j][k];
      }
    }
  }

  /** The rendered entries of the first `j + 1` operators. */
  lemma EntriesStep(ops: seq<Op>, j: nat, fuse: bool, imageShape: seq<int>)
    requires j < |ops| && |imageShape| >= 2
    ensures Entries(ops[..j + 1], fuse, imageShape) == Entries(ops[..j], fuse, imageShape)
      + (if Omitted(ops[j].0, fuse) then [] else [Render(ops[j].0, Rewritten(ops[j], imageShape))])
  {
    assert ops[..j + 1][..j] == ops[..j];
  }

  /** A sample list whose first `i` entries after the head have been rewritten. */
  function PartlySampled(sts: seq<Transform>, i: nat, imageShape: seq<int>): seq<Transform>
    requires i <= |SampleRest(sts)| && |imageShape| >= 2
  {
    SampleHead(sts) + RewriteAll(SampleRest(sts)[..i], imageShape) + SampleRest(sts)[i..]
  }

  /** Rewriting sample entry `i + 1` in place extends the rewritten prefix by one. */
  lemma RewriteSamplesStep(sts: seq<Transform>, i: nat, imageShape: seq<int>)
    requires i < |SampleRest(sts)| && |imageShape| >= 2
    ensures |PartlySampled(sts, i, imageShape)| == |sts|
    ensures PartlySampled(sts, i + 1, imageShape)
            == PartlySampled(sts, i, imageShape)[i + 1 := RewriteOps(SampleRest(sts)[i], imageShape)]
  {
    var rest := SampleRest(sts);
    var before, after := PartlySampled(sts, i, imageShape), PartlySampled(sts, i + 1, imageShape);
    var updated := before[i + 1 := RewriteOps(rest[i], imageShape)];
    forall k | 0 <= k < |after| ensures after[k] == updated[k] {
      if 1 <= k < i + 1 {
        assert rest[..i + 1][k - 1] == rest[..i][k - 1];
      }
    }
  }

  /** Operators of the first `i + 1` transform entries. */
  lemma OpsStep(ts: seq<Transform>, i: nat)
    requires i < |ts|
    ensures Ops(ts[..i + 1]) == Ops(ts[..i]) + ts[i]
  {
    assert ts[..i + 1][..i] == ts[..i];
  }

  /**
   * The inner loop of `_parse_reader` over one sample-transform entry: rewrites
   * its Resize parameters and renders every operator that is not omitted.
   */
  method ParseSampleEntry(st: Transform, fuse: bool, imageShape: seq<int>)
    returns (entries: seq<Params>, rewritten: Transform)
    requires |imageShape| >= 2
    ensures entries == Entries(st, fuse, imageShape)
    ensures rewritten == RewriteOps(st, imageShape)
  {
    entries := [];
    rewritten := st;
    for j := 0 to |st|
      invariant entries == Entries(st[..j], fuse, imageShape)
      invariant rewritten == PartlyRewritten(st, j, imageShape)
    {
      var key := st[j].0;
      var value := st[j].1;
      RewriteOpsStep(st, j, imageShape);
      EntriesStep(st, j, fuse, imageShape);
      if key == "Resize" {
        if imageShape[1] != -1 {
          value := Set(value, "target_size", IntList(imageShape[1..]));
        }
        value := Set(value, "interp", Get(value, "interp").GetOr(Int(InterLinear)));
        rewritten := rewritten[j := (key, value)];
      }
      if fuse && key == "NormalizeImage" {
        continue;
      }
      var p := Update([("type", Str(key))], value);
      entries := entries + [p];
    }
    assert st[..|st|] == st;
  }

  /**
   * The inner loop over one batch-transform entry: the first PadBatch key found
   * yields one PadStride with its `pad_to_stride`, then the scan of this entry stops.
   */
  method ParseBatchEntry(bt: Transform) returns (entries: seq<Params>)
    requires HasStride(bt)
    ensures entries == PadStrideOf(bt)
  {
    entries := [];
    for j := 0 to |bt|
      invariant forall k :: 0 <= k < j ==> bt[k].0 != "PadBatch"
      invariant entries == []
    {
      if bt[j].0 == "PadBatch" {
        PadBatchAt(bt, j);
        entries := entries + [PadStride(Get(bt[j].1, "pad_to_stride").value)];
        return;
      }
    }
    KeyAbsent(bt, "PadBatch");
  }

  /** The first PadBatch key of an entry is the one `PadStrideOf` reads. */
  lemma PadBatchAt(bt: Transform, j: nat)
    requires HasStride(bt)
    requires j < |bt| && bt[j].0 == "PadBatch"
    requires forall k :: 0 <= k < j ==> bt[k].0 != "PadBatch"
    ensures "pad_to_stride" in Keys(bt[j].1)
    ensures PadStrideOf(bt) == [PadStride(Get(bt[j].1, "pad_to_stride").value)]
  {
    KeyAbsent(bt[..j], "PadBatch");
    GetFirst(bt, "PadBatch", j);
  }

  /** The loop over `batch_transforms`: one PadStride per entry that has a PadBatch key. */
  method ParseBatchTransforms(bts: seq<Transform>) returns (entries: seq<Params>)
    requires AllHaveStride(bts)
    ensures entries == PadStrides(bts)
  {
    entries := [];
    for i := 0 to |bts|
      invariant entries == PadStrides(bts[..i])
    {
      var bt := ParseBatchEntry(bts[i]);
      assert bts[..i + 1][..i] == bts[..i];
      entries := entries + bt;
    }
    assert bts[..|bts|] == bts;
  }

  /**
   * `_parse_reader`: builds the preprocess list and the label list, rewriting the
   * Resize parameters of the reader configuration in place.
   */
  method ParseReader(reader: ReaderConfig, catid2name: seq<(int, string)>, imageShape: seq<int>)
    returns (preprocess: seq<Params>, labels: seq<string>)
    requires |imageShape| >= 2
    requires BatchWellFormed(reader.batchTransforms)
    modifies reader`sampleTransforms
    ensures preprocess == Preprocess(old(reader.sampleTransforms), reader.batchTransforms, FuseFlag(reader.fuseNormalize), imageShape)
    ensures labels == LabelList(catid2name)
    ensures reader.sampleTransforms == RewriteSamples(old(reader.sampleTransforms), imageShape)
  {
    preprocess := [];
    labels := LabelList(catid2name);
    var fuse := FuseFlag(reader.fuseNormalize);
    var sts := reader.sampleTransforms;
    var rest := SampleRest(sts);
    assert reader.sampleTransforms == PartlySampled(sts, 0, imageShape) by {
      assert SampleHead(sts) + rest == sts;
    }
    for i := 0 to |rest|
      invariant preprocess == Entries(Ops(rest[..i]), fuse, imageShape)
      invariant reader.sampleTransforms == PartlySampled(sts, i, imageShape)
    {
      var entries, rewritten := ParseSampleEntry(rest[i], fuse, imageShape);
      OpsStep(rest, i);
      EntriesAppend(Ops(rest[..i]), rest[i], fuse, imageShape);
      RewriteSamplesStep(sts, i, imageShape);
      preprocess := preprocess + entries;
      reader.sampleTransforms := reader.sampleTransforms[i + 1 := rewritten];
    }
    assert rest[..|rest|] == rest;
    assert PartlySampled(sts, |rest|, imageShape) == RewriteSamples(sts, imageShape);

    var batch := reader.batchTransforms;
    if batch.Some? && batch.value != [] {
      var entries := ParseBatchTransforms(batch.value);
      preprocess := preprocess + entries;
    }
  }

  // ---------------------------------------------------------------------------
  // Properties of the pipeline
  // ---------------------------------------------------------------------------

  /** The number of operators named `key`. */
  function CountKey(ops: seq<Op>, key: string): nat {
    if ops == [] then 0
    else CountKey(ops[..|ops| - 1], key) + (if ops[|ops| - 1].0 == key then 1 else 0)
  }

  /** The entries whose `type` is not `kind`, in order. */
  function DropKind(es: seq<Params>, kind: string): seq<Params> {
    if es == [] then []
    else
      var e := es[|es| - 1];
      DropKind(es[..|es| - 1], kind) + (if Get(e, "type") == Some(Str(kind)) then [] else [e])
  }

  /** The number of batch-transform entries with a PadBatch key. */
  function CountPadBatch(bts: seq<Transform>): nat {
    if bts == [] then 0
    else CountPadBatch(bts[..|bts| - 1]) + (if "PadBatch" in Keys(bts[|bts| - 1]) then 1 else 0)
  }

  /**
   * The Resize rewrite, key by key: `target_size` is the spatial shape unless the
   * height is -1, `interp` keeps its value or becomes INTER_LINEAR, and every
   * other parameter is unchanged.
   */
  lemma ResizeRewrite(p: Params, imageShape: seq<int>, k: string)
    requires |imageShape| >= 2
    ensures Get(ResizeParams(p, imageShape), k) ==
      if k == "target_size" && imageShape[1] != -1 then Some(IntList(imageShape[1..]))
      else if k == "interp" then Some(Get(p, "interp").GetOr(Int(InterLinear)))
      else Get(p, k)
  {
    var sized := if imageShape[1] != -1 then Set(p, "target_size", IntList(imageShape[1..])) else p;
    if imageShape[1] != -1 {
      GetSet(p, "target_size", IntList(imageShape[1..]), k);
      GetSet(p, "target_size", IntList(imageShape[1..]), "interp");
    }
    GetSet(sized, "interp", Get(sized, "interp").GetOr(Int(InterLinear)), k);
  }

  /**
   * `{'type': key, **params}` for parameters without a `type` key: the type
   * comes first, then the parameters in their own order.
   */
  lemma RenderShape(key: string, p: Params)
    requires DistinctKeys(p) && "type" !in Keys(p)
    ensures Render(key, p) == [("type", Str(key))] + p
  {
    var head: Params := [("type", Str(key))];
    forall i | 0 <= i < |p| ensures p[i].0 !in Keys(head) {
      assert Keys(p)[i] == p[i].0;
    }
    UpdateAppends(head, p);
  }

  /** A rendered entry's `type` is its operator's name when the parameters name no type. */
  lemma RenderType(key: string, p: Params)
    requires "type" !in Keys(p)
    ensures Get(Render(key, p), "type") == Some(Str(key))
  {
    UpdateKeepsOthers([("type", Str(key))], p, "type");
  }

  /**
   * Without fused normalisation every sample operator becomes exactly one entry,
   * in order: the i-th entry is `{'type': key_i, **params_i}` after the rewrite.
   */
  lemma {:induction false} EntriesInOrder(ops: seq<Op>, imageShape: seq<int>)
    requires |imageShape| >= 2
    ensures |Entries(ops, false, imageShape)| == |ops|
    ensures forall i :: 0 <= i < |ops| ==>
      Entries(ops, false, imageShape)[i] == Render(ops[i].0, Rewritten(ops[i], imageShape))
  {
    EntriesCount(ops, false, imageShape);
    forall i | 0 <= i < |ops|
      ensures Entries(ops, false, imageShape)[i] == Render(ops[i].0, Rewritten(ops[i], imageShape))
    {
      EntryAt(ops, i, imageShape);
    }
  }

  /** Without fused normalisation, entry `i` is operator `i` rendered. */
  lemma {:induction false} EntryAt(ops: seq<Op>, i: nat, imageShape: seq<int>)
    requires |imageShape| >= 2 && i < |ops|
    ensures |Entries(ops, false, imageShape)| == |ops|
    ensures Entries(ops, false, imageShape)[i] == Render(ops[i].0, Rewritten(ops[i], imageShape))
  {
    var n := |ops| - 1;
    var front := Entries(ops[..n], false, imageShape);
    var last := Render(ops[n].0, Rewritten(ops[n], imageShape));
    assert Entries(ops, false, imageShape) == front + [last];
    EntriesCount(ops[..n], false, imageShape);
    if i < n {
      EntryAt(ops[..n], i, imageShape);
      assert ops[..n][i] == ops[i];
      assert (front + [last])[i] == front[i];
    }
  }

  /** One entry per operator, less the NormalizeImage operators when normalisation is fused. */
  lemma {:induction false} EntriesCount(ops: seq<Op>, fuse: bool, imageShape: seq<int>)
    requires |imageShape| >= 2
    ensures |Entries(ops, fuse, imageShape)| == |ops| - (if fuse then CountKey(ops, "NormalizeImage") else 0)
    ensures CountKey(ops, "NormalizeImage") <= |ops|
  {
    if ops != [] {
      EntriesCount(ops[..|ops| - 1], fuse, imageShape);
    }
  }

  /**
   * Fusing normalisation omits every NormalizeImage entry and nothing else
   * (for parameters that do not themselves carry a `type` key).
   */
  lemma {:induction false} FuseOmitsOnlyNormalize(ops: seq<Op>, imageShape: seq<int>)
    requires |imageShape| >= 2
    requires forall i :: 0 <= i < |ops| ==> "type" !in Keys(ops[i].1)
    ensures Entries(ops, true, imageShape) == DropKind(Entries(ops, false, imageShape), "NormalizeImage")
  {
    if ops != [] {
      var n := |ops| - 1;
      var op := ops[n];
      FuseOmitsOnlyNormalize(ops[..n], imageShape);
      var p := Rewritten(op, imageShape);
      NoTypeAfterRewrite(op, imageShape);
      RenderType(op.0, p);
      DropKindSnoc(Entries(ops[..n], false, imageShape), Render(op.0, p), "NormalizeImage");
    }
  }

  lemma NoTypeAfterRewrite(op: Op, imageShape: seq<int>)
    requires |imageShape| >= 2 && "type" !in Keys(op.1)
    ensures "type" !in Keys(Rewritten(op, imageShape))
  {
    ResizeKeys(op.1, imageShape);
  }

  lemma DropKindSnoc(es: seq<Params>, e: Params, kind: string)
    ensures DropKind(es + [e], kind) == DropKind(es, kind) + (if Get(e, "type") == Some(Str(kind)) then [] else [e])
  {
    assert (es + [e])[..|es|] == es;
  }

  /** Each batch entry with a PadBatch key yields one PadStride entry, and no other entry yields anything. */
  lemma {:induction false} PadStridesCount(bts: seq<Transform>)
    requires AllHaveStride(bts)
    ensures |PadStrides(bts)| == CountPadBatch(bts)
    ensures forall i :: 0 <= i < |PadStrides(bts)| ==>
      Keys(PadStrides(bts)[i]) == ["type", "stride"] && PadStrides(bts)[i][0] == ("type", Str("PadStride"))
  {
    if bts != [] {
      PadStridesCount(bts[..|bts| - 1]);
    }
  }

  /**
   * The first sample transform never contributes: replacing it changes neither
   * the pipeline nor the rewritten reader, and it is itself left as it was.
   */
  lemma FirstTransformIgnored(sts: seq<Transform>, t: Transform, bts: Option<seq<Transform>>, fuse: bool, imageShape: seq<int>)
    requires sts != [] && |imageShape| >= 2 && BatchWellFormed(bts)
    ensures Preprocess([t] + sts[1..], bts, fuse, imageShape) == Preprocess(sts, bts, fuse, imageShape)
    ensures RewriteSamples(sts, imageShape)[0] == sts[0]
  {
    assert ([t] + sts[1..])[1..] == sts[1..];
  }

  /**
   * The length of the whole pipeline: every operator after the first entry,
   * less the fused NormalizeImage ones, plus one PadStride per PadBatch entry.
   */
  lemma PreprocessLength(sts: seq<Transform>, bts: seq<Transform>, fuse: bool, imageShape: seq<int>)
    requires |imageShape| >= 2 && AllHaveStride(bts)
    ensures |Preprocess(sts, Some(bts), fuse, imageShape)| ==
      |Ops(SampleRest(sts))| - (if fuse then CountKey(Ops(SampleRest(sts)), "NormalizeImage") else 0) + CountPadBatch(bts)
  {
    EntriesCount(Ops(SampleRest(sts)), fuse, imageShape);
    PadStridesCount(bts);
  }
}
