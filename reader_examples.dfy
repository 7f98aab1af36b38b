/**
 * Worked examples of the pipeline synthesis for concrete readers: the Resize
 * rewrite for a fixed and a dynamic image shape, the exclusion of the first
 * sample transform, and the PadBatch translation.
 */
module ReaderExamples {
  import opened Wrappers
  import opened Dicts
  import opened Values
  import opened ReaderParsing

  /** A fixed 640x640 shape: `target_size` becomes `[640, 640]` and `interp` defaults to INTER_LINEAR. */
  lemma ResizeFixedShape()
    ensures ResizeParams([], [3, 640, 640]) == [("target_size", IntList([640, 640])), ("interp", Int(InterLinear))]
  {
    var shape := [3, 640, 640];
    assert shape[1..] == [640, 640];
    var sized: Params := [("target_size", IntList([640, 640]))];
    assert Set([], "target_size", IntList(shape[1..])) == sized;
    assert Get(sized, "interp") == None;
    assert Set(sized, "interp", Int(InterLinear)) == sized + [("interp", Int(InterLinear))];
  }

  /** A dynamic shape leaves a configured `target_size` as it was. */
  lemma ResizeDynamicShape()
    ensures ResizeParams([("target_size", IntList([512, 512]))], [3, -1, -1])
            == [("target_size", IntList([512, 512])), ("interp", Int(InterLinear))]
  {
  }

  /** An explicit `interp` is kept. */
  lemma ResizeKeepsInterp()
    ensures ResizeParams([("interp", Int(2))], [3, -1, -1]) == [("interp", Int(2))]
  {
  }

  /** `[Decode, Resize, NormalizeImage]` without fused normalisation yields Resize then NormalizeImage. */
  lemma DecodeResizeNormalize()
    ensures var pre := Preprocess([[("Decode", [])], [("Resize", [])], [("NormalizeImage", [])]], None, false, [3, 640, 640]);
            && |pre| == 2
            && Get(pre[0], "type") == Some(Str("Resize"))
            && Get(pre[1], "type") == Some(Str("NormalizeImage"))
  {
    var sts: seq<Transform> := [[("Decode", [])], [("Resize", [])], [("NormalizeImage", [])]];
    var ops := Ops(SampleRest(sts));
    assert SampleRest(sts) == [[("Resize", [])], [("NormalizeImage", [])]];
    assert ops == [("Resize", []), ("NormalizeImage", [])] by {
      var rest := SampleRest(sts);
      assert rest[..1][..0] == [];
      assert Ops(rest[..1]) == [("Resize", [])];
    }
    EntriesInOrder(ops, [3, 640, 640]);
    NoTypeAfterRewrite(ops[0], [3, 640, 640]);
    RenderType("Resize", Rewritten(ops[0], [3, 640, 640]));
    RenderType("NormalizeImage", Rewritten(ops[1], [3, 640, 640]));
  }

  /** With fused normalisation the same reader yields the Resize entry alone. */
  lemma DecodeResizeNormalizeFused()
    ensures var pre := Preprocess([[("Decode", [])], [("Resize", [])], [("NormalizeImage", [])]], None, true, [3, 640, 640]);
            && |pre| == 1
            && Get(pre[0], "type") == Some(Str("Resize"))
  {
    var sts: seq<Transform> := [[("Decode", [])], [("Resize", [])], [("NormalizeImage", [])]];
    var ops := Ops(SampleRest(sts));
    assert ops == [("Resize", []), ("NormalizeImage", [])] by {
      var rest := SampleRest(sts);
      assert rest == [[("Resize", [])], [("NormalizeImage", [])]];
      assert rest[..1][..0] == [];
      assert Ops(rest[..1]) == [("Resize", [])];
    }
    assert ops[..1] == [("Resize", [])] && ops[..1][..0] == [];
    NoTypeAfterRewrite(ops[0], [3, 640, 640]);
    RenderType("Resize", Rewritten(ops[0], [3, 640, 640]));
  }

  /** A single PadBatch of stride 32 becomes one PadStride of stride 32 after the sample entries. */
  lemma PadBatchStride32(sts: seq<Transform>, fuse: bool)
    ensures Preprocess(sts, Some([[("PadBatch", [("pad_to_stride", Int(32))])]]), fuse, [3, 640, 640])
            == Preprocess(sts, None, fuse, [3, 640, 640]) + [[("type", Str("PadStride")), ("stride", Int(32))]]
  {
    var bts: seq<Transform> := [[("PadBatch", [("pad_to_stride", Int(32))])]];
    assert bts[..0] == [];
  }
}
