/**
 * Assembly of the inference descriptor (`_dump_infer_config`): the ordered dict
 * written next to an exported model, or the fatal exit for an architecture the
 * table does not cover.
 */
module InferConfigExport {
  import opened Wrappers
  import opened Dicts
  import opened Values
  import opened Architectures
  import opened ReaderParsing

  /** The entries of the training configuration the export reads. */
  datatype Config = Config(
    metric: string,             // config['metric']
    architecture: string,       // config['architecture']
    archConfig: Params,         // config[config['architecture']]
    exportOnnx: Option<Value>,  // config.get('export_onnx'), None when absent
    exportEb: Option<Value>)    // config.get('export_eb'), None when absent

  /** The fatal outcome: the process exits and no descriptor is written. */
  datatype ExportError = UnsupportedArchitecture(architecture: string)

  /** `draw_threshold: 0.5`. */
  const DrawThreshold: Value := Float(5, -1)

  /** A two-stage (RCNN) architecture exported for ONNX: the export flags are written. */
  predicate RcnnOnnx(config: Config) {
    Contains(config.architecture, "RCNN") && Truthy(config.exportOnnx.GetOr(Bool(false)))
  }

  /** The architecture's own section declares a truthy `mask_head`. */
  predicate HasMaskHead(config: Config) {
    Get(config.archConfig, "mask_head").Some? && Truthy(Get(config.archConfig, "mask_head").value)
  }

  /** The key order in which `_dump_infer_config` builds a descriptor. */
  function DescriptorKeys(config: Config): seq<string> {
    ["mode", "draw_threshold", "metric", "use_dynamic_shape"]
    + (if RcnnOnnx(config) then ["export_onnx", "export_eb"] else [])
    + ["arch", "min_subgraph_size"]
    + (if HasMaskHead(config) then ["mask"] else [])
    + ["Preprocess", "label_list"]
  }

  /** The preprocess list as a YAML value. */
  function PreprocessValue(entries: seq<Params>): Value {
    List(seq(|entries|, i requires 0 <= i < |entries| => Mapping(entries[i])))
  }

  /** The label list as a YAML value. */
  function LabelsValue(labels: seq<string>): Value {
    List(seq(|labels|, i requires 0 <= i < |labels| => Str(labels[i])))
  }

  /** The four entries every descriptor starts with. */
  function HeadPart(config: Config, imageShape: seq<int>): Params
    requires |imageShape| >= 3
  {
    [("mode", Str("paddle")), ("draw_threshold", DrawThreshold),
     ("metric", Str(config.metric)), ("use_dynamic_shape", Bool(imageShape[2] == -1))]
  }

  /** The export flags, present only for an RCNN architecture exported for ONNX. */
  function FlagPart(config: Config): Params {
    if RcnnOnnx(config) then [("export_onnx", Bool(true)), ("export_eb", config.exportEb.GetOr(Bool(false)))] else []
  }

  /** The resolved architecture family and its minimum subgraph size. */
  function ArchPart(resolved: (string, int)): Params {
    [("arch", Str(resolved.0)), ("min_subgraph_size", Int(resolved.1))]
  }

  /** The mask flag, present only when the architecture has a mask head. */
  function MaskPart(config: Config): Params {
    if HasMaskHead(config) then [("mask", Bool(true))] else []
  }

  /** The pipeline and the labels, always last. */
  function TailPart(preprocess: seq<Params>, labels: seq<string>): Params {
    [("Preprocess", PreprocessValue(preprocess)), ("label_list", LabelsValue(labels))]
  }

  /** The descriptor's entries, section by section in key order. */
  function Assemble(config: Config, imageShape: seq<int>, resolved: (string, int),
                    preprocess: seq<Params>, labels: seq<string>): Params
    requires |imageShape| >= 3
  {
    HeadPart(config, imageShape) + FlagPart(config) + ArchPart(resolved) + MaskPart(config) + TailPart(preprocess, labels)
  }

  /**
   * The descriptor: it exists only when the architecture resolves, and its
   * pipeline is parsed for the image shape without the channel dimension.
   */
  function Descriptor(config: Config, sts: seq<Transform>, bts: Option<seq<Transform>>, fuse: bool,
                      catid2name: seq<(int, string)>, imageShape: seq<int>): Result<Params, ExportError>
    requires |imageShape| >= 3 && BatchWellFormed(bts)
  {
    match Resolve(config.architecture)
    case None => Failure(UnsupportedArchitecture(config.architecture))
    case Some(resolved) =>
      Success(Assemble(config, imageShape, resolved, Preprocess(sts, bts, fuse, imageShape[1..]), LabelList(catid2name)))
  }

  /** The keys of each section. */
  lemma PartKeys(config: Config, imageShape: seq<int>, resolved: (string, int), preprocess: seq<Params>, labels: seq<string>)
    requires |imageShape| >= 3
    ensures Keys(HeadPart(config, imageShape)) == ["mode", "draw_threshold", "metric", "use_dynamic_shape"]
    ensures Keys(FlagPart(config)) == if RcnnOnnx(config) then ["export_onnx", "export_eb"] else []
    ensures Keys(ArchPart(resolved)) == ["arch", "min_subgraph_size"]
    ensures Keys(MaskPart(config)) == if HasMaskHead(config) then ["mask"] else []
    ensures Keys(TailPart(preprocess, labels)) == ["Preprocess", "label_list"]
  {
    FlagKeys(config);
    KeysOfPair(("arch", Str(resolved.0)), ("min_subgraph_size", Int(resolved.1)));
    KeysOfPair(("Preprocess", PreprocessValue(preprocess)), ("label_list", LabelsValue(labels)));
  }

  lemma FlagKeys(config: Config)
    ensures Keys(FlagPart(config)) == if RcnnOnnx(config) then ["export_onnx", "export_eb"] else []
  {
    KeysOfPair(("export_onnx", Bool(true)), ("export_eb", config.exportEb.GetOr(Bool(false))));
  }

  /** No key of the head section is a flag, architecture or mask key. */
  lemma HeadKeysFresh(config: Config, imageShape: seq<int>)
    requires |imageShape| >= 3
    ensures forall k :: k in Keys(HeadPart(config, imageShape)) ==>
              k != "export_onnx" && k != "export_eb" && k != "arch" && k != "min_subgraph_size" && k != "mask"
  {
  }

  /** The architecture and mask keys are new where they are added. */
  lemma MiddleKeysFresh(config: Config, imageShape: seq<int>, resolved: (string, int))
    requires |imageShape| >= 3
    ensures "arch" !in Keys(HeadPart(config, imageShape) + FlagPart(config))
    ensures "min_subgraph_size" !in Keys(HeadPart(config, imageShape) + FlagPart(config))
    ensures "mask" !in Keys(HeadPart(config, imageShape) + FlagPart(config) + ArchPart(resolved))
  {
    var head, flag, arch := HeadPart(config, imageShape), FlagPart(config), ArchPart(resolved);
    HeadKeysFresh(config, imageShape);
    FlagKeys(config);
    KeysOfPair(("arch", Str(resolved.0)), ("min_subgraph_size", Int(resolved.1)));
    KeysAppend(head, flag);
    KeysAppend(head + flag, arch);
  }

  /** The pipeline and label keys are new where they are added. */
  lemma TailKeysFresh(config: Config, imageShape: seq<int>, resolved: (string, int))
    requires |imageShape| >= 3
    ensures "Preprocess" !in Keys(HeadPart(config, imageShape) + FlagPart(config) + ArchPart(resolved) + MaskPart(config))
    ensures "label_list" !in Keys(HeadPart(config, imageShape) + FlagPart(config) + ArchPart(resolved) + MaskPart(config))
  {
    PartKeys(config, imageShape, resolved, [], []);
    var head, flag, arch, mask := HeadPart(config, imageShape), FlagPart(config), ArchPart(resolved), MaskPart(config);
    KeysAppend(head, flag);
    KeysAppend(head + flag, arch);
    KeysAppend(head + flag + arch, mask);
    var ks := Keys(head) + Keys(flag) + Keys(arch) + Keys(mask);
    assert Keys(head + flag + arch + mask) == ks;
    forall k | k in ["Preprocess", "label_list"]
      ensures k !in ks
    {
      assert k !in Keys(head) && k !in Keys(flag) && k !in Keys(arch) && k !in Keys(mask);
    }
  }

  /**
   * The architecture lookup of `_dump_infer_config`: the first table family
   * contained in the name, then the exact-name override, each written into the
   * descriptor with `arch` and `min_subgraph_size`.
   */
  method LocateArchitecture(inferArch: string, flagged: Params) returns (archState: bool, inferCfg: Params)
    requires "arch" !in Keys(flagged) && "min_subgraph_size" !in Keys(flagged)
    ensures archState <==> Resolve(inferArch).Some?
    ensures archState ==> inferCfg == flagged + ArchPart(Resolve(inferArch).value)
  {
    archState := false;
    inferCfg := flagged;
    for i := 0 to |TrtMinSubgraph|
      invariant FirstFamilyFrom(inferArch, i) == FirstFamilyFrom(inferArch, 0)
      invariant !archState && inferCfg == flagged
    {
      var arch := TrtMinSubgraph[i].0;
      var minSubgraphSize := TrtMinSubgraph[i].1;
      if Contains(inferArch, arch) {
        SetTwoNew(inferCfg, ("arch", Str(arch)), ("min_subgraph_size", Int(minSubgraphSize)));
        inferCfg := Set(inferCfg, "arch", Str(arch));
        inferCfg := Set(inferCfg, "min_subgraph_size", Int(minSubgraphSize));
        archState := true;
        break;
      }
    }
    assert archState <==> FirstPass(inferArch).Some?;
    assert archState ==> inferCfg == flagged + ArchPart(FirstPass(inferArch).value);

    if inferArch in ExactNames {
      TableKeys();
      var size := MinSubgraphSize(inferArch);
      if archState {
        var first := FirstPass(inferArch).value;
        SetTwoExisting(flagged, ("arch", Str(first.0)), ("min_subgraph_size", Int(first.1)),
                       ("arch", Str(inferArch)), ("min_subgraph_size", Int(size)));
      } else {
        SetTwoNew(flagged, ("arch", Str(inferArch)), ("min_subgraph_size", Int(size)));
      }
      inferCfg := Set(inferCfg, "arch", Str(inferArch));
      inferCfg := Set(inferCfg, "min_subgraph_size", Int(size));
      archState := true;
      assert Resolve(inferArch) == Some((inferArch, size));
    } else {
      assert Resolve(inferArch) == FirstPass(inferArch);
    }
  }

  /**
   * `_dump_infer_config`: builds the descriptor key by key (the caller writes it
   * to disk). On an unsupported architecture the export stops before the
   * reader is parsed.
   */
  method DumpInferConfig(config: Config, reader: ReaderConfig, catid2name: seq<(int, string)>, imageShape: seq<int>)
    returns (r: Result<Params, ExportError>)
    requires |imageShape| >= 3
    requires BatchWellFormed(reader.batchTransforms)
    modifies reader`sampleTransforms
    ensures r == Descriptor(config, old(reader.sampleTransforms), reader.batchTransforms,
                            FuseFlag(reader.fuseNormalize), catid2name, imageShape)
    ensures r.Success? ==> reader.sampleTransforms == RewriteSamples(old(reader.sampleTransforms), imageShape[1..])
    ensures r.Failure? ==> reader.sampleTransforms == old(reader.sampleTransforms)
  {
    var archState := false;
    var useDynamicShape := imageShape[2] == -1;
    var inferCfg: Params := [("mode", Str("paddle")), ("draw_threshold", DrawThreshold),
                             ("metric", Str(config.metric)), ("use_dynamic_shape", Bool(useDynamicShape))];
    var exportOnnx := config.exportOnnx.GetOr(Bool(false));
    var exportEb := config.exportEb.GetOr(Bool(false));
    assert inferCfg == HeadPart(config, imageShape);
    HeadKeysFresh(config, imageShape);

    var inferArch := config.architecture;
    if Contains(inferArch, "RCNN") && Truthy(exportOnnx) {
      SetTwoNew(inferCfg, ("export_onnx", Bool(true)), ("export_eb", exportEb));
      inferCfg := Set(inferCfg, "export_onnx", Bool(true));
      inferCfg := Set(inferCfg, "export_eb", exportEb);
    }
    ghost var flagged := inferCfg;
    assert flagged == HeadPart(config, imageShape) + FlagPart(config);
    MiddleKeysFresh(config, imageShape, Resolve(inferArch).GetOr(("", 0)));
    TailKeysFresh(config, imageShape, Resolve(inferArch).GetOr(("", 0)));
    archState, inferCfg := LocateArchitecture(inferArch, inferCfg);

    if !archState {
      return Failure(UnsupportedArchitecture(inferArch));
    }
    ghost var located := inferCfg;
    assert located == flagged + ArchPart(Resolve(inferArch).value);

    var archConfig := config.archConfig;
    if Get(archConfig, "mask_head").Some? && Truthy(Get(archConfig, "mask_head").value) {
      SetAppends(inferCfg, "mask", Bool(true));
      inferCfg := Set(inferCfg, "mask", Bool(true));
    }
    ghost var masked := inferCfg;
    assert masked == located + MaskPart(config);

    var preprocess, labels := ParseReader(reader, catid2name, imageShape[1..]);
    var preprocessEntry := ("Preprocess", PreprocessValue(preprocess));
    var labelEntry := ("label_list", LabelsValue(labels));
    SetTwoNew(inferCfg, preprocessEntry, labelEntry);
    inferCfg := Set(inferCfg, preprocessEntry.0, preprocessEntry.1);
    inferCfg := Set(inferCfg, labelEntry.0, labelEntry.1);
    assert inferCfg == Assemble(config, imageShape, Resolve(inferArch).value, preprocess, labels);
    r := Success(inferCfg);
  }

  /** The assembled entries carry the keys in the order `_dump_infer_config` builds them (lines 144-188). */
  lemma AssembleKeys(config: Config, imageShape: seq<int>, resolved: (string, int), preprocess: seq<Params>, labels: seq<string>)
    requires |imageShape| >= 3
    ensures Keys(Assemble(config, imageShape, resolved, preprocess, labels)) == DescriptorKeys(config)
  {
    PartKeys(config, imageShape, resolved, preprocess, labels);
    var head, flag, arch, mask, tail := HeadPart(config, imageShape), FlagPart(config), ArchPart(resolved),
                                        MaskPart(config), TailPart(preprocess, labels);
    KeysAppend(head, flag);
    KeysAppend(head + flag, arch);
    KeysAppend(head + flag + arch, mask);
    KeysAppend(head + flag + arch + mask, tail);
  }

  /** A head key is looked up in the head section. */
  lemma AssembleHead(config: Config, imageShape: seq<int>, resolved: (string, int), preprocess: seq<Params>, labels: seq<string>)
    requires |imageShape| >= 3
    ensures var d := Assemble(config, imageShape, resolved, preprocess, labels);
            && Get(d, "mode") == Some(Str("paddle"))
            && Get(d, "draw_threshold") == Some(DrawThreshold)
            && Get(d, "metric") == Some(Str(config.metric))
            && Get(d, "use_dynamic_shape") == Some(Bool(imageShape[2] == -1))
  {
    PartKeys(config, imageShape, resolved, preprocess, labels);
    var head, flag, arch, mask, tail := HeadPart(config, imageShape), FlagPart(config), ArchPart(resolved),
                                        MaskPart(config), TailPart(preprocess, labels);
    KeysAppend(head, flag);
    KeysAppend(head + flag, arch);
    KeysAppend(head + flag + arch, mask);
    forall k | k in Keys(head)
      ensures Get(head + flag + arch + mask + tail, k) == Get(head, k)
    {
      GetConcat(head + flag + arch + mask, tail, k);
      GetConcat(head + flag + arch, mask, k);
      GetConcat(head + flag, arch, k);
      GetConcat(head, flag, k);
    }
    GetFirst(head, "metric", 2);
    GetFirst(head, "use_dynamic_shape", 3);
  }

  /** The architecture keys are looked up in the architecture section. */
  lemma AssembleArch(config: Config, imageShape: seq<int>, resolved: (string, int), preprocess: seq<Params>, labels: seq<string>)
    requires |imageShape| >= 3
    ensures var d := Assemble(config, imageShape, resolved, preprocess, labels);
            && Get(d, "arch") == Some(Str(resolved.0))
            && Get(d, "min_subgraph_size") == Some(Int(resolved.1))
  {
    PartKeys(config, imageShape, resolved, preprocess, labels);
    MiddleKeysFresh(config, imageShape, resolved);
    var head, flag, arch, mask, tail := HeadPart(config, imageShape), FlagPart(config), ArchPart(resolved),
                                        MaskPart(config), TailPart(preprocess, labels);
    KeysAppend(head + flag, arch);
    KeysAppend(head + flag + arch, mask);
    forall k | k in Keys(arch)
      ensures Get(head + flag + arch + mask + tail, k) == Get(arch, k)
    {
      GetConcat(head + flag + arch + mask, tail, k);
      GetConcat(head + flag + arch, mask, k);
      GetConcat(head + flag, arch, k);
    }
    GetFirst(arch, "min_subgraph_size", 1);
  }

  /** The tail keys are looked up in the tail section. */
  lemma AssembleTail(config: Config, imageShape: seq<int>, resolved: (string, int), preprocess: seq<Params>, labels: seq<string>)
    requires |imageShape| >= 3
    ensures var d := Assemble(config, imageShape, resolved, preprocess, labels);
            && Get(d, "Preprocess") == Some(PreprocessValue(preprocess))
            && Get(d, "label_list") == Some(LabelsValue(labels))
  {
    PartKeys(config, imageShape, resolved, preprocess, labels);
    TailKeysFresh(config, imageShape, resolved);
    var before := HeadPart(config, imageShape) + FlagPart(config) + ArchPart(resolved) + MaskPart(config);
    GetConcat(before, TailPart(preprocess, labels), "Preprocess");
    GetConcat(before, TailPart(preprocess, labels), "label_list");
  }

  /** The optional keys are present exactly when their conditions hold. */
  lemma AssembleOptional(config: Config, imageShape: seq<int>, resolved: (string, int), preprocess: seq<Params>, labels: seq<string>)
    requires |imageShape| >= 3
    ensures var ks := Keys(Assemble(config, imageShape, resolved, preprocess, labels));
            && ("export_onnx" in ks <==> RcnnOnnx(config))
            && ("export_eb" in ks <==> RcnnOnnx(config))
            && ("mask" in ks <==> HasMaskHead(config))
  {
    AssembleKeys(config, imageShape, resolved, preprocess, labels);
    OptionalKeys(config);
  }

  /** The export flags hold True and the configuration's `export_eb` when written, and are absent otherwise. */
  lemma AssembleFlags(config: Config, imageShape: seq<int>, resolved: (string, int), preprocess: seq<Params>, labels: seq<string>)
    requires |imageShape| >= 3
    ensures var d := Assemble(config, imageShape, resolved, preprocess, labels);
            && Get(d, "export_onnx") == (if RcnnOnnx(config) then Some(Bool(true)) else None)
            && Get(d, "export_eb") == (if RcnnOnnx(config) then Some(config.exportEb.GetOr(Bool(false))) else None)
  {
    AssembleOptional(config, imageShape, resolved, preprocess, labels);
    if RcnnOnnx(config) {
      var head, flag, arch, mask, tail := HeadPart(config, imageShape), FlagPart(config), ArchPart(resolved),
                                          MaskPart(config), TailPart(preprocess, labels);
      FlagKeys(config);
      HeadKeysFresh(config, imageShape);
      KeysAppend(head, flag);
      KeysAppend(head + flag, arch);
      KeysAppend(head + flag + arch, mask);
      forall k | k in Keys(flag)
        ensures Get(head + flag + arch + mask + tail, k) == Get(flag, k)
      {
        GetConcat(head + flag + arch + mask, tail, k);
        GetConcat(head + flag + arch, mask, k);
        GetConcat(head + flag, arch, k);
        GetConcat(head, flag, k);
      }
      GetFirst(flag, "export_eb", 1);
    }
  }

  /** The mask flag holds True when written, and is absent otherwise. */
  lemma AssembleMask(config: Config, imageShape: seq<int>, resolved: (string, int), preprocess: seq<Params>, labels: seq<string>)
    requires |imageShape| >= 3
    ensures Get(Assemble(config, imageShape, resolved, preprocess, labels), "mask") ==
              if HasMaskHead(config) then Some(Bool(true)) else None
  {
    AssembleOptional(config, imageShape, resolved, preprocess, labels);
    if HasMaskHead(config) {
      var before, mask, tail := HeadPart(config, imageShape) + FlagPart(config) + ArchPart(resolved),
                                MaskPart(config), TailPart(preprocess, labels);
      MiddleKeysFresh(config, imageShape, resolved);
      KeysAppend(before, mask);
      GetConcat(before + mask, tail, "mask");
      GetConcat(before, mask, "mask");
    }
  }

  /** The optional keys appear in the built key order exactly when their conditions hold. */
  lemma OptionalKeys(config: Config)
    ensures var ks := DescriptorKeys(config);
            && ("export_onnx" in ks <==> RcnnOnnx(config))
            && ("export_eb" in ks <==> RcnnOnnx(config))
            && ("mask" in ks <==> HasMaskHead(config))
  {
    var flags: seq<string> := if RcnnOnnx(config) then ["export_onnx", "export_eb"] else [];
    var mask: seq<string> := if HasMaskHead(config) then ["mask"] else [];
    var ks := ["mode", "draw_threshold", "metric", "use_dynamic_shape"] + flags + ["arch", "min_subgraph_size"] + mask + ["Preprocess", "label_list"];
    assert DescriptorKeys(config) == ks;
    forall k | k in ["export_onnx", "export_eb", "mask"]
      ensures k in ks <==> k in flags || k in mask
    {
    }
  }

  /** A written descriptor has exactly the keys in the order `_dump_infer_config` builds them, each once. */
  lemma DescriptorKeyOrder(config: Config, sts: seq<Transform>, bts: Option<seq<Transform>>, fuse: bool,
                           catid2name: seq<(int, string)>, imageShape: seq<int>)
    requires |imageShape| >= 3 && BatchWellFormed(bts)
    ensures var r := Descriptor(config, sts, bts, fuse, catid2name, imageShape);
            r.Success? ==> Keys(r.value) == DescriptorKeys(config) && DistinctKeys(r.value)
  {
    if Resolve(config.architecture).Some? {
      var d := Descriptor(config, sts, bts, fuse, catid2name, imageShape).value;
      AssembleKeys(config, imageShape, Resolve(config.architecture).value,
                   Preprocess(sts, bts, fuse, imageShape[1..]), LabelList(catid2name));
      DescriptorKeysDistinct(config);
      forall i, j | 0 <= i < j < |d| ensures d[i].0 != d[j].0 {
        assert d[i].0 == Keys(d)[i] && d[j].0 == Keys(d)[j];
      }
    }
  }

  /** The built key order never repeats a key. */
  lemma DescriptorKeysDistinct(config: Config)
    ensures forall i, j :: 0 <= i < j < |DescriptorKeys(config)| ==> DescriptorKeys(config)[i] != DescriptorKeys(config)[j]
  {
  }

  /**
   * The export fails exactly when no family of the table occurs in the
   * architecture name, and the failure names the architecture.
   */
  lemma DescriptorFailsIffUnsupported(config: Config, sts: seq<Transform>, bts: Option<seq<Transform>>, fuse: bool,
                                      catid2name: seq<(int, string)>, imageShape: seq<int>)
    requires |imageShape| >= 3 && BatchWellFormed(bts)
    ensures Descriptor(config, sts, bts, fuse, catid2name, imageShape).Failure? <==>
              forall j :: 0 <= j < |TrtMinSubgraph| ==> !Contains(config.architecture, TrtMinSubgraph[j].0)
    ensures Descriptor(config, sts, bts, fuse, catid2name, imageShape).Failure? ==>
              Descriptor(config, sts, bts, fuse, catid2name, imageShape).error == UnsupportedArchitecture(config.architecture)
  {
    UnsupportedIffNoFamily(config.architecture);
  }

  /** The head entries: the fixed mode and threshold, the metric, and the dynamic-shape flag. */
  lemma DescriptorHead(config: Config, sts: seq<Transform>, bts: Option<seq<Transform>>, fuse: bool,
                       catid2name: seq<(int, string)>, imageShape: seq<int>)
    requires |imageShape| >= 3 && BatchWellFormed(bts)
    ensures var r := Descriptor(config, sts, bts, fuse, catid2name, imageShape);
            r.Success? ==>
              && Get(r.value, "mode") == Some(Str("paddle"))
              && Get(r.value, "draw_threshold") == Some(DrawThreshold)
              && Get(r.value, "metric") == Some(Str(config.metric))
              && Get(r.value, "use_dynamic_shape") == Some(Bool(imageShape[2] == -1))
  {
    if Resolve(config.architecture).Some? {
      AssembleHead(config, imageShape, Resolve(config.architecture).value,
                   Preprocess(sts, bts, fuse, imageShape[1..]), LabelList(catid2name));
    }
  }

  /**
   * The architecture entries: the resolved family name and a minimum subgraph
   * size that is that family's value in the table.
   */
  lemma DescriptorArchitecture(config: Config, sts: seq<Transform>, bts: Option<seq<Transform>>, fuse: bool,
                               catid2name: seq<(int, string)>, imageShape: seq<int>)
    requires |imageShape| >= 3 && BatchWellFormed(bts)
    ensures var r := Descriptor(config, sts, bts, fuse, catid2name, imageShape);
            r.Success? ==>
              && Get(r.value, "arch") == Some(Str(Resolve(config.architecture).value.0))
              && Get(r.value, "min_subgraph_size") == Some(Int(Resolve(config.architecture).value.1))
              && Get(TrtMinSubgraph, Resolve(config.architecture).value.0) == Some(Resolve(config.architecture).value.1)
  {
    if Resolve(config.architecture).Some? {
      AssembleArch(config, imageShape, Resolve(config.architecture).value,
                   Preprocess(sts, bts, fuse, imageShape[1..]), LabelList(catid2name));
      ResolvedSizeIsTableValue(config.architecture);
    }
  }

  /** The tail entries: the parsed pipeline and the label list. */
  lemma DescriptorTail(config: Config, sts: seq<Transform>, bts: Option<seq<Transform>>, fuse: bool,
                       catid2name: seq<(int, string)>, imageShape: seq<int>)
    requires |imageShape| >= 3 && BatchWellFormed(bts)
    ensures var r := Descriptor(config, sts, bts, fuse, catid2name, imageShape);
            r.Success? ==>
              && Get(r.value, "Preprocess") == Some(PreprocessValue(Preprocess(sts, bts, fuse, imageShape[1..])))
              && Get(r.value, "label_list") == Some(LabelsValue(LabelList(catid2name)))
  {
    if Resolve(config.architecture).Some? {
      AssembleTail(config, imageShape, Resolve(config.architecture).value,
                   Preprocess(sts, bts, fuse, imageShape[1..]), LabelList(catid2name));
    }
  }

  /**
   * The optional entries: the export flags appear exactly for an RCNN
   * architecture exported for ONNX, holding True and the configuration's own
   * `export_eb`; the mask flag appears, as True, exactly for a mask head.
   */
  lemma DescriptorOptionalKeys(config: Config, sts: seq<Transform>, bts: Option<seq<Transform>>, fuse: bool,
                               catid2name: seq<(int, string)>, imageShape: seq<int>)
    requires |imageShape| >= 3 && BatchWellFormed(bts)
    ensures var r := Descriptor(config, sts, bts, fuse, catid2name, imageShape);
            r.Success? ==>
              && Get(r.value, "export_onnx") == (if RcnnOnnx(config) then Some(Bool(true)) else None)
              && Get(r.value, "export_eb") == (if RcnnOnnx(config) then Some(config.exportEb.GetOr(Bool(false))) else None)
              && Get(r.value, "mask") == (if HasMaskHead(config) then Some(Bool(true)) else None)
  {
    if Resolve(config.architecture).Some? {
      var resolved, preprocess := Resolve(config.architecture).value, Preprocess(sts, bts, fuse, imageShape[1..]);
      AssembleFlags(config, imageShape, resolved, preprocess, LabelList(catid2name));
      AssembleMask(config, imageShape, resolved, preprocess, LabelList(catid2name));
    }
  }
}
