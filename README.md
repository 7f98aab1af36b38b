# Inference-config export of PaddleYOLO, modelled in Dafny

This project models the export helpers of PaddleYOLO's detector export step
(`ppdet/engine/export_utils.py`). When a detector is exported, these helpers
write a YAML descriptor next to the model. The descriptor holds:

- the TensorRT minimum subgraph size of the architecture family;
- the dynamic-shape flag;
- the RCNN/ONNX flags and the mask flag;
- the deploy-time preprocessing pipeline;
- the label list.

The export also prunes the model's input signature down to the inputs the
pruned inference program still declares, and it copies the tracker section.

Modules:

- `Wrappers`: `Option` and `Result`.
- `Dicts`: Python's insertion-ordered `dict` keyed by strings. It is a sequence
  of (key, value) pairs.
  - `Set` is `d[k] = v`. An existing key keeps its place; a new key goes last.
  - `Update` is `d.update(e)`.
  - `Get` is `d.get(k)`.
- `Values`: the YAML values of a configuration or descriptor, with Python
  truthiness. `draw_threshold` (0.5) is the decimal literal `Float(5, -1)`.
- `Architectures`: `TRT_MIN_SUBGRAPH` in declaration order, and the two
  resolution passes.
  - The first pass takes the first table key that occurs as a substring of
    the architecture name, then breaks.
  - The second pass is the exact-name override list of six names.
- `ReaderParsing`: `_parse_reader`. The reader section is a class whose
  `sampleTransforms` field is rewritten in place, as the source rewrites the
  Resize parameters in the configuration it is given.
  - Methods with loops build the pipeline.
  - They are proved equal to the specification functions `Entries`,
    `PadStrides`, `Preprocess` and `RewriteSamples`.
  - Lemmas state what those functions promise.
- `ReaderExamples`: concrete readers.
- `InferConfigExport`: `_dump_infer_config`.
  - The method builds the ordered dict key by key and is proved equal to
    `Descriptor`.
  - The fatal `os._exit` of an unsupported architecture is the
    `Failure(UnsupportedArchitecture(..))` result.
- `InputSpecPruning`: `_prune_input_spec` and `_parse_tracker`. The pruned
  program is represented by the set of variable names its global block
  declares.

## Model

| member | source | states |
|---|---|---|
| Architectures.TrtMinSubgraph | ppdet/engine/export_utils.py:30-39 | `TRT_MIN_SUBGRAPH` as its (family, size) pairs in declaration order, the order the first pass walks |
| Architectures.ExactNames | ppdet/engine/export_utils.py:167-169 | the six names that override the first pass when the architecture equals one of them |
| Architectures.Contains | ppdet/engine/export_utils.py:161 | Python's `arch in infer_arch` on strings: the key occurs as a contiguous substring of the name |
| Architectures.FirstPass | ppdet/engine/export_utils.py:160-165 | the pair of the first table entry whose key occurs in the name, or None when no key does |
| Architectures.MinSubgraphSize | ppdet/engine/export_utils.py:171 | `TRT_MIN_SUBGRAPH[infer_arch]` for a name that is a table key |
| Architectures.Resolve | ppdet/engine/export_utils.py:160-179 | the (arch, min_subgraph_size) pair the export writes, None on the fatal path. It tests the exact name first and only then takes the first pass, the reverse of the source's order; `ExactNamesMatchYolo` shows the first pass succeeds for every override name, and `LocateArchitecture`, which runs the loop and then the override as the source does, is proved equal to it, so the order makes no difference |
| Architectures.TableKeys | ppdet/engine/export_utils.py:30-39 | the table's families in their declaration order: YOLO, PPYOLOE, YOLOX, YOLOv5, RTMDet, YOLOv6, YOLOv7, YOLOv8 |
| Architectures.FirstFamilyFrom | ppdet/engine/export_utils.py:160-165 | the index found is the first table entry at or after `i` whose key occurs in the name; no earlier entry matches; None means no entry from `i` on matches |
| Architectures.TableLookup | ppdet/engine/export_utils.py:30-39 | the table never repeats a key, so looking up any entry's family yields that entry's size |
| Architectures.ExactNamesMatchYolo | ppdet/engine/export_utils.py:160-172 | every exact override name also matches the first family `YOLO`, so the first pass always succeeds for them before the override replaces its result |
| Architectures.ResolvedSizeIsTableValue | ppdet/engine/export_utils.py:160-172 | the resolved size is the table's value for the resolved family name |
| Architectures.UnsupportedIffNoFamily | ppdet/engine/export_utils.py:160-179 | resolution fails exactly when no table key occurs in the name |
| Architectures.ExactNameOverrides | ppdet/engine/export_utils.py:167-172 | an exact override name resolves to itself with its own table value, whatever the first pass found |
| Architectures.OtherNamesTakeFirstFamily | ppdet/engine/export_utils.py:160-165 | any other name resolves to the first matching table entry in table order |
| Architectures.ResolveRtmDet | ppdet/engine/export_utils.py:160-165 | `RTMDet` resolves to (RTMDet, 20) |
| Architectures.ResolvePpYoloEPlus | ppdet/engine/export_utils.py:160-172 | `PPYOLOEPlus` is not an override name and resolves to (YOLO, 3): the first, coarse family wins |
| Architectures.ResolveYoloX | ppdet/engine/export_utils.py:160-172 | the first pass finds (YOLO, 3) for `YOLOX`, and the override replaces it with (YOLOX, 20) |
| Architectures.ResolvePpYoloE | ppdet/engine/export_utils.py:160-172 | the first pass finds (YOLO, 3) for `PPYOLOE`, and the override replaces it with (PPYOLOE, 10) |
| Architectures.NoFamilyLetterUnsupported | ppdet/engine/export_utils.py:160-179 | a name with neither `Y` nor `T` is unsupported |
| Architectures.ResolveFasterRcnn | ppdet/engine/export_utils.py:160-179 | `FasterRCNN` is unsupported |
| Dicts.Get | ppdet/engine/export_utils.py:112 | `d.get(k)`: None exactly when `k` is not a key, otherwise the value stored under it |
| Dicts.Set | ppdet/engine/export_utils.py:157-158 | `d[k] = v` on an insertion-ordered dict: an existing key is overwritten in place, a new key goes last |
| Dicts.Update | ppdet/engine/export_utils.py:115 | `d.update(e)`: the entries of `e` assigned to `d` one after another, in order |
| Dicts.SetKeys | ppdet/engine/export_utils.py:157-158 | `d[k] = v` keeps the key order when `k` is present and appends `k` otherwise |
| Dicts.GetSet | ppdet/engine/export_utils.py:170-171 | after `d[k] = v`, `k` maps to `v` and every other key to its old value |
| Values.Truthy | ppdet/engine/export_utils.py:154 | Python's truth value, as the `and export_onnx`, `if batch_transforms` and `mask_head` tests use it: None, False, zero and empty values are false |
| ReaderParsing.FuseFlag | ppdet/engine/export_utils.py:104 | `reader_cfg.get('fuse_normalize', False)` as the condition tested at line 113 |
| ReaderParsing.ResizeParams | ppdet/engine/export_utils.py:109-112 | the Resize parameters after the in-place rewrite: `target_size` set to the spatial shape unless its height is -1, then `interp` set to its own value or 1 |
| ReaderParsing.Rewritten | ppdet/engine/export_utils.py:109-112 | an operator's parameters after the rewrite: `ResizeParams` for Resize, unchanged for every other operator |
| ReaderParsing.Render | ppdet/engine/export_utils.py:108-115 | `{'type': key}` updated with the parameters |
| ReaderParsing.Entries | ppdet/engine/export_utils.py:106-116 | the entries one sample transform list contributes: each operator rendered with its rewritten parameters, skipping NormalizeImage when normalisation is fused |
| ReaderParsing.HasStride | ppdet/engine/export_utils.py:124 | a PadBatch entry carries `pad_to_stride`; the source reads it without a default |
| ReaderParsing.PadStrideOf | ppdet/engine/export_utils.py:119-127 | what one batch entry contributes: one PadStride with the first PadBatch key's `pad_to_stride`, or nothing |
| ReaderParsing.PadStrides | ppdet/engine/export_utils.py:118-127 | the PadStride entries of all batch entries, in order |
| ReaderParsing.Preprocess | ppdet/engine/export_utils.py:95-129 | the whole `Preprocess` list: the sample entries after the first transform, then the PadStride entries when `batch_transforms` is truthy |
| ReaderParsing.ResizeKeys | ppdet/engine/export_utils.py:109-112 | the rewritten Resize parameters keep every old key and add only `target_size` and `interp` |
| ReaderParsing.ResizeRewrite | ppdet/engine/export_utils.py:109-112 | key by key: `target_size` is the spatial shape unless the height is -1; `interp` keeps its value or becomes 1; every other parameter is unchanged |
| ReaderParsing.RewriteOps | ppdet/engine/export_utils.py:107-112 | rewriting a transform entry keeps its operators and their order |
| ReaderParsing.RewriteSamples | ppdet/engine/export_utils.py:105-112 | rewriting keeps the number of sample transforms |
| ReaderParsing.LabelList | ppdet/engine/export_utils.py:102 | the i-th label is the i-th category name, in mapping order |
| ReaderParsing.ParseSampleEntry | ppdet/engine/export_utils.py:107-116 | the loop over one entry renders exactly `Entries` of its operators and rewrites exactly its Resize parameters |
| ReaderParsing.ParseBatchEntry | ppdet/engine/export_utils.py:120-127 | one entry yields one PadStride carrying its `pad_to_stride` when it has a PadBatch key, and nothing otherwise |
| ReaderParsing.PadBatchAt | ppdet/engine/export_utils.py:120-127 | when `j` is the first PadBatch key of a batch entry, the PadStride for that entry carries the `pad_to_stride` of key `j` |
| ReaderParsing.ParseBatchTransforms | ppdet/engine/export_utils.py:117-127 | the batch loop yields one PadStride per PadBatch entry, in order |
| ReaderParsing.ParseReader | ppdet/engine/export_utils.py:95-129 | the pipeline is `Preprocess` of the reader as it was; the labels are `LabelList`; the reader's sample transforms become `RewriteSamples` of their old value, with the first entry unchanged |
| ReaderParsing.RenderShape | ppdet/engine/export_utils.py:108-115 | `{'type': key, **params}` puts `type` first and then the parameters in their own order |
| ReaderParsing.RenderType | ppdet/engine/export_utils.py:108-115 | a rendered entry's `type` is its operator's name when the parameters carry no `type` |
| ReaderParsing.EntriesInOrder | ppdet/engine/export_utils.py:106-116 | without fused normalisation, the i-th entry is the i-th operator rendered with its rewritten parameters |
| ReaderParsing.EntryAt | ppdet/engine/export_utils.py:106-116 | without fused normalisation there is one entry per operator, and entry `i` is operator `i` rendered with its rewritten parameters |
| ReaderParsing.EntriesCount | ppdet/engine/export_utils.py:106-116 | one entry per operator, less the NormalizeImage operators when normalisation is fused |
| ReaderParsing.FuseOmitsOnlyNormalize | ppdet/engine/export_utils.py:113-114 | fusing normalisation removes exactly the NormalizeImage entries and leaves the rest in order |
| ReaderParsing.PadStridesCount | ppdet/engine/export_utils.py:117-127 | there is one PadStride per PadBatch entry, each with keys `type` then `stride`, and `type` is PadStride |
| ReaderParsing.FirstTransformIgnored | ppdet/engine/export_utils.py:106 | the first sample transform contributes nothing and is left as it was |
| ReaderParsing.PreprocessLength | ppdet/engine/export_utils.py:95-129 | the pipeline length is the operators after the first entry, less any fused NormalizeImage, plus the PadBatch entries |
| ReaderExamples.ResizeFixedShape | ppdet/engine/export_utils.py:109-112 | with image shape (3, 640, 640), an empty Resize becomes `target_size: [640, 640]` and `interp: 1` |
| ReaderExamples.ResizeDynamicShape | ppdet/engine/export_utils.py:109-112 | with image shape (3, -1, -1), a configured `target_size` stays as it was |
| ReaderExamples.ResizeKeepsInterp | ppdet/engine/export_utils.py:112 | an explicit `interp` is kept |
| ReaderExamples.DecodeResizeNormalize | ppdet/engine/export_utils.py:106-116 | `[Decode, Resize, NormalizeImage]` yields two entries, Resize then NormalizeImage |
| ReaderExamples.DecodeResizeNormalizeFused | ppdet/engine/export_utils.py:113-114 | with fused normalisation the same reader yields the Resize entry alone |
| ReaderExamples.PadBatchStride32 | ppdet/engine/export_utils.py:117-127 | a single PadBatch with stride 32 appends exactly one `{type: PadStride, stride: 32}` after the sample entries |
| InferConfigExport.RcnnOnnx | ppdet/engine/export_utils.py:150-154 | the condition `'RCNN' in infer_arch and export_onnx`, with `export_onnx` defaulting to False |
| InferConfigExport.HasMaskHead | ppdet/engine/export_utils.py:180-181 | the architecture section holds a truthy `mask_head` |
| InferConfigExport.DescriptorKeys | ppdet/engine/export_utils.py:144-188 | the key order in which `_dump_infer_config` builds the descriptor, with the optional keys where they are assigned |
| InferConfigExport.Assemble | ppdet/engine/export_utils.py:144-189 | the descriptor's entries as the five groups the source writes in turn: head, flags, architecture, mask, pipeline and labels |
| InferConfigExport.Descriptor | ppdet/engine/export_utils.py:139-189 | the descriptor, or the fatal failure when the architecture does not resolve; the pipeline is parsed for `image_shape[1:]` |
| InferConfigExport.AssembleFlags | ppdet/engine/export_utils.py:154-158 | when written, `export_onnx` is True and `export_eb` is the configuration's own value; otherwise both are absent |
| InferConfigExport.AssembleMask | ppdet/engine/export_utils.py:180-182 | when written, `mask` is True; otherwise it is absent |
| InferConfigExport.LocateArchitecture | ppdet/engine/export_utils.py:160-172 | the two passes succeed exactly when `Resolve` does, and then append `arch` and `min_subgraph_size` with the resolved values |
| InferConfigExport.DumpInferConfig | ppdet/engine/export_utils.py:139-189 | the result is `Descriptor` of the configuration and the reader as it was; the reader is rewritten only on success; on an unsupported architecture it stops before parsing the reader |
| InferConfigExport.DescriptorKeyOrder | ppdet/engine/export_utils.py:144-188 | the keys are mode, draw_threshold, metric, use_dynamic_shape, [export_onnx, export_eb], arch, min_subgraph_size, [mask], Preprocess, label_list, in that order, each once |
| InferConfigExport.DescriptorFailsIffUnsupported | ppdet/engine/export_utils.py:160-179 | the export fails exactly when no table family occurs in the name, and the failure names the architecture |
| InferConfigExport.DescriptorHead | ppdet/engine/export_utils.py:143-149 | `mode` is paddle, `draw_threshold` is 0.5, `metric` is copied, and `use_dynamic_shape` holds exactly when `image_shape[2]` is -1 |
| InferConfigExport.DescriptorArchitecture | ppdet/engine/export_utils.py:160-172 | `arch` and `min_subgraph_size` are the resolved pair, and the size is the table's value for that family |
| InferConfigExport.DescriptorTail | ppdet/engine/export_utils.py:188-189 | `Preprocess` is the pipeline parsed for `image_shape[1:]`, and `label_list` is the label list |
| InferConfigExport.DescriptorOptionalKeys | ppdet/engine/export_utils.py:150-182 | `export_onnx` is True and `export_eb` is the configuration's `export_eb` (false when absent) exactly for an RCNN architecture with a truthy `export_onnx`, and both are absent otherwise; `mask` is True exactly for a truthy `mask_head`, and absent otherwise |
| InputSpecPruning.Kept | ppdet/engine/export_utils.py:84-89 | the entries of a signature whose names the pruned program declares, in their original order |
| InputSpecPruning.PruneInputSpec | ppdet/engine/export_utils.py:75-92 | the result is a one-element list holding the entries of the first signature whose names the pruned program declares, in their order |
| InputSpecPruning.KeptKeys | ppdet/engine/export_utils.py:84-89 | an input survives exactly when it was an input and the program declares it (the pruned names are a subset of the inputs) |
| InputSpecPruning.KeptGet | ppdet/engine/export_utils.py:84-89 | a kept input carries its original spec, and a dropped one is absent |
| InputSpecPruning.KeptDistinct | ppdet/engine/export_utils.py:84-89 | the pruned signature never repeats a name |
| InputSpecPruning.KeptIdempotent | ppdet/engine/export_utils.py:75-92 | pruning an already pruned signature against the same program changes nothing |
| InputSpecPruning.KeptAll | ppdet/engine/export_utils.py:84-89 | a program that declares every input keeps the whole signature |
| InputSpecPruning.ParseTracker | ppdet/engine/export_utils.py:132-136 | the tracker parameters equal the tracker section, entry for entry and in order |

## Left out

- `TO_STATIC_SPEC` and `apply_to_static` (lines 41-72) wrap a model for Paddle's
  static graph. They hold no logic beyond a table lookup.
- The Paddle program in `_prune_input_spec` is not modelled. `clone`, `_prune`
  and `global_block().var` become the set of variable names the pruned program
  declares. A failed `var` lookup is the absent case of that set.
- Device and static-mode switching (`get_device`, `enable_static`,
  `set_device`, `disable_static`) is not modelled. On the normal path the
  source switches to dynamic mode, whatever mode was current on entry, on the
  device read at line 78; if pruning raises, it stays in static mode.
- File and dataset I/O is not modelled: `dataset_cfg.get_anno`,
  `get_categories`, `yaml.dump`, `open`, `setup_orderdict` and the logger.
  - The category mapping is an input, in mapping order, with names as strings.
  - `str()` of a non-string category name is not modelled.
  - The descriptor is an `OrderedDict`, so its key order is the one written.
    Each `Preprocess` entry is a plain `dict`, and `yaml.dump` (line 191)
    writes plain dicts with sorted keys by default. The order `RenderShape`
    states (type first, then the parameters in their own order) is the order
    in memory, not necessarily the order in the written file.
- The fatal `os._exit(0)` is modelled as a `Failure` result. No process ends.
- A `KeyError` or `IndexError` raised by a missing mandatory key or entry is
  a precondition:
  - `config['metric']`, `config['architecture']` and the architecture section
    are fields of `Config`;
  - `reader_cfg['sample_transforms']` is a field of the reader;
  - a PadBatch entry without `pad_to_stride` is excluded by `HasStride`;
  - `image_shape` shorter than three entries is excluded by a precondition;
  - the `IndexError` of `input_spec[0]` (line 85) on an empty input spec is
    excluded by `PruneInputSpec`'s precondition.
- Aliasing between the parameter dicts of the reader and the pipeline entries
  is not modelled. `p.update(value)` copies the values at that moment, and
  nothing changes them afterwards.
- `DumpInferConfig`: the source writes the descriptor to `path`. The model
  returns it instead.
- ReaderParsing.FuseOmitsOnlyNormalize: stated only for operator parameters
  without a `type` key. A `type` parameter would overwrite the rendered type
  and hide the entry's kind.

## Behaviour worth knowing

- The `break` at line 127 leaves only the loop over one batch entry's keys.
  Every batch entry with a PadBatch key therefore yields one PadStride.
- Labels follow `catid2name`'s own iteration order (line 102).
- Nothing restores the execution mode when pruning raises (lines 78-91).
