/**
 * Architecture resolution of the export step: the ordered table of TensorRT
 * minimum subgraph sizes, the first-match family pass over it and the exact-name
 * override pass that follows.
 */
module Architectures {
  import opened Wrappers
  import opened Dicts

  /** `TRT_MIN_SUBGRAPH`, in its declaration order (the order is significant). */
  const TrtMinSubgraph: Dict<int> := [
    ("YOLO", 3), ("PPYOLOE", 10), ("YOLOX", 20), ("YOLOv5", 20),
    ("RTMDet", 20), ("YOLOv6", 10), ("YOLOv7", 10), ("YOLOv8", 10)
  ]

  /** The architecture names that override the first pass when matched exactly. */
  const ExactNames: seq<string> := ["YOLOX", "PPYOLOE", "YOLOv5", "YOLOv6", "YOLOv7", "YOLOv8"]

  /** Python's `pat in s` on strings: `pat` occurs somewhere in `s`. */
  predicate Contains(s: string, pat: string)
    decreases |s|
  {
    pat <= s || (s != [] && Contains(s[1..], pat))
  }

  /**
   * The index of the first table entry, at `i` or later, whose key occurs in
   * `arch`; None when no entry from `i` on matches.
   */
  function FirstFamilyFrom(arch: string, i: nat): (r: Option<nat>)
    requires i <= |TrtMinSubgraph|
    ensures r.Some? ==> i <= r.value < |TrtMinSubgraph| && Contains(arch, TrtMinSubgraph[r.value].0)
    ensures r.Some? ==> forall j :: i <= j < r.value ==> !Contains(arch, TrtMinSubgraph[j].0)
    ensures r.None? ==> forall j :: i <= j < |TrtMinSubgraph| ==> !Contains(arch, TrtMinSubgraph[j].0)
    decreases |TrtMinSubgraph| - i
  {
    if i == |TrtMinSubgraph| then None
    else if Contains(arch, TrtMinSubgraph[i].0) then Some(i)
    else FirstFamilyFrom(arch, i + 1)
  }

  /** The first pass: the first table entry whose key is a substring of `arch`. */
  function FirstPass(arch: string): Option<(string, int)> {
    match FirstFamilyFrom(arch, 0)
    case Some(j) => Some(TrtMinSubgraph[j])
    case None => None
  }

  /** The keys of the table, in order. */
  lemma TableKeys()
    ensures Keys(TrtMinSubgraph) == ["YOLO", "PPYOLOE", "YOLOX", "YOLOv5", "RTMDet", "YOLOv6", "YOLOv7", "YOLOv8"]
  {
  }

  /** `TRT_MIN_SUBGRAPH[name]` for a name of the table. */
  function MinSubgraphSize(name: string): int
    requires name in Keys(TrtMinSubgraph)
  {
    Get(TrtMinSubgraph, name).value
  }

  /**
   * The (arch, min_subgraph_size) pair the export writes, or None when the
   * architecture is unsupported: an exact name wins over the first pass.
   */
  function Resolve(arch: string): Option<(string, int)> {
    if arch in ExactNames then
      TableKeys();
      Some((arch, MinSubgraphSize(arch)))
    else FirstPass(arch)
  }

  /** Every exact override name also contains the first family key, "YOLO". */
  lemma ExactNamesMatchYolo(name: string)
    ensures name in ExactNames ==> Contains(name, TrtMinSubgraph[0].0)
  {
  }

  /**
   * In every resolved case the size written is the table's value for the
   * arch written: `min_subgraph_size == TRT_MIN_SUBGRAPH[arch]`.
   */
  lemma ResolvedSizeIsTableValue(arch: string)
    requires Resolve(arch).Some?
    ensures Get(TrtMinSubgraph, Resolve(arch).value.0) == Some(Resolve(arch).value.1)
  {
    if arch !in ExactNames {
      TableLookup(FirstFamilyFrom(arch, 0).value);
    }
  }

  /** The table's keys are distinct, so looking an entry's key up yields that entry's size. */
  lemma TableLookup(j: nat)
    requires j < |TrtMinSubgraph|
    ensures Get(TrtMinSubgraph, TrtMinSubgraph[j].0) == Some(TrtMinSubgraph[j].1)
  {
    var t := TrtMinSubgraph;
    TableKeysDistinct();
    KeyAbsent(t[..j], t[j].0);
    GetFirst(t, t[j].0, j);
  }

  /** No key occurs twice in the table: length and last letter already tell the keys apart. */
  lemma TableKeysDistinct()
    ensures forall i, j :: 0 <= i < j < |TrtMinSubgraph| ==> TrtMinSubgraph[i].0 != TrtMinSubgraph[j].0
  {
    var t := TrtMinSubgraph;
    var sig := seq(|t|, i requires 0 <= i < |t| => (|t[i].0|, t[i].0[|t[i].0| - 1]));
    assert sig == [(4, 'O'), (7, 'E'), (5, 'X'), (6, '5'), (6, 't'), (6, '6'), (6, '7'), (6, '8')];
    forall i, j | 0 <= i < j < |t| ensures t[i].0 != t[j].0 {
      assert sig[i] != sig[j];
    }
  }

  /**
   * The export is fatal exactly when no table key is a substring of the
   * architecture: the override pass never rescues a name the first pass missed.
   */
  lemma UnsupportedIffNoFamily(arch: string)
    ensures Resolve(arch).None? <==> forall j :: 0 <= j < |TrtMinSubgraph| ==> !Contains(arch, TrtMinSubgraph[j].0)
  {
    ExactNamesMatchYolo(arch);
  }

  /** An exact override name resolves to itself and its own table value, whatever the first pass found. */
  lemma ExactNameOverrides(arch: string)
    requires arch in ExactNames
    ensures Resolve(arch).Some? && Resolve(arch).value.0 == arch
    ensures Get(TrtMinSubgraph, arch) == Some(Resolve(arch).value.1)
  {
    ResolvedSizeIsTableValue(arch);
  }

  /**
   * Any other name resolves to the first table entry, in table order, whose
   * key it contains; no later entry is considered.
   */
  lemma OtherNamesTakeFirstFamily(arch: string, j: nat)
    requires arch !in ExactNames
    requires j < |TrtMinSubgraph| && Contains(arch, TrtMinSubgraph[j].0)
    requires forall i :: 0 <= i < j ==> !Contains(arch, TrtMinSubgraph[i].0)
    ensures Resolve(arch) == Some(TrtMinSubgraph[j])
  {
  }

  /** A pattern holding a character the string lacks never occurs in it. */
  lemma {:induction false} AbsentChar(s: string, pat: string, c: char)
    requires c in pat && c !in s
    ensures !Contains(s, pat)
    decreases |s|
  {
    if s != [] {
      AbsentChar(s[1..], pat, c);
    }
  }

  /** "RTMDet" contains none of the four keys before its own, so it resolves to itself. */
  lemma ResolveRtmDet()
    ensures Resolve("RTMDet") == Some(("RTMDet", 20))
  {
    forall i | 0 <= i < 4 ensures !Contains("RTMDet", TrtMinSubgraph[i].0) {
      AbsentChar("RTMDet", TrtMinSubgraph[i].0, 'Y');
    }
    OtherNamesTakeFirstFamily("RTMDet", 4);
  }

  /** "PPYOLOEPlus" contains both "YOLO" and "PPYOLOE"; the earlier key wins. */
  lemma ResolvePpYoloEPlus()
    ensures Resolve("PPYOLOEPlus") == Some(("YOLO", 3))
  {
    OtherNamesTakeFirstFamily("PPYOLOEPlus", 0);
  }

  /** "YOLOX" first matches "YOLO" (size 3); the override makes it ("YOLOX", 20). */
  lemma ResolveYoloX()
    ensures FirstPass("YOLOX") == Some(("YOLO", 3))
    ensures Resolve("YOLOX") == Some(("YOLOX", 20))
  {
    TableLookup(2);
  }

  /** "PPYOLOE" first matches "YOLO" (size 3); the override makes it ("PPYOLOE", 10). */
  lemma ResolvePpYoloE()
    ensures FirstPass("PPYOLOE") == Some(("YOLO", 3))
    ensures Resolve("PPYOLOE") == Some(("PPYOLOE", 10))
  {
    TableLookup(1);
  }

  /**
   * Every table key holds a 'Y' or a 'T', so a name with neither matches no
   * family and is unsupported.
   */
  lemma NoFamilyLetterUnsupported(arch: string)
    requires 'Y' !in arch && 'T' !in arch
    ensures Resolve(arch) == None
  {
    AbsentChar(arch, "YOLOv8", 'Y');
    AbsentChar(arch, "YOLOv7", 'Y');
    AbsentChar(arch, "YOLOv6", 'Y');
    AbsentChar(arch, "RTMDet", 'T');
    AbsentChar(arch, "YOLOv5", 'Y');
    AbsentChar(arch, "YOLOX", 'Y');
    AbsentChar(arch, "PPYOLOE", 'Y');
    AbsentChar(arch, "YOLO", 'Y');
    assert FirstFamilyFrom(arch, 0) == None;
    ExactNamesMatchYolo(arch);
  }

  /** A two-stage detector name matches no key: the export is fatal. */
  lemma ResolveFasterRcnn()
    ensures Resolve("FasterRCNN") == None
  {
    NoFamilyLetterUnsupported("FasterRCNN");
  }
}
