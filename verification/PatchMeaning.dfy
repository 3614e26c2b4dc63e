/**
 The JSON Patch emitted for a pod (pkg/handler/handler.go:364-428) and its meaning: applied to the
 document the pod was decoded from, it performs the direct injection and nothing else.
 */
module PatchMeaning {
  import opened Common
  import opened Json
  import opened PodModel
  import opened Injection

  // The paths as written in the source; `~1` is the escaped slash of the label key.
  const LABELS_PATH := "/metadata/labels"
  const LABEL_PATH := "/metadata/labels/eks.amazonaws.com~1pod-identity"
  const VOLUMES_PATH := "/spec/volumes"
  const FIRST_VOLUME_PATH := "/spec/volumes/0"
  const CONTAINERS_PATH := "/spec/containers"
  const INIT_CONTAINERS_PATH := "/spec/initContainers"

  function AddOp(path: string, value: Json): PatchOperation {
    PatchOperation("add", path, value)
  }

  function LabelOps(pod: Pod, cfg: PodPatchConfig): seq<PatchOperation> {
    if cfg.credentials.None? then []
    else if pod.labels.None? then [AddOp(LABELS_PATH, JObj(map[LABEL := JStr("enabled")]))]
    else [AddOp(LABEL_PATH, JStr("enabled"))]
  }

  function VolumeOps(pod: Pod, cfg: PodPatchConfig): seq<PatchOperation> {
    if HasVolume(pod, cfg.volumeName) then []
    else if pod.volumes.None? then [AddOp(VOLUMES_PATH, JArr([EncodeVolume(TokenVolume(cfg))]))]
    else [AddOp(FIRST_VOLUME_PATH, EncodeVolume(TokenVolume(cfg)))]
  }

  function ContainersOp(containers: seq<Container>): PatchOperation {
    AddOp(CONTAINERS_PATH, JArr(EncodeItems(containers, EncodeContainer)))
  }

  function InitContainersOps(containers: seq<Container>): seq<PatchOperation> {
    if containers == [] then []
    else [AddOp(INIT_CONTAINERS_PATH, JArr(EncodeItems(containers, EncodeContainer)))]
  }

  /** `getPodSpecPatch`, on values. */
  function PodSpecPatch(pod: Pod, cfg: PodPatchConfig, region: string): seq<PatchOperation> {
    var r := InjectPod(pod, cfg, region);
    LabelOps(pod, cfg) + VolumeOps(pod, cfg) + [ContainersOp(r.containers)] + InitContainersOps(r.initContainers)
  }

  // ---------------------------------------------------------------- paths

  lemma PlainPath(tokens: seq<string>)
    requires forall i | 0 <= i < |tokens| :: '~' !in tokens[i] && '/' !in tokens[i]
    ensures |tokens| == 2 ==> ParsePointer("/" + tokens[0] + "/" + tokens[1]) == Some(tokens)
    ensures |tokens| == 3 ==> ParsePointer("/" + tokens[0] + "/" + tokens[1] + "/" + tokens[2]) == Some(tokens)
  {
    forall i | 0 <= i < |tokens| ensures Escape(tokens[i]) == tokens[i] {
      EscapePlain(tokens[i]);
    }
    PointerRoundTrip(tokens);
    hide Escape, ParsePointer;
    if |tokens| == 2 {
      PointerOfTwo(tokens);
    } else if |tokens| == 3 {
      PointerOfThree(tokens);
    }
  }

  lemma PointerOfTwo(tokens: seq<string>)
    requires |tokens| == 2
    ensures Pointer(tokens) == "/" + Escape(tokens[0]) + "/" + Escape(tokens[1])
  {
    hide Escape;
    assert tokens[1..][1..] == [];
    assert Pointer(tokens[1..]) == "/" + Escape(tokens[1]);
  }

  lemma PointerOfThree(tokens: seq<string>)
    requires |tokens| == 3
    ensures Pointer(tokens) == "/" + Escape(tokens[0]) + "/" + Escape(tokens[1]) + "/" + Escape(tokens[2])
  {
    hide Escape;
    PointerOfTwo(tokens[1..]);
  }

  lemma EscapedLabel()
    ensures Escape(LABEL) == "eks.amazonaws.com~1pod-identity"
  {
    hide Escape;
    assert LABEL == "eks.amazonaws.com" + ("/" + "pod-identity");
    EscapeConcat("eks.amazonaws.com", "/" + "pod-identity");
    EscapeConcat("/", "pod-identity");
    EscapePlain("eks.amazonaws.com");
    EscapePlain("pod-identity");
    EscapeSlash();
    assert "eks.amazonaws.com" + ("~1" + "pod-identity") == "eks.amazonaws.com~1pod-identity";
  }

  lemma EscapeSlash()
    ensures Escape("/") == "~1"
  {
    assert "/"[1..] == "";
  }

  lemma LabelsPrefix()
    ensures "/" + "metadata" + "/" + "labels" + "/" == "/metadata/labels/"
  {
  }

  lemma LabelPathText()
    ensures "/" + "metadata" + "/" + "labels" + "/" + "eks.amazonaws.com~1pod-identity"
            == "/metadata/labels/eks.amazonaws.com~1pod-identity"
  {
    LabelsPrefix();
    assert "/metadata/labels/" + "eks.amazonaws.com~1pod-identity" == "/metadata/labels/eks.amazonaws.com~1pod-identity";
  }

  /** The escaped label key, as written in the patch, points at the label. */
  lemma LabelPath()
    ensures ParsePointer(LABEL_PATH) == Some(["metadata", "labels", LABEL])
  {
    hide Escape, ParsePointer;
    var tokens := ["metadata", "labels", LABEL];
    EscapedLabel();
    EscapePlain("metadata");
    EscapePlain("labels");
    PointerRoundTrip(tokens);
    PointerOfThree(tokens);
    LabelPathText();
  }

  lemma LabelsPath()
    ensures ParsePointer(LABELS_PATH) == Some(["metadata", "labels"])
  {
    hide ParsePointer;
    PlainPath(["metadata", "labels"]);
    assert "/" + "metadata" + "/" + "labels" == "/metadata/labels";
  }

  lemma VolumesPath()
    ensures ParsePointer(VOLUMES_PATH) == Some(["spec", "volumes"])
  {
    hide ParsePointer;
    PlainPath(["spec", "volumes"]);
    assert "/" + "spec" + "/" + "volumes" == "/spec/volumes";
  }

  lemma FirstVolumePath()
    ensures ParsePointer(FIRST_VOLUME_PATH) == Some(["spec", "volumes", "0"])
  {
    hide ParsePointer;
    PlainPath(["spec", "volumes", "0"]);
    assert "/" + "spec" + "/" + "volumes" + "/" + "0" == "/spec/volumes/0";
  }

  lemma ContainersPath()
    ensures ParsePointer(CONTAINERS_PATH) == Some(["spec", "containers"])
  {
    hide ParsePointer;
    PlainPath(["spec", "containers"]);
    assert "/" + "spec" + "/" + "containers" == "/spec/containers";
  }

  lemma InitContainersPath()
    ensures ParsePointer(INIT_CONTAINERS_PATH) == Some(["spec", "initContainers"])
  {
    hide ParsePointer;
    PlainPath(["spec", "initContainers"]);
    assert "/" + "spec" + "/" + "initContainers" == "/spec/initContainers";
  }

  // ---------------------------------------------------------------- documents

  /** The document really has an object there (null and absent decode like an empty one). */
  predicate HasPart(doc: Json, part: string) {
    doc.JObj? && part in doc.members && doc.members[part].JObj?
  }

  /** Replaces or adds one member of `metadata` or `spec` and touches nothing else. */
  function SetIn(doc: Json, part: string, key: string, value: Json): Json
    requires HasPart(doc, part)
  {
    JObj(doc.members[part := JObj(doc.members[part].members[key := value])])
  }

  function LabelsJson(metadata: Members): Json {
    var labels := Member(metadata, "labels");
    JObj((if labels.JObj? then labels.members else map[])[LABEL := JStr("enabled")])
  }

  function VolumesJson(spec: Members, cfg: PodPatchConfig): Json {
    var volumes := Member(spec, "volumes");
    JArr([EncodeVolume(TokenVolume(cfg))] + (if volumes.JArr? then volumes.items else []))
  }

  /** Everything the patch needs to find in the document. */
  predicate Patchable(doc: Json, cfg: PodPatchConfig) {
    HasPart(doc, "spec") && (cfg.credentials.Some? ==> HasPart(doc, "metadata"))
  }

  function InjectLabels(doc: Json, cfg: PodPatchConfig): (r: Json)
    requires Patchable(doc, cfg)
    ensures HasPart(r, "spec")
  {
    if cfg.credentials.None? then doc
    else SetIn(doc, "metadata", "labels", LabelsJson(doc.members["metadata"].members))
  }

  function InjectVolumes(doc: Json, pod: Pod, cfg: PodPatchConfig): (r: Json)
    requires HasPart(doc, "spec")
    ensures HasPart(r, "spec")
  {
    if HasVolume(pod, cfg.volumeName) then doc
    else SetIn(doc, "spec", "volumes", VolumesJson(doc.members["spec"].members, cfg))
  }

  function InjectContainerLists(doc: Json, r: Pod): Json
    requires HasPart(doc, "spec")
  {
    var mid := SetIn(doc, "spec", "containers", JArr(EncodeItems(r.containers, EncodeContainer)));
    if r.initContainers == [] then mid
    else SetIn(mid, "spec", "initContainers", JArr(EncodeItems(r.initContainers, EncodeContainer)))
  }

  /** The injected document: four members set, everything else as it was. */
  function InjectDoc(doc: Json, pod: Pod, cfg: PodPatchConfig, region: string): Json
    requires Patchable(doc, cfg)
  {
    InjectContainerLists(InjectVolumes(InjectLabels(doc, cfg), pod, cfg), InjectPod(pod, cfg, region))
  }

  // ---------------------------------------------------------------- one operation at a time

  lemma AddInPart(doc: Json, part: string, key: string, value: Json)
    requires Part(doc, part).Some?
    ensures Add(doc, [part, key], value) == if HasPart(doc, part) then Some(SetIn(doc, part, key, value)) else None
  {
    assert [part, key][1..] == [key];
  }

  lemma AddBelowPart(doc: Json, part: string, key: string, t: string, value: Json)
    requires Part(doc, part).Some?
    ensures Add(doc, [part, key, t], value) ==
            if HasPart(doc, part) && key in doc.members[part].members && Add(doc.members[part].members[key], [t], value).Some?
            then Some(SetIn(doc, part, key, Add(doc.members[part].members[key], [t], value).value)) else None
  {
    assert [part, key, t][1..] == [key, t] && [key, t][1..] == [t];
  }

  lemma ApplyOne(doc: Json, path: string, value: Json, tokens: seq<string>)
    requires ParsePointer(path) == Some(tokens)
    ensures ApplyPatch(doc, [AddOp(path, value)]) == Add(doc, tokens, value)
  {
    var ops := [AddOp(path, value)];
    assert ops[1..] == [];
    assert ApplyOperation(doc, ops[0]) == Add(doc, tokens, value);
  }

  /** What the parts of a document decode to. */
  predicate DecodesTo(doc: Json, pod: Pod) {
    && Part(doc, "metadata").Some? && Part(doc, "spec").Some?
    && DecodeStrings(Member(Part(doc, "metadata").value, "labels")) == Some(pod.labels)
    && VolumesDecode(doc, pod)
  }

  predicate VolumesDecode(doc: Json, pod: Pod) {
    Part(doc, "spec").Some? && DecodeList(Member(Part(doc, "spec").value, "volumes"), DecodeVolume) == Some(pod.volumes)
  }

  lemma NilLabelsStep(doc: Json, labels: Json)
    requires Part(doc, "metadata").Some?
    ensures ApplyPatch(doc, [AddOp(LABELS_PATH, labels)])
            == if HasPart(doc, "metadata") then Some(SetIn(doc, "metadata", "labels", labels)) else None
  {
    LabelsPath();
    hide ParsePointer, ApplyPatch, LABELS_PATH;
    ApplyOne(doc, LABELS_PATH, labels, ["metadata", "labels"]);
    AddInPart(doc, "metadata", "labels", labels);
    hide Add;
  }

  lemma AddToObject(m: Members, key: string, v: Json)
    ensures Add(JObj(m), [key], v) == Some(JObj(m[key := v]))
  {
  }

  lemma LabelMapStep(doc: Json, v: Json)
    requires HasPart(doc, "metadata") && Member(doc.members["metadata"].members, "labels").JObj?
    ensures ApplyPatch(doc, [AddOp(LABEL_PATH, v)])
            == Some(SetIn(doc, "metadata", "labels", JObj(Member(doc.members["metadata"].members, "labels").members[LABEL := v])))
  {
    LabelPath();
    hide ParsePointer, ApplyPatch, LABEL_PATH;
    ApplyOne(doc, LABEL_PATH, v, ["metadata", "labels", LABEL]);
    AddBelowPart(doc, "metadata", "labels", LABEL, v);
    AddToObject(Member(doc.members["metadata"].members, "labels").members, LABEL, v);
    hide Add;
  }

  lemma LabelCases(doc: Json, pod: Pod, cfg: PodPatchConfig)
    requires DecodesTo(doc, pod) && cfg.credentials.Some?
    ensures if pod.labels.None?
            then LabelOps(pod, cfg) == [AddOp(LABELS_PATH, JObj(map[LABEL := JStr("enabled")]))]
                 && (HasPart(doc, "metadata") ==>
                       LabelsJson(doc.members["metadata"].members) == JObj(map[LABEL := JStr("enabled")]))
            else LabelOps(pod, cfg) == [AddOp(LABEL_PATH, JStr("enabled"))]
                 && HasPart(doc, "metadata") && Member(doc.members["metadata"].members, "labels").JObj?
                 && LabelsJson(doc.members["metadata"].members)
                    == JObj(Member(doc.members["metadata"].members, "labels").members[LABEL := JStr("enabled")])
  {
    hide LABELS_PATH, LABEL_PATH, VolumesDecode;
  }

  lemma LabelStep(doc: Json, pod: Pod, cfg: PodPatchConfig)
    requires DecodesTo(doc, pod)
    ensures ApplyPatch(doc, LabelOps(pod, cfg)) ==
            if cfg.credentials.None? then Some(doc)
            else if HasPart(doc, "metadata")
            then Some(SetIn(doc, "metadata", "labels", LabelsJson(doc.members["metadata"].members)))
            else None
  {
    if cfg.credentials.Some? {
      assert Part(doc, "metadata").Some?;
      LabelCases(doc, pod, cfg);
      hide LabelOps, ApplyPatch, LabelsJson, SetIn, Member, Part, DecodesTo, LABELS_PATH, LABEL_PATH;
      if pod.labels.None? {
        NilLabelsStep(doc, JObj(map[LABEL := JStr("enabled")]));
      } else {
        LabelMapStep(doc, JStr("enabled"));
      }
    }
  }

  lemma AddFirst(items: seq<Json>, v: Json)
    ensures Add(JArr(items), ["0"], v) == Some(JArr([v] + items))
  {
    assert items[..0] + [v] + items[0..] == [v] + items;
  }

  lemma VolumeListStep(doc: Json, v: Json)
    requires HasPart(doc, "spec") && Member(doc.members["spec"].members, "volumes").JArr?
    ensures ApplyPatch(doc, [AddOp(FIRST_VOLUME_PATH, v)])
            == Some(SetIn(doc, "spec", "volumes", JArr([v] + Member(doc.members["spec"].members, "volumes").items)))
  {
    FirstVolumePath();
    hide ParsePointer, ApplyPatch, VOLUMES_PATH, FIRST_VOLUME_PATH;
    ApplyOne(doc, FIRST_VOLUME_PATH, v, ["spec", "volumes", "0"]);
    AddBelowPart(doc, "spec", "volumes", "0", v);
    AddFirst(Member(doc.members["spec"].members, "volumes").items, v);
    hide Add;
  }

  lemma NilVolumesStep(doc: Json, v: Json)
    requires HasPart(doc, "spec")
    ensures ApplyPatch(doc, [AddOp(VOLUMES_PATH, JArr([v]))]) == Some(SetIn(doc, "spec", "volumes", JArr([v])))
  {
    VolumesPath();
    hide ParsePointer, ApplyPatch, VOLUMES_PATH, FIRST_VOLUME_PATH;
    ApplyOne(doc, VOLUMES_PATH, JArr([v]), ["spec", "volumes"]);
    AddInPart(doc, "spec", "volumes", JArr([v]));
    hide Add;
  }

  lemma VolumesKind(doc: Json, pod: Pod)
    requires HasPart(doc, "spec") && VolumesDecode(doc, pod)
    ensures var volumes := Member(doc.members["spec"].members, "volumes");
            if pod.volumes.None? then volumes.JNull? else volumes.JArr?
  {
    hide DecodeItems;
  }

  lemma VolumeCases(doc: Json, pod: Pod, cfg: PodPatchConfig)
    requires HasPart(doc, "spec") && VolumesDecode(doc, pod) && !HasVolume(pod, cfg.volumeName)
    ensures var v := EncodeVolume(TokenVolume(cfg));
            var volumes := Member(doc.members["spec"].members, "volumes");
            if pod.volumes.None?
            then VolumeOps(pod, cfg) == [AddOp(VOLUMES_PATH, JArr([v]))]
                 && InjectVolumes(doc, pod, cfg) == SetIn(doc, "spec", "volumes", JArr([v]))
            else VolumeOps(pod, cfg) == [AddOp(FIRST_VOLUME_PATH, v)] && volumes.JArr?
                 && InjectVolumes(doc, pod, cfg) == SetIn(doc, "spec", "volumes", JArr([v] + volumes.items))
  {
    hide EncodeVolume, TokenVolume, VOLUMES_PATH, FIRST_VOLUME_PATH, SetIn;
    VolumesKind(doc, pod);
    hide VolumesDecode, Member;
    var v := EncodeVolume(TokenVolume(cfg));
    assert [v] + [] == [v];
  }

  lemma VolumeStep(doc: Json, pod: Pod, cfg: PodPatchConfig)
    requires HasPart(doc, "spec") && VolumesDecode(doc, pod)
    ensures ApplyPatch(doc, VolumeOps(pod, cfg)) == Some(InjectVolumes(doc, pod, cfg))
  {
    if !HasVolume(pod, cfg.volumeName) {
      VolumeCases(doc, pod, cfg);
      hide *;
      var v := EncodeVolume(TokenVolume(cfg));
      if pod.volumes.None? {
        NilVolumesStep(doc, v);
      } else {
        VolumeListStep(doc, v);
      }
    }
  }

  lemma NoSpecFails(doc: Json, pod: Pod, cfg: PodPatchConfig, r: Pod)
    requires VolumesDecode(doc, pod) && !HasPart(doc, "spec")
    ensures ApplyPatch(doc, VolumeOps(pod, cfg) + ([ContainersOp(r.containers)] + InitContainersOps(r.initContainers))) == None
  {
    hide EncodeItems, TokenVolume, EncodeVolume, HasVolume, InitContainersOps;
    var v, c, i := VolumeOps(pod, cfg), ContainersOp(r.containers), InitContainersOps(r.initContainers);
    ApplyPatchConcat(doc, v, [c] + i);
    ApplyPatchConcat(doc, [c], i);
    ContainersPath();
    VolumesPath();
    hide ParsePointer;
    assert pod.volumes.None?;
    ApplyOne(doc, CONTAINERS_PATH, c.value, ["spec", "containers"]);
    AddInPart(doc, "spec", "containers", c.value);
    var volumes := JArr([EncodeVolume(TokenVolume(cfg))]);
    ApplyOne(doc, VOLUMES_PATH, volumes, ["spec", "volumes"]);
    AddInPart(doc, "spec", "volumes", volumes);
  }

  lemma ContainersStep(doc: Json, r: Pod)
    requires HasPart(doc, "spec")
    ensures ApplyPatch(doc, [ContainersOp(r.containers)] + InitContainersOps(r.initContainers))
            == Some(InjectContainerLists(doc, r))
  {
    hide EncodeItems;
    ContainersPath();
    InitContainersPath();
    hide ParsePointer;
    var first := ContainersOp(r.containers);
    ApplyPatchConcat(doc, [first], InitContainersOps(r.initContainers));
    ApplyOne(doc, CONTAINERS_PATH, first.value, ["spec", "containers"]);
    AddInPart(doc, "spec", "containers", first.value);
    var mid := SetIn(doc, "spec", "containers", first.value);
    if r.initContainers != [] {
      var second := InitContainersOps(r.initContainers)[0];
      ApplyOne(mid, INIT_CONTAINERS_PATH, second.value, ["spec", "initContainers"]);
      AddInPart(mid, "spec", "initContainers", second.value);
    }
  }

  // ---------------------------------------------------------------- the whole patch

  lemma DecodedParts(doc: Json)
    requires DecodePod(doc).Some?
    ensures DecodesTo(doc, DecodePod(doc).value)
  {
  }

  /** Setting a member of `metadata` leaves the specification alone. */
  lemma MetadataKeepsSpec(doc: Json, key: string, value: Json)
    requires HasPart(doc, "metadata")
    ensures var doc' := SetIn(doc, "metadata", key, value);
            Part(doc', "spec") == Part(doc, "spec") && HasPart(doc', "spec") == HasPart(doc, "spec")
  {
  }

  function SpecOps(pod: Pod, cfg: PodPatchConfig, r: Pod): seq<PatchOperation> {
    VolumeOps(pod, cfg) + ([ContainersOp(r.containers)] + InitContainersOps(r.initContainers))
  }

  lemma SpecStep(doc: Json, pod: Pod, cfg: PodPatchConfig, r: Pod)
    requires VolumesDecode(doc, pod)
    ensures ApplyPatch(doc, SpecOps(pod, cfg, r)) ==
            if HasPart(doc, "spec") then Some(InjectContainerLists(InjectVolumes(doc, pod, cfg), r)) else None
  {
    hide ApplyPatch, VolumeOps, ContainersOp, InitContainersOps, InjectVolumes, InjectContainerLists, VolumesDecode;
    if HasPart(doc, "spec") {
      ApplyPatchConcat(doc, VolumeOps(pod, cfg), [ContainersOp(r.containers)] + InitContainersOps(r.initContainers));
      VolumeStep(doc, pod, cfg);
      ContainersStep(InjectVolumes(doc, pod, cfg), r);
    } else {
      NoSpecFails(doc, pod, cfg, r);
    }
  }

  lemma PatchIsLabelThenSpec(pod: Pod, cfg: PodPatchConfig, region: string)
    ensures PodSpecPatch(pod, cfg, region) == LabelOps(pod, cfg) + SpecOps(pod, cfg, InjectPod(pod, cfg, region))
  {
    hide InjectPod, LabelOps, VolumeOps, ContainersOp, InitContainersOps;
  }

  /**
   Patch correctness. For every document that decodes to a pod, the emitted operations apply in order
   without error exactly when the document has the objects they reach into, and then the result is the
   injected document.
   */
  lemma {:induction false} PatchAppliesAsInjection(doc: Json, cfg: PodPatchConfig, region: string)
    requires DecodePod(doc).Some?
    ensures var pod := DecodePod(doc).value;
            ApplyPatch(doc, PodSpecPatch(pod, cfg, region))
            == if Patchable(doc, cfg) then Some(InjectDoc(doc, pod, cfg, region)) else None
  {
    var pod := DecodePod(doc).value;
    DecodedParts(doc);
    PatchIsLabelThenSpec(pod, cfg, region);
    hide InjectPod, DecodePod, ApplyPatch, LabelOps, SpecOps, PodSpecPatch, InjectVolumes, InjectContainerLists, LabelsJson,
      Part, SetIn;
    var r := InjectPod(pod, cfg, region);
    ApplyPatchConcat(doc, LabelOps(pod, cfg), SpecOps(pod, cfg, r));
    LabelStep(doc, pod, cfg);
    if cfg.credentials.None? {
      SpecStep(doc, pod, cfg, r);
    } else if HasPart(doc, "metadata") {
      var labels := LabelsJson(doc.members["metadata"].members);
      MetadataKeepsSpec(doc, "labels", labels);
      SpecStep(SetIn(doc, "metadata", "labels", labels), pod, cfg, r);
    }
  }

  // ---------------------------------------------------------------- what the patched document means

  lemma DecodeItemsSnoc<T>(items: seq<Json>, x: Json, decode: Json -> Option<T>)
    requires decode(x).Some? && DecodeItems(items, decode).Some?
    ensures DecodeItems(items + [x], decode) == Some(DecodeItems(items, decode).value + [decode(x).value])
  {
    assert (items + [x])[..|items|] == items;
  }

  lemma DecodeItemsFront<T>(items: seq<Json>, decode: Json -> Option<T>)
    requires items != [] && DecodeItems(items, decode).Some?
    ensures var front, last := items[..|items| - 1], items[|items| - 1];
            && DecodeItems(front, decode).Some? && decode(last).Some?
            && DecodeItems(items, decode).value == DecodeItems(front, decode).value + [decode(last).value]
  {
  }

  lemma DecodeNoItems<T>(decode: Json -> Option<T>)
    ensures DecodeItems([], decode) == Some([])
  {
  }

  lemma {:induction false} DecodeItemsCons<T>(x: Json, items: seq<Json>, decode: Json -> Option<T>)
    requires decode(x).Some? && DecodeItems(items, decode).Some?
    ensures DecodeItems([x] + items, decode) == Some([decode(x).value] + DecodeItems(items, decode).value)
  {
    hide DecodeItems;
    var d := decode(x).value;
    if items == [] {
      DecodeNoItems(decode);
      DecodeItemsSnoc([], x, decode);
      assert [x] + items == [] + [x] && [] + [d] == [d] + [];
    } else {
      var front, last := items[..|items| - 1], items[|items| - 1];
      DecodeItemsFront(items, decode);
      DecodeItemsCons(x, front, decode);
      DecodeItemsSnoc([x] + front, last, decode);
      assert [x] + items == [x] + front + [last];
      var ds := DecodeItems(front, decode).value;
      assert [d] + (ds + [decode(last).value]) == [d] + ds + [decode(last).value];
    }
  }

  lemma TokenVolumeRoundTrip(cfg: PodPatchConfig)
    ensures DecodeVolume(EncodeVolume(TokenVolume(cfg))) == Some(TokenVolume(cfg))
  {
    var v := TokenVolume(cfg);
    assert "name" !in v.other;
    assert EncodeVolume(v).members - {"name"} == v.other;
  }

  lemma VolumesDecodeAfter(spec: Members, pod: Pod, cfg: PodPatchConfig)
    requires DecodeList(Member(spec, "volumes"), DecodeVolume) == Some(pod.volumes)
    requires !HasVolume(pod, cfg.volumeName)
    ensures DecodeList(VolumesJson(spec, cfg), DecodeVolume) == Some(InjectVolume(pod, cfg))
  {
    TokenVolumeRoundTrip(cfg);
    hide HasVolume, EncodeVolume, TokenVolume, DecodeVolume, Member;
    var volumes := Member(spec, "volumes");
    var items := if volumes.JArr? then volumes.items else [];
    DecodeItemsCons(EncodeVolume(TokenVolume(cfg)), items, DecodeVolume);
    assert [TokenVolume(cfg)] + [] == [TokenVolume(cfg)];
  }

  lemma LabelsDecodeAfter(metadata: Members, pod: Pod, cfg: PodPatchConfig)
    requires DecodeStrings(Member(metadata, "labels")) == Some(pod.labels) && cfg.credentials.Some?
    ensures DecodeStrings(LabelsJson(metadata)) == Some(InjectLabel(pod, cfg))
  {
    hide Member;
    var labels := LabelsJson(metadata).members;
    assert forall k | k in labels :: DecodeStr(labels[k]).Some?;
    assert DecodeStrings(LabelsJson(metadata)).value.value == InjectLabel(pod, cfg).value;
  }

  lemma InjectedContainerOk(c: Container, cfg: PodPatchConfig, region: string, tokenFile: string)
    requires ContainerOk(c)
    ensures ContainerOk(InjectUnlessSkipped(c, cfg, region, tokenFile))
  {
    hide HasSts, HasRegion, HasWebIdentity, HasCredentials, Mounts, Complete, STS_VAR, REGION_VAR, DEFAULT_REGION_VAR,
      ROLE_VAR, WEB_TOKEN_VAR, URI_VAR, AUTH_TOKEN_VAR;
    var added := Additions(c.env, cfg, region, tokenFile);
    assert forall i | 0 <= i < |added| :: added[i].other == map[];
  }

  lemma InjectedPodOk(pod: Pod, cfg: PodPatchConfig, region: string)
    requires PodOk(pod)
    ensures PodOk(InjectPod(pod, cfg, region))
  {
    hide ContainerOk, InjectUnlessSkipped, InjectAll, TokenFile;
    var r := InjectPod(pod, cfg, region);
    forall i | 0 <= i < |r.containers| ensures ContainerOk(r.containers[i]) {
      InjectedContainerOk(pod.containers[i], cfg, region, TokenFile(pod.nodeSelector, cfg));
    }
    forall i | 0 <= i < |r.initContainers| ensures ContainerOk(r.initContainers[i]) {
      InjectedContainerOk(pod.initContainers[i], cfg, region, TokenFile(pod.nodeSelector, cfg));
    }
  }

  /** `metadata` and `spec` of the injected document. */
  function MetadataAfter(metadata: Members, cfg: PodPatchConfig): Members {
    if cfg.credentials.None? then metadata else metadata["labels" := LabelsJson(metadata)]
  }

  function SpecAfter(spec: Members, pod: Pod, cfg: PodPatchConfig, r: Pod): Members {
    var spec1 := if HasVolume(pod, cfg.volumeName) then spec else spec["volumes" := VolumesJson(spec, cfg)];
    var spec2 := spec1["containers" := JArr(EncodeItems(r.containers, EncodeContainer))];
    if r.initContainers == [] then spec2
    else spec2["initContainers" := JArr(EncodeItems(r.initContainers, EncodeContainer))]
  }

  lemma InjectDocParts(doc: Json, pod: Pod, cfg: PodPatchConfig, region: string)
    requires Patchable(doc, cfg) && Part(doc, "metadata").Some?
    ensures var doc' := InjectDoc(doc, pod, cfg, region);
            && Part(doc', "metadata") == Some(MetadataAfter(Part(doc, "metadata").value, cfg))
            && Part(doc', "spec") == Some(SpecAfter(Part(doc, "spec").value, pod, cfg, InjectPod(pod, cfg, region)))
  {
    hide InjectPod, HasVolume, EncodeItems, LabelsJson, VolumesJson;
  }

  lemma MetadataMembers(metadata: Members, cfg: PodPatchConfig)
    ensures var after := MetadataAfter(metadata, cfg);
            && Member(after, "annotations") == Member(metadata, "annotations")
            && Member(after, "labels") == if cfg.credentials.None? then Member(metadata, "labels") else LabelsJson(metadata)
  {
    hide LabelsJson;
  }

  lemma SpecMembers(spec: Members, pod: Pod, cfg: PodPatchConfig, r: Pod)
    ensures var after := SpecAfter(spec, pod, cfg, r);
            && Member(after, "serviceAccountName") == Member(spec, "serviceAccountName")
            && Member(after, "nodeSelector") == Member(spec, "nodeSelector")
            && Member(after, "volumes")
               == (if HasVolume(pod, cfg.volumeName) then Member(spec, "volumes") else VolumesJson(spec, cfg))
            && Member(after, "containers") == JArr(EncodeItems(r.containers, EncodeContainer))
            && Member(after, "initContainers")
               == (if r.initContainers == [] then Member(spec, "initContainers")
                   else JArr(EncodeItems(r.initContainers, EncodeContainer)))
  {
    hide HasVolume, EncodeItems, VolumesJson;
  }

  /** The members of the decoded pod, one by one. */
  predicate MetadataDecodes(metadata: Members, pod: Pod) {
    && DecodeStrings(Member(metadata, "labels")) == Some(pod.labels)
    && var annotations := DecodeStrings(Member(metadata, "annotations"));
    annotations.Some? && OrEmptyMap(annotations.value) == pod.annotations
  }

  predicate ContainersDecode(j: Json, cs: seq<Container>) {
    var list := DecodeList(j, DecodeContainer);
    list.Some? && OrEmpty(list.value) == cs
  }

  predicate SpecDecodes(spec: Members, pod: Pod) {
    && DecodeStr(Member(spec, "serviceAccountName")) == Some(pod.serviceAccountName)
    && (var nodeSelector := DecodeStrings(Member(spec, "nodeSelector"));
        nodeSelector.Some? && OrEmptyMap(nodeSelector.value) == pod.nodeSelector)
    && DecodeList(Member(spec, "volumes"), DecodeVolume) == Some(pod.volumes)
    && ContainersDecode(Member(spec, "containers"), pod.containers)
    && ContainersDecode(Member(spec, "initContainers"), pod.initContainers)
  }

  lemma DecodePartsIsMemberwise(metadata: Members, spec: Members, pod: Pod)
    ensures DecodeParts(metadata, spec) == Some(pod) <==> MetadataDecodes(metadata, pod) && SpecDecodes(spec, pod)
  {
    hide Member, DecodeStrings, DecodeList, DecodeStr, OrEmpty, OrEmptyMap;
  }

  lemma InjectedMetadataDecodes(metadata: Members, pod: Pod, cfg: PodPatchConfig, region: string)
    requires MetadataDecodes(metadata, pod)
    ensures MetadataDecodes(MetadataAfter(metadata, cfg), InjectPod(pod, cfg, region))
  {
    MetadataMembers(metadata, cfg);
    if cfg.credentials.Some? {
      LabelsDecodeAfter(metadata, pod, cfg);
    }
    hide Member, DecodeStrings, LabelsJson, MetadataAfter, InjectVolume, InjectAll, OrEmptyMap;
  }

  lemma InjectedContainersDecode(cs: seq<Container>)
    requires forall i | 0 <= i < |cs| :: ContainerOk(cs[i])
    ensures ContainersDecode(JArr(EncodeItems(cs, EncodeContainer)), cs)
  {
    hide ContainerOk, EncodeItems, DecodeItems, EncodeContainer, DecodeContainer;
    ContainersRoundTrip(cs);
  }

  lemma InjectedSpecDecodes(spec: Members, pod: Pod, cfg: PodPatchConfig, region: string)
    requires SpecDecodes(spec, pod) && PodOk(pod)
    ensures var r := InjectPod(pod, cfg, region);
            SpecDecodes(SpecAfter(spec, pod, cfg, r), r)
  {
    var r := InjectPod(pod, cfg, region);
    InjectedPodOk(pod, cfg, region);
    SpecMembers(spec, pod, cfg, r);
    if !HasVolume(pod, cfg.volumeName) {
      VolumesDecodeAfter(spec, pod, cfg);
    }
    InjectedContainersDecode(r.containers);
    InjectedContainersDecode(r.initContainers);
    hide Member, DecodeStrings, DecodeList, DecodeStr, HasVolume, EncodeItems, VolumesJson, SpecAfter, InjectAll,
      ContainerOk, TokenFile, TokenVolume, ContainersDecode, OrEmptyMap, InjectLabel;
  }

  /**
   The patched document decodes to the injected pod: patching then reading is reading then injecting.
   */
  lemma PatchedDocumentDecodes(doc: Json, cfg: PodPatchConfig, region: string)
    requires DecodePod(doc).Some? && Patchable(doc, cfg)
    ensures var pod := DecodePod(doc).value;
            var patched := ApplyPatch(doc, PodSpecPatch(pod, cfg, region));
            patched.Some? && DecodePod(patched.value) == Some(InjectPod(pod, cfg, region))
  {
    var pod := DecodePod(doc).value;
    var r := InjectPod(pod, cfg, region);
    var metadata, spec := Part(doc, "metadata").value, Part(doc, "spec").value;
    DecodedPodOk(doc);
    PatchAppliesAsInjection(doc, cfg, region);
    InjectDocParts(doc, pod, cfg, region);
    hide InjectPod, InjectDoc, ApplyPatch, PodSpecPatch, DecodeParts, MetadataDecodes, SpecDecodes, MetadataAfter,
      SpecAfter, PodOk, Part, Patchable;
    DecodePartsIsMemberwise(metadata, spec, pod);
    InjectedMetadataDecodes(metadata, pod, cfg, region);
    InjectedSpecDecodes(spec, pod, cfg, region);
    DecodePartsIsMemberwise(MetadataAfter(metadata, cfg), SpecAfter(spec, pod, cfg, r), r);
  }

  /**
   The flag on documents: `changed` as getPodSpecPatch reports it. If it is false, the patched document
   decodes to the pod it was computed from; in web-identity mode, if it is true, it does not.
   */
  lemma FlagIsExactOnDocuments(doc: Json, cfg: PodPatchConfig, region: string, changed: bool)
    requires DecodePod(doc).Some? && Patchable(doc, cfg)
    requires changed <==> cfg.credentials.Some? || InjectPod(DecodePod(doc).value, cfg, region) != DecodePod(doc).value
    ensures var patched := ApplyPatch(doc, PodSpecPatch(DecodePod(doc).value, cfg, region));
            && patched.Some?
            && (!changed ==> DecodePod(patched.value) == DecodePod(doc))
            && (cfg.credentials.None? && changed ==> DecodePod(patched.value) != DecodePod(doc))
  {
    hide InjectPod, ApplyPatch, PodSpecPatch, DecodePod, Patchable;
    PatchedDocumentDecodes(doc, cfg, region);
  }

  /** `doc'` differs from `doc` at most in labels, volumes and container lists, and in labels only if `labelled`. */
  predicate TouchesOnly(doc: Json, doc': Json, labelled: bool)
    requires HasPart(doc, "spec") && (labelled ==> HasPart(doc, "metadata"))
  {
    var rest := if labelled then {"metadata", "spec"} else {"spec"};
    && HasPart(doc', "spec")
    && doc'.members - rest == doc.members - rest
    && SameBut(doc.members["spec"].members, doc'.members["spec"].members, {"volumes", "containers", "initContainers"})
    && (labelled ==>
          && HasPart(doc', "metadata")
          && SameBut(doc.members["metadata"].members, doc'.members["metadata"].members, {"labels"}))
  }

  predicate SameBut(a: Members, b: Members, keys: set<string>) {
    a - keys == b - keys
  }

  lemma InjectDocTouchesOnly(doc: Json, pod: Pod, cfg: PodPatchConfig, region: string)
    requires Patchable(doc, cfg)
    ensures TouchesOnly(doc, InjectDoc(doc, pod, cfg, region), cfg.credentials.Some?)
  {
    hide InjectPod, InjectDoc, SpecAfter, MetadataAfter, SameBut;
    InjectDocShape(doc, pod, cfg, region);
    SpecAfterKeeps(doc.members["spec"].members, pod, cfg, InjectPod(pod, cfg, region));
    if cfg.credentials.Some? {
      MetadataAfterKeeps(doc.members["metadata"].members, cfg);
    }
  }

  /** The patch touches labels, volumes and container lists; every other member of the document stays. */
  lemma PatchTouchesNothingElse(doc: Json, cfg: PodPatchConfig, region: string)
    requires DecodePod(doc).Some? && Patchable(doc, cfg)
    ensures var patched := ApplyPatch(doc, PodSpecPatch(DecodePod(doc).value, cfg, region));
            patched.Some? && TouchesOnly(doc, patched.value, cfg.credentials.Some?)
  {
    hide InjectPod, ApplyPatch, PodSpecPatch, DecodePod, InjectDoc, TouchesOnly;
    PatchAppliesAsInjection(doc, cfg, region);
    InjectDocTouchesOnly(doc, DecodePod(doc).value, cfg, region);
  }

  lemma MetadataAfterKeeps(metadata: Members, cfg: PodPatchConfig)
    ensures SameBut(metadata, MetadataAfter(metadata, cfg), {"labels"})
  {
    hide LabelsJson;
  }

  lemma SpecAfterKeeps(spec: Members, pod: Pod, cfg: PodPatchConfig, r: Pod)
    ensures SameBut(spec, SpecAfter(spec, pod, cfg, r), {"volumes", "containers", "initContainers"})
  {
    hide HasVolume, EncodeItems, VolumesJson;
  }

  // ---------------------------------------------------------------- patching twice

  lemma InjectDocShape(doc: Json, pod: Pod, cfg: PodPatchConfig, region: string)
    requires Patchable(doc, cfg)
    ensures var spec := JObj(SpecAfter(doc.members["spec"].members, pod, cfg, InjectPod(pod, cfg, region)));
            InjectDoc(doc, pod, cfg, region) ==
            if cfg.credentials.None? then JObj(doc.members["spec" := spec])
            else JObj(doc.members["metadata" := JObj(MetadataAfter(doc.members["metadata"].members, cfg))]["spec" := spec])
  {
    hide InjectPod, HasVolume, EncodeItems, LabelsJson, VolumesJson;
  }

  lemma SpecAfterTwice(spec: Members, pod: Pod, cfg: PodPatchConfig, again: PodPatchConfig, r: Pod)
    requires HasVolume(r, again.volumeName)
    ensures SpecAfter(SpecAfter(spec, pod, cfg, r), r, again, r) == SpecAfter(spec, pod, cfg, r)
  {
    hide HasVolume, EncodeItems, VolumesJson;
  }

  lemma MetadataAfterTwice(metadata: Members, cfg: PodPatchConfig, again: PodPatchConfig)
    requires cfg.credentials.Some? == again.credentials.Some?
    ensures MetadataAfter(MetadataAfter(metadata, cfg), again) == MetadataAfter(metadata, cfg)
  {
    if cfg.credentials.Some? {
      var labels := LabelsJson(metadata).members;
      assert labels[LABEL := JStr("enabled")] == labels;
    }
  }

  lemma StaysPatchable(doc: Json, pod: Pod, cfg: PodPatchConfig, again: PodPatchConfig, region: string)
    requires Patchable(doc, cfg) && cfg.credentials.Some? == again.credentials.Some?
    ensures Patchable(InjectDoc(doc, pod, cfg, region), again)
  {
    hide InjectPod, InjectDoc, MetadataAfter, SpecAfter;
    InjectDocShape(doc, pod, cfg, region);
  }

  lemma SetTwice(doc: Members, metadata: Json, spec: Json)
    ensures var once := doc["metadata" := metadata]["spec" := spec];
            once["metadata" := metadata]["spec" := spec] == once && once["metadata"] == metadata
    ensures doc["spec" := spec]["spec" := spec] == doc["spec" := spec]
  {
  }

  lemma InjectDocTwice(doc: Json, pod: Pod, cfg: PodPatchConfig, again: PodPatchConfig, region: string)
    requires Patchable(doc, cfg) && SameShape(cfg, again)
    ensures var once := InjectDoc(doc, pod, cfg, region);
            Patchable(once, again) && InjectDoc(once, InjectPod(pod, cfg, region), again, region) == once
  {
    hide InjectPod, InjectDoc, MetadataAfter, SpecAfter, HasVolume;
    var r := InjectPod(pod, cfg, region);
    var once := InjectDoc(doc, pod, cfg, region);
    InjectionIsIdempotent(pod, cfg, again, region);
    InjectedVolumeExists(pod, cfg, region);
    StaysPatchable(doc, pod, cfg, again, region);
    InjectDocShape(doc, pod, cfg, region);
    InjectDocShape(once, r, again, region);
    var spec := SpecAfter(doc.members["spec"].members, pod, cfg, r);
    SpecAfterTwice(doc.members["spec"].members, pod, cfg, again, r);
    if cfg.credentials.Some? {
      var metadata := MetadataAfter(doc.members["metadata"].members, cfg);
      MetadataAfterTwice(doc.members["metadata"].members, cfg, again);
      SetTwice(doc.members, JObj(metadata), JObj(spec));
    } else {
      SetTwice(doc.members, JNull, JObj(spec));
    }
  }

  /**
   Mutation is idempotent on documents: the patch computed for an already patched document, with any
   other expiration draw, audience, role or paths, changes nothing in it.
   */
  lemma PatchingTwice(doc: Json, cfg: PodPatchConfig, again: PodPatchConfig, region: string)
    requires DecodePod(doc).Some? && Patchable(doc, cfg) && SameShape(cfg, again)
    ensures var once := ApplyPatch(doc, PodSpecPatch(DecodePod(doc).value, cfg, region));
            && once.Some? && DecodePod(once.value).Some?
            && ApplyPatch(once.value, PodSpecPatch(DecodePod(once.value).value, again, region)) == once
  {
    hide InjectPod, InjectDoc, ApplyPatch, PodSpecPatch, DecodePod, Patchable, SameShape;
    var pod := DecodePod(doc).value;
    PatchedDocumentDecodes(doc, cfg, region);
    PatchAppliesAsInjection(doc, cfg, region);
    PatchAppliesAsInjection(InjectDoc(doc, pod, cfg, region), again, region);
    InjectDocTwice(doc, pod, cfg, again, region);
  }
}
