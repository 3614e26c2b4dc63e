/**
 What a reader of the documents finds: the members the webhook reads out of the pod it is given, and the
 members another reader finds in the patched one, by JSON Pointer (pkg/handler/handler.go:311-429,
 534-545).
 */
module PatchReadings {
  import opened Common
  import opened Json
  import opened PodModel
  import opened Injection
  import opened PatchMeaning

  // ---------------------------------------------------------------- what the webhook reads

  /** A text member; absent and null read as empty. */
  function TextOf(j: Option<Json>): string {
    if j.Some? && j.value.JStr? then j.value.s else ""
  }

  /** A text that may be absent. */
  function MaybeText(j: Option<Json>): Option<string> {
    if j.None? then None else Some(TextOf(j))
  }

  function Entry(m: map<string, string>, k: string): Option<string> {
    if k in m then Some(m[k]) else None
  }

  lemma EvaluatePart(doc: Json, part: string, k: string, rest: seq<string>)
    requires Part(doc, part).Some?
    ensures Evaluate(doc, [part, k] + rest) ==
            var m := Part(doc, part).value;
            if k in m then Evaluate(m[k], rest) else None
  {
    assert [part, k] + rest == [part] + ([k] + rest);
    if doc.JObj? {
      EvaluateMember(doc.members, part, [k] + rest);
      if part in doc.members && doc.members[part].JObj? {
        EvaluateMember(doc.members[part].members, k, rest);
      }
    }
  }

  lemma EvaluateTwo(doc: Json, part: string, k: string)
    requires Part(doc, part).Some?
    ensures Evaluate(doc, [part, k]) ==
            var m := Part(doc, part).value;
            if k in m then Some(m[k]) else None
  {
    EvaluatePart(doc, part, k, []);
    assert [part, k] + [] == [part, k];
  }

  lemma EvaluateThree(doc: Json, part: string, k: string, x: string)
    requires Part(doc, part).Some?
    ensures Evaluate(doc, [part, k, x]) ==
            var j := Member(Part(doc, part).value, k);
            if j.JObj? && x in j.members then Some(j.members[x])
            else if j.JArr? then Evaluate(j, [x])
            else None
  {
    EvaluatePart(doc, part, k, [x]);
    assert [part, k] + [x] == [part, k, x];
    var j := Member(Part(doc, part).value, k);
    if j.JObj? {
      EvaluateMember(j.members, x, []);
      assert [x] + [] == [x];
    }
  }

  lemma DecodedStringsRead(j: Json, k: string)
    requires DecodeStrings(j).Some?
    ensures Entry(OrEmptyMap(DecodeStrings(j).value), k)
            == MaybeText(if j.JObj? && k in j.members then Some(j.members[k]) else None)
  {
  }

  lemma StringsAt(doc: Json, part: string, name: string, k: string)
    requires Part(doc, part).Some? && DecodeStrings(Member(Part(doc, part).value, name)).Some?
    ensures Entry(OrEmptyMap(DecodeStrings(Member(Part(doc, part).value, name)).value), k)
            == MaybeText(Evaluate(doc, [part, name, k]))
  {
    EvaluateThree(doc, part, name, k);
    DecodedStringsRead(Member(Part(doc, part).value, name), k);
    hide Evaluate, Part, DecodeStr, MaybeText, Entry;
  }

  /** The account, labels, annotations and node selector of the decoded pod are those of the document. */
  lemma DecodedPodReads(doc: Json, k: string)
    requires DecodePod(doc).Some?
    ensures var pod := DecodePod(doc).value;
            && pod.serviceAccountName == TextOf(Evaluate(doc, ["spec", "serviceAccountName"]))
            && LabelOf(pod, k) == MaybeText(Evaluate(doc, ["metadata", "labels", k]))
            && Entry(pod.annotations, k) == MaybeText(Evaluate(doc, ["metadata", "annotations", k]))
            && Entry(pod.nodeSelector, k) == MaybeText(Evaluate(doc, ["spec", "nodeSelector", k]))
  {
    EvaluateTwo(doc, "spec", "serviceAccountName");
    hide Evaluate, DecodeStrings, DecodeList;
    StringsAt(doc, "metadata", "labels", k);
    StringsAt(doc, "metadata", "annotations", k);
    StringsAt(doc, "spec", "nodeSelector", k);
  }

  // ---------------------------------------------------------------- the token volume

  /** Where the patched document describes the token. */
  function TokenPath(member: string): seq<string> {
    ["spec", "volumes", "0", "projected", "sources", "0", "serviceAccountToken", member]
  }

  lemma ProjectionReads(cfg: PodPatchConfig)
    ensures Evaluate(TokenProjection(cfg), ["expirationSeconds"]) == Some(JNum(cfg.tokenExpiration))
    ensures Evaluate(TokenProjection(cfg), ["path"]) == Some(JStr(cfg.tokenPath))
    ensures Evaluate(TokenProjection(cfg), ["audience"]) == if cfg.audience == "" then None else Some(JStr(cfg.audience))
  {
    var m := TokenProjection(cfg).members;
    EvaluateMember(m, "expirationSeconds", []);
    EvaluateMember(m, "path", []);
    EvaluateMember(m, "audience", []);
    assert ["expirationSeconds"] + [] == ["expirationSeconds"] && ["path"] + [] == ["path"] && ["audience"] + [] == ["audience"];
  }

  lemma VolumeReads(cfg: PodPatchConfig, member: string)
    ensures Evaluate(EncodeVolume(TokenVolume(cfg)), ["name"]) == Some(JStr(cfg.volumeName))
    ensures Evaluate(EncodeVolume(TokenVolume(cfg)), ["projected", "sources", "0", "serviceAccountToken", member])
            == Evaluate(TokenProjection(cfg), [member])
  {
    hide TokenProjection, Evaluate;
    var volume := EncodeVolume(TokenVolume(cfg)).members;
    var source := map["serviceAccountToken" := TokenProjection(cfg)];
    var projected := map["sources" := JArr([JObj(source)])];
    assert volume["projected"] == JObj(projected);
    EvaluateMember(volume, "name", []);
    assert Evaluate(JStr(cfg.volumeName), []) == Some(JStr(cfg.volumeName)) by { EvaluateNothing(JStr(cfg.volumeName)); }
    assert ["name"] + [] == ["name"];
    assert Numeral(0) == "0";
    EvaluateMember(source, "serviceAccountToken", [member]);
    EvaluateItem([JObj(source)], 0, ["serviceAccountToken", member]);
    EvaluateMember(projected, "sources", ["0", "serviceAccountToken", member]);
    EvaluateMember(volume, "projected", ["sources", "0", "serviceAccountToken", member]);
    assert ["serviceAccountToken"] + [member] == ["serviceAccountToken", member];
    assert ["0"] + ["serviceAccountToken", member] == ["0", "serviceAccountToken", member];
    assert ["sources"] + ["0", "serviceAccountToken", member] == ["sources", "0", "serviceAccountToken", member];
    assert ["projected"] + ["sources", "0", "serviceAccountToken", member]
        == ["projected", "sources", "0", "serviceAccountToken", member];
  }

  lemma EvaluateNothing(j: Json)
    ensures Evaluate(j, []) == Some(j)
  {
  }

  lemma ArrayReads(doc: Json, list: string, items: seq<Json>, i: nat, rest: seq<string>)
    requires i < |items| && Part(doc, "spec").Some? && Member(Part(doc, "spec").value, list) == JArr(items)
    ensures Evaluate(doc, ["spec", list, Numeral(i)] + rest) == Evaluate(items[i], rest)
  {
    assert list in Part(doc, "spec").value && Part(doc, "spec").value[list] == JArr(items);
    hide *;
    EvaluatePart(doc, "spec", list, [Numeral(i)] + rest);
    EvaluateItem(items, i, rest);
    assert ["spec", list] + ([Numeral(i)] + rest) == ["spec", list, Numeral(i)] + rest;
  }

  lemma FirstVolumeReads(doc: Json, items: seq<Json>, rest: seq<string>)
    requires items != [] && Part(doc, "spec").Some? && Member(Part(doc, "spec").value, "volumes") == JArr(items)
    ensures Evaluate(doc, ["spec", "volumes", "0"] + rest) == Evaluate(items[0], rest)
  {
    assert Numeral(0) == "0";
    hide *;
    ArrayReads(doc, "volumes", items, 0, rest);
  }

  /** The injected volume comes first in the patched document. */
  lemma PatchedVolumes(doc: Json, cfg: PodPatchConfig, region: string)
    requires DecodePod(doc).Some? && Patchable(doc, cfg) && !HasVolume(DecodePod(doc).value, cfg.volumeName)
    ensures
      var patched := ApplyPatch(doc, PodSpecPatch(DecodePod(doc).value, cfg, region));
      && patched.Some? && Part(patched.value, "spec").Some?
      && var volumes := Member(Part(patched.value, "spec").value, "volumes");
      volumes.JArr? && volumes.items != [] && volumes.items[0] == EncodeVolume(TokenVolume(cfg))
  {
    var pod := DecodePod(doc).value;
    PatchAppliesAsInjection(doc, cfg, region);
    InjectDocParts(doc, pod, cfg, region);
    SpecMembers(Part(doc, "spec").value, pod, cfg, InjectPod(pod, cfg, region));
    hide InjectPod, InjectDoc, ApplyPatch, PodSpecPatch, HasVolume, EncodeVolume, TokenVolume, SpecAfter;
  }

  /** What a reader finds as the first volume. */
  predicate ShowsToken(doc: Json, cfg: PodPatchConfig) {
    && Evaluate(doc, ["spec", "volumes", "0", "name"]) == Some(JStr(cfg.volumeName))
    && Evaluate(doc, TokenPath("expirationSeconds")) == Some(JNum(cfg.tokenExpiration))
    && Evaluate(doc, TokenPath("path")) == Some(JStr(cfg.tokenPath))
    && Evaluate(doc, TokenPath("audience")) == if cfg.audience == "" then None else Some(JStr(cfg.audience))
  }

  lemma FirstVolumeShows(doc: Json, items: seq<Json>, cfg: PodPatchConfig)
    requires items != [] && Part(doc, "spec").Some? && Member(Part(doc, "spec").value, "volumes") == JArr(items)
    requires items[0] == EncodeVolume(TokenVolume(cfg))
    ensures ShowsToken(doc, cfg)
  {
    hide EncodeVolume, TokenVolume, TokenProjection, Evaluate, Part, Member, TokenPath;
    NameReads(doc, items, cfg);
    ProjectionReads(cfg);
    TokenReads(doc, items, cfg, "expirationSeconds");
    TokenReads(doc, items, cfg, "path");
    TokenReads(doc, items, cfg, "audience");
  }

  lemma NameReads(doc: Json, items: seq<Json>, cfg: PodPatchConfig)
    requires items != [] && Part(doc, "spec").Some? && Member(Part(doc, "spec").value, "volumes") == JArr(items)
    requires items[0] == EncodeVolume(TokenVolume(cfg))
    ensures Evaluate(doc, ["spec", "volumes", "0", "name"]) == Some(JStr(cfg.volumeName))
  {
    hide EncodeVolume, TokenVolume, Evaluate, Part, Member;
    FirstVolumeReads(doc, items, ["name"]);
    assert ["spec", "volumes", "0"] + ["name"] == ["spec", "volumes", "0", "name"];
    VolumeReads(cfg, "name");
  }

  /**
   The token a pod gets, read from the patched document. For every document the patch applies to and that
   lacks the volume, the first volume has the configured name and projects a service-account token with
   the configured expiration, path and - unless empty - audience.
   */
  lemma PatchedToken(doc: Json, cfg: PodPatchConfig, region: string)
    requires DecodePod(doc).Some? && Patchable(doc, cfg) && !HasVolume(DecodePod(doc).value, cfg.volumeName)
    ensures var patched := ApplyPatch(doc, PodSpecPatch(DecodePod(doc).value, cfg, region));
            patched.Some? && ShowsToken(patched.value, cfg)
  {
    hide *;
    PatchedVolumes(doc, cfg, region);
    var patched := ApplyPatch(doc, PodSpecPatch(DecodePod(doc).value, cfg, region)).value;
    FirstVolumeShows(patched, Member(Part(patched, "spec").value, "volumes").items, cfg);
  }

  lemma TokenReads(doc: Json, items: seq<Json>, cfg: PodPatchConfig, member: string)
    requires items != [] && Part(doc, "spec").Some? && Member(Part(doc, "spec").value, "volumes") == JArr(items)
    requires items[0] == EncodeVolume(TokenVolume(cfg))
    ensures Evaluate(doc, TokenPath(member)) == Evaluate(TokenProjection(cfg), [member])
  {
    hide EncodeVolume, TokenVolume, TokenProjection, Evaluate, Part, Member;
    var rest := ["projected", "sources", "0", "serviceAccountToken", member];
    FirstVolumeReads(doc, items, rest);
    VolumeReads(cfg, member);
    assert ["spec", "volumes", "0"] + rest == TokenPath(member);
  }

  // ---------------------------------------------------------------- the containers

  lemma {:induction false} EncodedItem<T>(xs: seq<T>, encode: T -> Json, i: nat)
    requires i < |xs|
    ensures |EncodeItems(xs, encode)| == |xs| && EncodeItems(xs, encode)[i] == encode(xs[i])
  {
    var last := |xs| - 1;
    if i < last {
      EncodedItem(xs[..last], encode, i);
    } else if last > 0 {
      EncodedItem(xs[..last], encode, 0);
    }
  }

  /** The text a variable reads as; an empty value is omitted. */
  lemma EnvVarReads(e: EnvVar)
    requires EnvVarOk(e)
    ensures Evaluate(EncodeEnvVar(e), ["name"]) == Some(JStr(e.name))
    ensures Evaluate(EncodeEnvVar(e), ["value"]) == if e.value == "" then None else Some(JStr(e.value))
  {
    var m := EncodeEnvVar(e).members;
    EvaluateMember(m, "name", []);
    EvaluateMember(m, "value", []);
    assert ["name"] + [] == ["name"] && ["value"] + [] == ["value"];
  }

  lemma MountReads(v: VolumeMount)
    requires MountOk(v)
    ensures Evaluate(EncodeMount(v), ["name"]) == Some(JStr(v.name))
    ensures Evaluate(EncodeMount(v), ["mountPath"]) == Some(JStr(v.mountPath))
    ensures Evaluate(EncodeMount(v), ["readOnly"]) == if v.readOnly then Some(JBool(true)) else None
  {
    var m := EncodeMount(v).members;
    EvaluateMember(m, "name", []);
    EvaluateMember(m, "mountPath", []);
    EvaluateMember(m, "readOnly", []);
    assert ["name"] + [] == ["name"] && ["mountPath"] + [] == ["mountPath"] && ["readOnly"] + [] == ["readOnly"];
  }

  lemma ContainerNameReads(c: Container)
    requires ContainerOk(c)
    ensures Evaluate(EncodeContainer(c), ["name"]) == Some(JStr(c.name))
  {
    ContainerMembers(c);
    hide EncodeItems, EncodeContainer, EnvVarOk, MountOk, Evaluate;
    EvaluateMember(EncodeContainer(c).members, "name", []);
    EvaluateNothing(JStr(c.name));
    assert ["name"] + [] == ["name"];
  }

  lemma EnvMember(c: Container)
    requires ContainerOk(c) && c.env != []
    ensures var m := EncodeContainer(c).members;
            EncodeContainer(c) == JObj(m) && "env" in m && m["env"] == JArr(EncodeItems(c.env, EncodeEnvVar))
  {
    hide EncodeItems, EnvVarOk, MountOk;
  }

  lemma MountsMember(c: Container)
    requires ContainerOk(c) && c.mounts != []
    ensures var m := EncodeContainer(c).members;
            EncodeContainer(c) == JObj(m) && "volumeMounts" in m && m["volumeMounts"] == JArr(EncodeItems(c.mounts, EncodeMount))
  {
    hide EncodeItems, EnvVarOk, MountOk;
  }

  lemma ContainerEnvReads(c: Container, j: nat, rest: seq<string>)
    requires ContainerOk(c) && j < |c.env|
    ensures Evaluate(EncodeContainer(c), ["env", Numeral(j)] + rest) == Evaluate(EncodeEnvVar(c.env[j]), rest)
  {
    hide *;
    EnvMember(c);
    EvaluateMember(EncodeContainer(c).members, "env", [Numeral(j)] + rest);
    EncodedItem(c.env, EncodeEnvVar, j);
    EvaluateItem(EncodeItems(c.env, EncodeEnvVar), j, rest);
    assert ["env"] + ([Numeral(j)] + rest) == ["env", Numeral(j)] + rest;
  }

  lemma ContainerMountReads(c: Container, j: nat, rest: seq<string>)
    requires ContainerOk(c) && j < |c.mounts|
    ensures Evaluate(EncodeContainer(c), ["volumeMounts", Numeral(j)] + rest) == Evaluate(EncodeMount(c.mounts[j]), rest)
  {
    hide *;
    MountsMember(c);
    EvaluateMember(EncodeContainer(c).members, "volumeMounts", [Numeral(j)] + rest);
    EncodedItem(c.mounts, EncodeMount, j);
    EvaluateItem(EncodeItems(c.mounts, EncodeMount), j, rest);
    assert ["volumeMounts"] + ([Numeral(j)] + rest) == ["volumeMounts", Numeral(j)] + rest;
  }

  lemma ListReads(doc: Json, list: string, cs: seq<Container>, i: nat, rest: seq<string>)
    requires Part(doc, "spec").Some? && i < |cs|
    requires Member(Part(doc, "spec").value, list) == JArr(EncodeItems(cs, EncodeContainer))
    ensures Evaluate(doc, ["spec", list, Numeral(i)] + rest) == Evaluate(EncodeContainer(cs[i]), rest)
  {
    hide *;
    EncodedItem(cs, EncodeContainer, i);
    ArrayReads(doc, list, EncodeItems(cs, EncodeContainer), i, rest);
  }

  /** Where a reader finds a container, one of its variables, one of its mounts. */
  function ContainerAt(list: string, i: nat): seq<string> {
    ["spec", list, Numeral(i)]
  }

  function VariableAt(list: string, i: nat, j: nat): seq<string> {
    ["spec", list, Numeral(i), "env", Numeral(j)]
  }

  function VolumeMountAt(list: string, i: nat, j: nat): seq<string> {
    ["spec", list, Numeral(i), "volumeMounts", Numeral(j)]
  }

  /** What a reader finds under `spec/<list>` for the containers `cs`: names, variables and mounts. */
  ghost predicate Shows(doc: Json, list: string, cs: seq<Container>) {
    && (forall i | 0 <= i < |cs| :: Evaluate(doc, ContainerAt(list, i) + ["name"]) == Some(JStr(cs[i].name)))
    && (forall i, j | 0 <= i < |cs| && 0 <= j < |cs[i].env| :: ShowsVar(doc, VariableAt(list, i, j), cs[i].env[j]))
    && (forall i, j | 0 <= i < |cs| && 0 <= j < |cs[i].mounts| :: ShowsMount(doc, VolumeMountAt(list, i, j), cs[i].mounts[j]))
  }

  predicate ShowsVar(doc: Json, at: seq<string>, e: EnvVar) {
    && Evaluate(doc, at + ["name"]) == Some(JStr(e.name))
    && Evaluate(doc, at + ["value"]) == if e.value == "" then None else Some(JStr(e.value))
  }

  predicate ShowsMount(doc: Json, at: seq<string>, v: VolumeMount) {
    && Evaluate(doc, at + ["name"]) == Some(JStr(v.name))
    && Evaluate(doc, at + ["mountPath"]) == Some(JStr(v.mountPath))
    && Evaluate(doc, at + ["readOnly"]) == if v.readOnly then Some(JBool(true)) else None
  }

  lemma ListShowsVar(doc: Json, list: string, cs: seq<Container>, i: nat, j: nat)
    requires Part(doc, "spec").Some? && i < |cs| && j < |cs[i].env| && ContainerOk(cs[i])
    requires Member(Part(doc, "spec").value, list) == JArr(EncodeItems(cs, EncodeContainer))
    ensures ShowsVar(doc, VariableAt(list, i, j), cs[i].env[j])
  {
    assert EnvVarOk(cs[i].env[j]);
    hide EncodeItems, EncodeContainer, VariableAt, Evaluate, Part, Member, ContainerOk, EncodeEnvVar;
    EnvVarReads(cs[i].env[j]);
    VarAt(doc, list, cs, i, j, "name");
    VarAt(doc, list, cs, i, j, "value");
  }

  lemma VarAt(doc: Json, list: string, cs: seq<Container>, i: nat, j: nat, member: string)
    requires Part(doc, "spec").Some? && i < |cs| && j < |cs[i].env| && ContainerOk(cs[i])
    requires Member(Part(doc, "spec").value, list) == JArr(EncodeItems(cs, EncodeContainer))
    ensures Evaluate(doc, VariableAt(list, i, j) + [member]) == Evaluate(EncodeEnvVar(cs[i].env[j]), [member])
  {
    hide EncodeItems, EncodeContainer, Numeral, Evaluate, Part, Member, ContainerOk, EncodeEnvVar;
    ContainerEnvReads(cs[i], j, [member]);
    ListReads(doc, list, cs, i, ["env", Numeral(j)] + [member]);
    assert ["spec", list, Numeral(i)] + (["env", Numeral(j)] + [member]) == VariableAt(list, i, j) + [member];
  }

  lemma ListShowsMount(doc: Json, list: string, cs: seq<Container>, i: nat, j: nat)
    requires Part(doc, "spec").Some? && i < |cs| && j < |cs[i].mounts| && ContainerOk(cs[i])
    requires Member(Part(doc, "spec").value, list) == JArr(EncodeItems(cs, EncodeContainer))
    ensures ShowsMount(doc, VolumeMountAt(list, i, j), cs[i].mounts[j])
  {
    assert MountOk(cs[i].mounts[j]);
    hide EncodeItems, EncodeContainer, VolumeMountAt, Evaluate, Part, Member, ContainerOk, EncodeMount;
    MountReads(cs[i].mounts[j]);
    MountAt(doc, list, cs, i, j, "name");
    MountAt(doc, list, cs, i, j, "mountPath");
    MountAt(doc, list, cs, i, j, "readOnly");
  }

  lemma MountAt(doc: Json, list: string, cs: seq<Container>, i: nat, j: nat, member: string)
    requires Part(doc, "spec").Some? && i < |cs| && j < |cs[i].mounts| && ContainerOk(cs[i])
    requires Member(Part(doc, "spec").value, list) == JArr(EncodeItems(cs, EncodeContainer))
    ensures Evaluate(doc, VolumeMountAt(list, i, j) + [member])
            == Evaluate(EncodeMount(cs[i].mounts[j]), [member])
  {
    hide EncodeItems, EncodeContainer, Numeral, Evaluate, Part, Member, ContainerOk, EncodeMount;
    ContainerMountReads(cs[i], j, [member]);
    ListReads(doc, list, cs, i, ["volumeMounts", Numeral(j)] + [member]);
    assert ["spec", list, Numeral(i)] + (["volumeMounts", Numeral(j)] + [member])
        == VolumeMountAt(list, i, j) + [member];
  }

  lemma NameAt(doc: Json, list: string, cs: seq<Container>, i: nat)
    requires Part(doc, "spec").Some? && i < |cs| && ContainerOk(cs[i])
    requires Member(Part(doc, "spec").value, list) == JArr(EncodeItems(cs, EncodeContainer))
    ensures Evaluate(doc, ContainerAt(list, i) + ["name"]) == Some(JStr(cs[i].name))
  {
    hide EncodeItems, EncodeContainer, Numeral, Evaluate, Part, Member, ContainerOk;
    ContainerNameReads(cs[i]);
    ListReads(doc, list, cs, i, ["name"]);
  }

  lemma ListShows(doc: Json, list: string, cs: seq<Container>)
    requires Part(doc, "spec").Some? && forall i | 0 <= i < |cs| :: ContainerOk(cs[i])
    requires Member(Part(doc, "spec").value, list) == JArr(EncodeItems(cs, EncodeContainer))
    ensures Shows(doc, list, cs)
  {
    hide EncodeItems, EncodeContainer, ContainerAt, VariableAt, VolumeMountAt, Evaluate, Part, Member, ContainerOk, ShowsVar,
      ShowsMount;
    forall i | 0 <= i < |cs| ensures Evaluate(doc, ContainerAt(list, i) + ["name"]) == Some(JStr(cs[i].name)) {
      NameAt(doc, list, cs, i);
    }
    forall i, j | 0 <= i < |cs| && 0 <= j < |cs[i].env|
      ensures ShowsVar(doc, VariableAt(list, i, j), cs[i].env[j])
    {
      ListShowsVar(doc, list, cs, i, j);
    }
    forall i, j | 0 <= i < |cs| && 0 <= j < |cs[i].mounts|
      ensures ShowsMount(doc, VolumeMountAt(list, i, j), cs[i].mounts[j])
    {
      ListShowsMount(doc, list, cs, i, j);
    }
  }

  /**
   The containers, read from the patched document: every container of both lists shows the name, the
   variables and the mounts of the injected pod, under the member names of the Kubernetes API.
   */
  lemma PatchedContainers(doc: Json, cfg: PodPatchConfig, region: string)
    requires DecodePod(doc).Some? && Patchable(doc, cfg)
    ensures
      var pod := DecodePod(doc).value;
      var patched, r := ApplyPatch(doc, PodSpecPatch(pod, cfg, region)), InjectPod(pod, cfg, region);
      && patched.Some?
      && Shows(patched.value, "containers", r.containers)
      && Shows(patched.value, "initContainers", r.initContainers)
  {
    var pod := DecodePod(doc).value;
    var r := InjectPod(pod, cfg, region);
    PatchAppliesAsInjection(doc, cfg, region);
    InjectDocParts(doc, pod, cfg, region);
    SpecMembers(Part(doc, "spec").value, pod, cfg, r);
    DecodedPodOk(doc);
    InjectedPodOk(pod, cfg, region);
    hide InjectPod, InjectDoc, ApplyPatch, PodSpecPatch, HasVolume, SpecAfter, EncodeItems, EncodeContainer, Shows, ContainerOk,
      Member, DecodePod, Patchable;
    var patched := InjectDoc(doc, pod, cfg, region);
    ListShows(patched, "containers", r.containers);
    if r.initContainers != [] {
      ListShows(patched, "initContainers", r.initContainers);
    } else {
      NothingToShow(patched, "initContainers");
    }
  }

  lemma NothingToShow(doc: Json, list: string)
    ensures Shows(doc, list, [])
  {
  }
}
