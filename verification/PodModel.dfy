/**
 The part of a pod that the webhook reads and writes, with Go's JSON decoding and encoding of it. Each
 record keeps the members the webhook does not know in `other`, so decoding loses nothing.
 */
module PodModel {
  import opened Common
  import opened Json

  type Members = map<string, Json>

  datatype EnvVar = EnvVar(name: string, value: string, other: Members)
  datatype VolumeMount = VolumeMount(name: string, readOnly: bool, mountPath: string, other: Members)
  datatype Container = Container(name: string, env: seq<EnvVar>, mounts: seq<VolumeMount>, other: Members)
  datatype Volume = Volume(name: string, other: Members)

  /** `None` is Go's nil map or slice: the member is absent or null. */
  datatype Pod = Pod(
    labels: Option<map<string, string>>,
    annotations: map<string, string>,
    serviceAccountName: string,
    nodeSelector: map<string, string>,
    volumes: Option<seq<Volume>>,
    containers: seq<Container>,
    initContainers: seq<Container>
  )

  // ---------------------------------------------------------------- decoding

  /** An object's members; null decodes to a zero struct. */
  function Fields(j: Json): Option<Members> {
    match j
    case JNull => Some(map[])
    case JObj(m) => Some(m)
    case _ => None
  }

  /** An absent member decodes like null. */
  function Member(m: Members, k: string): Json {
    if k in m then m[k] else JNull
  }

  function DecodeStr(j: Json): Option<string> {
    match j
    case JNull => Some("")
    case JStr(s) => Some(s)
    case _ => None
  }

  function DecodeBool(j: Json): Option<bool> {
    match j
    case JNull => Some(false)
    case JBool(b) => Some(b)
    case _ => None
  }

  function DecodeEnvVar(j: Json): Option<EnvVar> {
    var m :- Fields(j);
    var name :- DecodeStr(Member(m, "name"));
    var value :- DecodeStr(Member(m, "value"));
    Some(EnvVar(name, value, m - {"name", "value"}))
  }

  function DecodeMount(j: Json): Option<VolumeMount> {
    var m :- Fields(j);
    var name :- DecodeStr(Member(m, "name"));
    var readOnly :- DecodeBool(Member(m, "readOnly"));
    var mountPath :- DecodeStr(Member(m, "mountPath"));
    Some(VolumeMount(name, readOnly, mountPath, m - {"name", "readOnly", "mountPath"}))
  }

  function DecodeItems<T>(items: seq<Json>, decode: Json -> Option<T>): Option<seq<T>> {
    if items == [] then Some([])
    else
      var front :- DecodeItems(items[..|items| - 1], decode);
      var last :- decode(items[|items| - 1]);
      Some(front + [last])
  }

  function DecodeList<T>(j: Json, decode: Json -> Option<T>): Option<Option<seq<T>>> {
    match j
    case JNull => Some(None)
    case JArr(items) =>
      var xs :- DecodeItems(items, decode);
      Some(Some(xs))
    case _ => None
  }

  function OrEmpty<T>(xs: Option<seq<T>>): seq<T> {
    if xs.Some? then xs.value else []
  }

  function DecodeContainer(j: Json): Option<Container> {
    var m :- Fields(j);
    DecodeContainerMembers(m)
  }

  function DecodeContainerMembers(m: Members): Option<Container> {
    var name :- DecodeStr(Member(m, "name"));
    var env :- DecodeList(Member(m, "env"), DecodeEnvVar);
    var mounts :- DecodeList(Member(m, "volumeMounts"), DecodeMount);
    Some(Container(name, OrEmpty(env), OrEmpty(mounts), m - {"name", "env", "volumeMounts"}))
  }

  function DecodeVolume(j: Json): Option<Volume> {
    var m :- Fields(j);
    var name :- DecodeStr(Member(m, "name"));
    Some(Volume(name, m - {"name"}))
  }

  function DecodeStrings(j: Json): Option<Option<map<string, string>>> {
    match j
    case JNull => Some(None)
    case JObj(m) =>
      if forall k | k in m :: DecodeStr(m[k]).Some? then Some(Some(map k | k in m :: DecodeStr(m[k]).value)) else None
    case _ => None
  }

  function OrEmptyMap(m: Option<map<string, string>>): map<string, string> {
    if m.Some? then m.value else map[]
  }

  /** `metadata` and `spec` of a document, as decoded. */
  function Part(doc: Json, name: string): Option<Members> {
    var m :- Fields(doc);
    Fields(Member(m, name))
  }

  function DecodePod(doc: Json): Option<Pod> {
    var metadata :- Part(doc, "metadata");
    var spec :- Part(doc, "spec");
    DecodeParts(metadata, spec)
  }

  function DecodeParts(metadata: Members, spec: Members): Option<Pod> {
    var labels :- DecodeStrings(Member(metadata, "labels"));
    var annotations :- DecodeStrings(Member(metadata, "annotations"));
    var account :- DecodeStr(Member(spec, "serviceAccountName"));
    var nodeSelector :- DecodeStrings(Member(spec, "nodeSelector"));
    var volumes :- DecodeList(Member(spec, "volumes"), DecodeVolume);
    var containers :- DecodeList(Member(spec, "containers"), DecodeContainer);
    var initContainers :- DecodeList(Member(spec, "initContainers"), DecodeContainer);
    Some(Pod(labels, OrEmptyMap(annotations), account, OrEmptyMap(nodeSelector),
             volumes, OrEmpty(containers), OrEmpty(initContainers)))
  }

  // ---------------------------------------------------------------- encoding

  /** `omitempty`. */
  function Optional(present: bool, k: string, v: Json): Members {
    if present then map[k := v] else map[]
  }

  function EncodeEnvVar(e: EnvVar): Json {
    JObj(e.other + map["name" := JStr(e.name)] + Optional(e.value != "", "value", JStr(e.value)))
  }

  function EncodeMount(v: VolumeMount): Json {
    JObj(v.other + map["name" := JStr(v.name), "mountPath" := JStr(v.mountPath)]
         + Optional(v.readOnly, "readOnly", JBool(true)))
  }

  function EncodeItems<T>(xs: seq<T>, encode: T -> Json): seq<Json> {
    if xs == [] then [] else EncodeItems(xs[..|xs| - 1], encode) + [encode(xs[|xs| - 1])]
  }

  function EncodeContainer(c: Container): Json {
    JObj(c.other + map["name" := JStr(c.name)]
         + Optional(c.env != [], "env", JArr(EncodeItems(c.env, EncodeEnvVar)))
         + Optional(c.mounts != [], "volumeMounts", JArr(EncodeItems(c.mounts, EncodeMount))))
  }

  function EncodeVolume(v: Volume): Json {
    JObj(v.other + map["name" := JStr(v.name)])
  }

  // ---------------------------------------------------------------- round trips

  /** Members the webhook knows are not also kept in `other`; true of everything decoded. */
  predicate EnvVarOk(e: EnvVar) {
    "name" !in e.other && "value" !in e.other
  }

  predicate MountOk(v: VolumeMount) {
    "name" !in v.other && "readOnly" !in v.other && "mountPath" !in v.other
  }

  predicate ContainerOk(c: Container) {
    && "name" !in c.other && "env" !in c.other && "volumeMounts" !in c.other
    && (forall i | 0 <= i < |c.env| :: EnvVarOk(c.env[i]))
    && (forall i | 0 <= i < |c.mounts| :: MountOk(c.mounts[i]))
  }

  predicate PodOk(p: Pod) {
    && (forall i | 0 <= i < |p.containers| :: ContainerOk(p.containers[i]))
    && (forall i | 0 <= i < |p.initContainers| :: ContainerOk(p.initContainers[i]))
  }

  lemma EnvVarRoundTrip(e: EnvVar)
    requires EnvVarOk(e)
    ensures DecodeEnvVar(EncodeEnvVar(e)) == Some(e)
  {
    assert EncodeEnvVar(e).members - {"name", "value"} == e.other;
  }

  lemma MountRoundTrip(v: VolumeMount)
    requires MountOk(v)
    ensures DecodeMount(EncodeMount(v)) == Some(v)
  {
    assert EncodeMount(v).members - {"name", "readOnly", "mountPath"} == v.other;
  }

  lemma {:induction false} ItemsRoundTrip<T>(xs: seq<T>, encode: T -> Json, decode: Json -> Option<T>)
    requires forall i | 0 <= i < |xs| :: decode(encode(xs[i])) == Some(xs[i])
    ensures DecodeItems(EncodeItems(xs, encode), decode) == Some(xs)
  {
    if xs != [] {
      var front, last := xs[..|xs| - 1], xs[|xs| - 1];
      ItemsRoundTrip(front, encode, decode);
      var items := EncodeItems(xs, encode);
      assert items[..|items| - 1] == EncodeItems(front, encode) && items[|items| - 1] == encode(last);
      assert decode(encode(xs[|xs| - 1])) == Some(last);
      assert xs == front + [last];
    }
  }

  lemma EnvRoundTrip(c: Container)
    requires ContainerOk(c)
    ensures DecodeItems(EncodeItems(c.env, EncodeEnvVar), DecodeEnvVar) == Some(c.env)
  {
    forall i | 0 <= i < |c.env| ensures DecodeEnvVar(EncodeEnvVar(c.env[i])) == Some(c.env[i]) {
      EnvVarRoundTrip(c.env[i]);
    }
    ItemsRoundTrip(c.env, EncodeEnvVar, DecodeEnvVar);
  }

  lemma MountsRoundTrip(c: Container)
    requires ContainerOk(c)
    ensures DecodeItems(EncodeItems(c.mounts, EncodeMount), DecodeMount) == Some(c.mounts)
  {
    forall i | 0 <= i < |c.mounts| ensures DecodeMount(EncodeMount(c.mounts[i])) == Some(c.mounts[i]) {
      MountRoundTrip(c.mounts[i]);
    }
    ItemsRoundTrip(c.mounts, EncodeMount, DecodeMount);
  }

  lemma ContainerMembers(c: Container)
    requires "name" !in c.other && "env" !in c.other && "volumeMounts" !in c.other
    ensures var m := EncodeContainer(c).members;
            && m - {"name", "env", "volumeMounts"} == c.other
            && Member(m, "name") == JStr(c.name)
            && Member(m, "env") == (if c.env != [] then JArr(EncodeItems(c.env, EncodeEnvVar)) else JNull)
            && Member(m, "volumeMounts") == (if c.mounts != [] then JArr(EncodeItems(c.mounts, EncodeMount)) else JNull)
  {
    hide EncodeItems;
  }

  lemma OmittedListDecodes<T>(xs: seq<T>, encode: T -> Json, decode: Json -> Option<T>)
    requires DecodeItems(EncodeItems(xs, encode), decode) == Some(xs)
    ensures var list := DecodeList(if xs != [] then JArr(EncodeItems(xs, encode)) else JNull, decode);
            list.Some? && OrEmpty(list.value) == xs
  {
  }

  lemma AssembleContainer(m: Members, c: Container)
    requires m - {"name", "env", "volumeMounts"} == c.other && Member(m, "name") == JStr(c.name)
    requires var env := DecodeList(Member(m, "env"), DecodeEnvVar);
             env.Some? && OrEmpty(env.value) == c.env
    requires var mounts := DecodeList(Member(m, "volumeMounts"), DecodeMount);
             mounts.Some? && OrEmpty(mounts.value) == c.mounts
    ensures DecodeContainerMembers(m) == Some(c)
  {
    hide Member, DecodeList, OrEmpty;
  }

  /** What the webhook writes as a container is read back as the same container. */
  lemma ContainerRoundTrip(c: Container)
    requires ContainerOk(c)
    ensures DecodeContainer(EncodeContainer(c)) == Some(c)
  {
    hide DecodeItems, EncodeItems, Member, DecodeList, OrEmpty, DecodeContainerMembers, EnvVarOk, MountOk, DecodeEnvVar,
      EncodeEnvVar, DecodeMount, EncodeMount, Optional;
    var m := EncodeContainer(c).members;
    assert Fields(EncodeContainer(c)) == Some(m);
    ContainerMembers(c);
    EnvRoundTrip(c);
    MountsRoundTrip(c);
    hide ContainerOk, EncodeContainer, Fields;
    OmittedListDecodes(c.env, EncodeEnvVar, DecodeEnvVar);
    OmittedListDecodes(c.mounts, EncodeMount, DecodeMount);
    AssembleContainer(m, c);
  }

  lemma ContainersRoundTrip(cs: seq<Container>)
    requires forall i | 0 <= i < |cs| :: ContainerOk(cs[i])
    ensures DecodeItems(EncodeItems(cs, EncodeContainer), DecodeContainer) == Some(cs)
  {
    forall i | 0 <= i < |cs| ensures DecodeContainer(EncodeContainer(cs[i])) == Some(cs[i]) {
      ContainerRoundTrip(cs[i]);
    }
    ItemsRoundTrip(cs, EncodeContainer, DecodeContainer);
  }

  lemma {:induction false} DecodedItems<T>(items: seq<Json>, decode: Json -> Option<T>, i: nat)
    requires DecodeItems(items, decode).Some?
    ensures |DecodeItems(items, decode).value| == |items|
    ensures i < |items| ==> decode(items[i]) == Some(DecodeItems(items, decode).value[i])
  {
    if items != [] {
      DecodedItems(items[..|items| - 1], decode, i);
    }
  }

  lemma DecodedContainerOk(j: Json)
    requires DecodeContainer(j).Some?
    ensures ContainerOk(DecodeContainer(j).value)
  {
    var m := Fields(j).value;
    var c := DecodeContainer(j).value;
    forall i | 0 <= i < |c.env| ensures EnvVarOk(c.env[i]) {
      DecodedItems(Member(m, "env").items, DecodeEnvVar, i);
    }
    forall i | 0 <= i < |c.mounts| ensures MountOk(c.mounts[i]) {
      DecodedItems(Member(m, "volumeMounts").items, DecodeMount, i);
    }
  }

  lemma DecodedContainersOk(j: Json)
    requires DecodeList(j, DecodeContainer).Some?
    ensures var cs := OrEmpty(DecodeList(j, DecodeContainer).value);
            forall i | 0 <= i < |cs| :: ContainerOk(cs[i])
  {
    var cs := OrEmpty(DecodeList(j, DecodeContainer).value);
    forall i | 0 <= i < |cs| ensures ContainerOk(cs[i]) {
      DecodedItems(j.items, DecodeContainer, i);
      DecodedContainerOk(j.items[i]);
    }
  }

  /** Everything decoded can be encoded without loss. */
  lemma DecodedPodOk(doc: Json)
    requires DecodePod(doc).Some?
    ensures PodOk(DecodePod(doc).value)
  {
    var spec := Part(doc, "spec").value;
    DecodedContainersOk(Member(spec, "containers"));
    DecodedContainersOk(Member(spec, "initContainers"));
  }
}
