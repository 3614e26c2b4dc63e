/**
 The patch the webhook emits (pkg/handler/handler.go:172-429): the loops over containers, whose
 slices share memory with the decoded pod, and the list of JSON Patch operations.
 */
module PodPatch {
  import opened Common
  import opened Json
  import opened PodModel
  import opened Injection
  import opened Slices
  import opened PatchMeaning

  // ---------------------------------------------------------------- containers in memory

  /** A container as a Go struct: copying it copies the slice headers, not the backing arrays. */
  datatype ContainerRef = ContainerRef(name: string, env: Slice<EnvVar>, mounts: Slice<VolumeMount>, other: Members)

  ghost predicate RefOk(c: ContainerRef) {
    InBounds(c.env) && InBounds(c.mounts) && c.env.buf as object != c.mounts.buf as object
  }

  ghost function ViewOf(c: ContainerRef): Container
    requires RefOk(c)
    reads c.env.buf, c.mounts.buf
  {
    Container(c.name, View(c.env), View(c.mounts), c.other)
  }

  /** What the first loop of `addEnvToContainer` finds out. */
  method ScanEnv(env: seq<EnvVar>) returns (web: bool, credentials: bool, region: bool, sts: bool)
    ensures web <==> HasWebIdentity(env)
    ensures credentials <==> HasCredentials(env)
    ensures region <==> HasRegion(env)
    ensures sts <==> HasSts(env)
  {
    hide STS_VAR, REGION_VAR, DEFAULT_REGION_VAR, ROLE_VAR, WEB_TOKEN_VAR, URI_VAR, AUTH_TOKEN_VAR, Has;
    web, credentials, region, sts := false, false, false, false;
    HasNothing();
    for i := 0 to |env|
      invariant web <==> HasWebIdentity(env[..i])
      invariant credentials <==> HasCredentials(env[..i])
      invariant region <==> HasRegion(env[..i])
      invariant sts <==> HasSts(env[..i])
    {
      var name := env[i].name;
      assert env[..i + 1] == env[..i] + [env[i]];
      forall n ensures Has(env[..i + 1], n) <==> Has(env[..i], n) || name == n {
        HasSnoc(env[..i], env[i], n);
      }
      if name == ROLE_VAR || name == WEB_TOKEN_VAR {
        web := true;
      }
      if name == URI_VAR || name == AUTH_TOKEN_VAR {
        credentials := true;
      }
      if name == REGION_VAR || name == DEFAULT_REGION_VAR {
        region := true;
      }
      if name == STS_VAR {
        sts := true;
      }
    }
    assert env[..|env|] == env;
  }

  lemma HasNothing()
    ensures forall n :: !Has([], n)
  {
  }

  lemma HasSnoc(env: seq<EnvVar>, e: EnvVar, name: string)
    ensures Has(env + [e], name) <==> Has(env, name) || e.name == name
  {
    HasConcat(env, [e], name);
    assert [e][0] == e;
  }

  method HasMount(mounts: seq<VolumeMount>, volume: string) returns (found: bool)
    ensures found <==> Mounts(mounts, volume)
  {
    found := false;
    for i := 0 to |mounts|
      invariant found <==> exists j | 0 <= j < i :: mounts[j].name == volume
    {
      if mounts[i].name == volume {
        found := true;
      }
    }
  }

  /** What the three `if`s of `addEnvToContainer` decide to append, in order. */
  method ChooseVars(vars: seq<EnvVar>, cfg: PodPatchConfig, region: string, tokenFile: string)
    returns (sts: seq<EnvVar>, regions: seq<EnvVar>, credentials: seq<EnvVar>, changed: bool)
    requires !Complete(vars, cfg)
    ensures sts + regions + credentials == Additions(vars, cfg, region, tokenFile)
    ensures changed <==> Additions(vars, cfg, region, tokenFile) != []
  {
    var hasWeb, hasCredentials, hasRegion, hasSts := ScanEnv(vars);
    hide HasWebIdentity, HasCredentials, HasRegion, HasSts, Complete, STS_VAR, REGION_VAR, DEFAULT_REGION_VAR, ROLE_VAR,
      WEB_TOKEN_VAR, URI_VAR, AUTH_TOKEN_VAR;
    sts, regions, credentials, changed := [], [], [], false;
    if !hasSts && cfg.useRegionalSTS {
      sts, changed := [Var(STS_VAR, "regional")], true;
    }
    if !hasRegion && region != "" {
      regions, changed := [Var(DEFAULT_REGION_VAR, region), Var(REGION_VAR, region)], true;
    }
    if cfg.credentials.Some? {
      if !hasCredentials {
        credentials, changed := [Var(URI_VAR, cfg.credentials.value.fullUri), Var(AUTH_TOKEN_VAR, tokenFile)], true;
      }
    } else if cfg.webIdentityRole.Some? {
      if !hasWeb {
        credentials, changed := [Var(ROLE_VAR, cfg.webIdentityRole.value), Var(WEB_TOKEN_VAR, tokenFile)], true;
      }
    }
  }

  /** The environment part of `addEnvToContainer`, for a container that is not complete. */
  method AppendEnv(env: Slice<EnvVar>, cfg: PodPatchConfig, region: string, tokenFile: string)
    returns (r: Slice<EnvVar>, changed: bool)
    requires InBounds(env) && !Complete(View(env), cfg)
    modifies env.buf
    ensures InBounds(r) && View(r) == old(View(env)) + Additions(old(View(env)), cfg, region, tokenFile)
    ensures r.buf == env.buf || fresh(r.buf)
    ensures View(env) == old(View(env))
    ensures changed <==> Additions(old(View(env)), cfg, region, tokenFile) != []
  {
    hide Complete, Additions;
    var vars := env.buf[..env.len];
    var sts, regions, credentials;
    sts, regions, credentials, changed := ChooseVars(vars, cfg, region, tokenFile);
    r := Extend(env, env, sts);
    r := Extend(env, r, regions);
    r := Extend(env, r, credentials);
    assert vars + sts + regions + credentials == vars + (sts + regions + credentials);
  }

  /**
   `addEnvToContainer`: writes the injected slices into its copy of the container, which the caller's
   container does not notice, and reports a change exactly when there is one.
   */
  method AddEnvToContainer(c: ContainerRef, tokenFile: string, cfg: PodPatchConfig, region: string)
    returns (r: ContainerRef, changed: bool)
    requires RefOk(c)
    modifies c.env.buf, c.mounts.buf
    ensures RefOk(r) && ViewOf(r) == InjectContainer(old(ViewOf(c)), cfg, region, tokenFile)
    ensures changed <==> ViewOf(r) != old(ViewOf(c))
    ensures ViewOf(c) == old(ViewOf(c))
    ensures r.env.buf == c.env.buf || fresh(r.env.buf)
    ensures r.mounts.buf == c.mounts.buf || fresh(r.mounts.buf)
  {
    hide HasWebIdentity, HasCredentials, HasRegion, HasSts, Mounts, Additions;
    var web, credentials, hasRegion, sts := ScanEnv(c.env.buf[..c.env.len]);
    if ((cfg.webIdentityRole.Some? && web) || (cfg.credentials.Some? && credentials)) && hasRegion && sts {
      return c, false;
    }
    assert !Complete(View(c.env), cfg);
    hide Complete;
    var mounted := HasMount(c.mounts.buf[..c.mounts.len], cfg.volumeName);
    ghost var before := ViewOf(c);
    ghost var added := Additions(before.env, cfg, region, tokenFile);
    var env, changed' := AppendEnv(c.env, cfg, region, tokenFile);
    changed := changed';
    var mounts := c.mounts;
    if !mounted {
      mounts := Extend(c.mounts, c.mounts, [TokenMount(cfg)]);
      changed := true;
    }
    r := c.(env := env, mounts := mounts);
    assert added != [] ==> |View(env)| != |before.env|;
    assert added == [] ==> View(env) == before.env;
  }

  // ---------------------------------------------------------------- container lists

  ghost function Buffers(c: ContainerRef): set<object> {
    {c.env.buf, c.mounts.buf}
  }

  ghost function AllBuffers(cs: seq<ContainerRef>): set<object> {
    set i, b | 0 <= i < |cs| && b in Buffers(cs[i]) :: b
  }

  /** Decoding gives every slice a backing array of its own. */
  ghost predicate Separate(cs: seq<ContainerRef>) {
    && (forall i | 0 <= i < |cs| :: RefOk(cs[i]))
    && (forall i, j | 0 <= i < j < |cs| :: Buffers(cs[i]) !! Buffers(cs[j]))
  }

  ghost function ViewsOf(cs: seq<ContainerRef>): (r: seq<Container>)
    requires forall i | 0 <= i < |cs| :: RefOk(cs[i])
    reads AllBuffers(cs)
    ensures |r| == |cs|
    ensures forall i | 0 <= i < |cs| :: r[i] == ViewOf(cs[i])
  {
    seq(|cs|, i requires 0 <= i < |cs| reads AllBuffers(cs) =>
      assert cs[i].env.buf in Buffers(cs[i]) && cs[i].mounts.buf in Buffers(cs[i]);
      ViewOf(cs[i]))
  }

  /** The list as decoded still reads `before`, and the results so far read as `injected`. */
  ghost predicate Progress(cs: seq<ContainerRef>, out: seq<ContainerRef>, before: seq<Container>, injected: seq<Container>)
    reads AllBuffers(cs), AllBuffers(out)
  {
    && Separate(cs) && |out| <= |cs| == |before| == |injected|
    && (forall j | 0 <= j < |out| :: RefOk(out[j]))
    && (forall j, k | 0 <= j < |out| <= k < |cs| :: Buffers(out[j]) !! Buffers(cs[k]))
    && ViewsOf(cs) == before
    && ViewsOf(out) == injected[..|out|]
  }

  lemma Apart(a: ContainerRef, b: ContainerRef)
    requires Buffers(a) !! Buffers(b)
    ensures a.env.buf as object != b.env.buf && a.env.buf as object != b.mounts.buf as object
    ensures a.mounts.buf as object != b.env.buf as object && a.mounts.buf as object != b.mounts.buf
  {
    assert a.env.buf in Buffers(a) && a.mounts.buf in Buffers(a);
    assert b.env.buf in Buffers(b) && b.mounts.buf in Buffers(b);
  }

  /** One iteration. */
  method InjectNext(cs: seq<ContainerRef>, out: seq<ContainerRef>, cfg: PodPatchConfig, region: string,
                    tokenFile: string, ghost before: seq<Container>, ghost injected: seq<Container>)
    returns (c: ContainerRef, changed: bool)
    requires |out| < |cs| && Progress(cs, out, before, injected)
    requires injected[|out|] == InjectUnlessSkipped(before[|out|], cfg, region, tokenFile)
    modifies Buffers(cs[|out|])
    ensures Progress(cs, out + [c], before, injected)
    ensures changed <==> injected[|out|] != before[|out|]
    ensures c.env.buf == cs[|out|].env.buf || fresh(c.env.buf)
    ensures c.mounts.buf == cs[|out|].mounts.buf || fresh(c.mounts.buf)
  {
    hide InjectContainer;
    var i := |out|;
    c, changed := cs[i], false;
    assert ViewOf(c) == before[i];
    if c.name !in cfg.containersToSkip {
      c, changed := AddEnvToContainer(cs[i], tokenFile, cfg, region);
    }
    assert ViewOf(c) == injected[i];
    assert ViewOf(cs[i]) == before[i];
    assert ViewsOf(out + [c]) == injected[..i + 1] by {
      forall j | 0 <= j < i ensures ViewOf(out[j]) == injected[j] {
        Apart(out[j], cs[i]);
      }
    }
    assert ViewsOf(cs) == before by {
      forall j | 0 <= j < |cs| ensures ViewOf(cs[j]) == before[j] {
        if j != i {
          assert Buffers(cs[j]) !! Buffers(cs[i]);
          Apart(cs[j], cs[i]);
        }
      }
    }
  }

  /** Results live in the old backing arrays or in new ones. */
  twostate predicate SharedOrFresh(cs: seq<ContainerRef>, new out: seq<ContainerRef>)
    requires |out| <= |cs|
  {
    forall j | 0 <= j < |out| ::
      && (out[j].env.buf == cs[j].env.buf || fresh(out[j].env.buf))
      && (out[j].mounts.buf == cs[j].mounts.buf || fresh(out[j].mounts.buf))
  }

  /** The loop over one container list. */
  method InjectLoop(cs: seq<ContainerRef>, cfg: PodPatchConfig, region: string, tokenFile: string,
                    ghost before: seq<Container>, ghost injected: seq<Container>)
    returns (out: seq<ContainerRef>, changed: bool)
    requires Progress(cs, [], before, injected) && |before| == |injected| == |cs|
    requires forall i | 0 <= i < |cs| :: injected[i] == InjectUnlessSkipped(before[i], cfg, region, tokenFile)
    modifies AllBuffers(cs)
    ensures |out| == |cs| && Progress(cs, out, before, injected)
    ensures changed <==> injected != before
    ensures SharedOrFresh(cs, out)
  {
    hide InjectUnlessSkipped, Progress, AllBuffers, Buffers;
    out, changed := [], false;
    for i := 0 to |cs|
      invariant |out| == i && Progress(cs, out, before, injected)
      invariant SharedOrFresh(cs, out)
      invariant changed <==> injected[..i] != before[..i]
    {
      BuffersAmongAll(cs, i);
      var c, one := InjectNext(cs, out, cfg, region, tokenFile, before, injected);
      if one {
        changed := true;
      }
      out := out + [c];
      assert injected[..i + 1] == injected[..i] + [injected[i]] && before[..i + 1] == before[..i] + [before[i]];
    }
    assert injected[..|cs|] == injected && before[..|cs|] == before;
  }

  /**
   Injecting a container list leaves the list it was decoded into as it was, although the two share
   memory, and reports a change exactly when some container differs.
   */
  method InjectContainers(cs: seq<ContainerRef>, cfg: PodPatchConfig, region: string, tokenFile: string)
    returns (out: seq<ContainerRef>, changed: bool)
    requires Separate(cs)
    modifies AllBuffers(cs)
    ensures |out| == |cs| && forall i | 0 <= i < |cs| :: RefOk(out[i])
    ensures ViewsOf(out) == InjectAll(old(ViewsOf(cs)), cfg, region, tokenFile)
    ensures ViewsOf(cs) == old(ViewsOf(cs))
    ensures changed <==> ViewsOf(out) != old(ViewsOf(cs))
    ensures SharedOrFresh(cs, out)
  {
    ghost var before := ViewsOf(cs);
    ghost var injected := InjectAll(before, cfg, region, tokenFile);
    StartProgress(cs, before, injected);
    hide InjectAll, InjectUnlessSkipped, Progress;
    out, changed := InjectLoop(cs, cfg, region, tokenFile, before, injected);
    EndProgress(cs, out, before, injected);
  }

  lemma BuffersAmongAll(cs: seq<ContainerRef>, i: nat)
    requires i < |cs|
    ensures Buffers(cs[i]) <= AllBuffers(cs)
  {
  }

  lemma StartProgress(cs: seq<ContainerRef>, before: seq<Container>, injected: seq<Container>)
    requires Separate(cs) && ViewsOf(cs) == before && |injected| == |cs|
    ensures Progress(cs, [], before, injected)
  {
  }

  lemma EndProgress(cs: seq<ContainerRef>, out: seq<ContainerRef>, before: seq<Container>, injected: seq<Container>)
    requires Progress(cs, out, before, injected) && |out| == |cs|
    ensures forall i | 0 <= i < |cs| :: RefOk(out[i]) && RefOk(cs[i])
    ensures ViewsOf(out) == injected && ViewsOf(cs) == before
  {
    assert injected[..|out|] == injected;
  }

  // ---------------------------------------------------------------- getPodSpecPatch

  /** The decoded pod in memory. */
  datatype PodRef = PodRef(
    labels: Option<map<string, string>>,
    annotations: map<string, string>,
    serviceAccountName: string,
    nodeSelector: map<string, string>,
    volumes: Option<seq<Volume>>,
    containers: seq<ContainerRef>,
    initContainers: seq<ContainerRef>
  )

  ghost predicate PodRefOk(p: PodRef) {
    Separate(p.containers) && Separate(p.initContainers) && AllBuffers(p.containers) !! AllBuffers(p.initContainers)
  }

  ghost function ViewOfPod(p: PodRef): Pod
    requires PodRefOk(p)
    reads AllBuffers(p.containers), AllBuffers(p.initContainers)
  {
    Pod(p.labels, p.annotations, p.serviceAccountName, p.nodeSelector, p.volumes,
        ViewsOf(p.containers), ViewsOf(p.initContainers))
  }

  /** What `json.Marshal` reads out of the container structs. */
  method Snapshot(cs: seq<ContainerRef>) returns (views: seq<Container>)
    requires forall i | 0 <= i < |cs| :: RefOk(cs[i])
    ensures views == ViewsOf(cs)
  {
    views := [];
    for i := 0 to |cs|
      invariant |views| == i && forall j | 0 <= j < i :: views[j] == ViewOf(cs[j])
    {
      var c := cs[i];
      views := views + [Container(c.name, c.env.buf[..c.env.len], c.mounts.buf[..c.mounts.len], c.other)];
    }
  }

  method VolumeExists(volumes: Option<seq<Volume>>, name: string) returns (found: bool)
    ensures found <==> volumes.Some? && exists i | 0 <= i < |volumes.value| :: volumes.value[i].name == name
  {
    found := false;
    if volumes.Some? {
      for i := 0 to |volumes.value|
        invariant found <==> exists j | 0 <= j < i :: volumes.value[j].name == name
      {
        if volumes.value[i].name == name {
          found := true;
        }
      }
    }
  }

  /** One container loop, followed by reading the result; another list of the pod does not notice. */
  method InjectAndRead(cs: seq<ContainerRef>, cfg: PodPatchConfig, region: string, tokenFile: string,
                       ghost others: seq<ContainerRef>)
    returns (views: seq<Container>, changed: bool)
    requires Separate(cs) && Separate(others) && AllBuffers(cs) !! AllBuffers(others)
    modifies AllBuffers(cs)
    ensures views == InjectAll(old(ViewsOf(cs)), cfg, region, tokenFile)
    ensures changed <==> views != old(ViewsOf(cs))
    ensures ViewsOf(cs) == old(ViewsOf(cs)) && ViewsOf(others) == old(ViewsOf(others))
  {
    hide InjectAll, ViewsOf, SharedOrFresh, AllBuffers, Buffers;
    ghost var w := ViewsOf(others);
    var out;
    out, changed := InjectContainers(cs, cfg, region, tokenFile);
    views := Snapshot(out);
    assert ViewsOf(others) == w by {
      forall i | 0 <= i < |w| ensures ViewOf(others[i]) == w[i] {
        ApartFromAll(others, i, cs);
      }
    }
  }

  /** Both container loops. */
  method InjectBoth(pod: PodRef, cfg: PodPatchConfig, region: string, tokenFile: string)
    returns (initContainers: seq<Container>, containers: seq<Container>, changed: bool)
    requires PodRefOk(pod)
    modifies AllBuffers(pod.containers), AllBuffers(pod.initContainers)
    ensures ViewOfPod(pod) == old(ViewOfPod(pod))
    ensures initContainers == InjectAll(old(ViewOfPod(pod)).initContainers, cfg, region, tokenFile)
    ensures containers == InjectAll(old(ViewOfPod(pod)).containers, cfg, region, tokenFile)
    ensures changed <==>
              initContainers != old(ViewOfPod(pod)).initContainers || containers != old(ViewOfPod(pod)).containers
  {
    hide InjectAll, ViewsOf, AllBuffers, Buffers, RefOk;
    var initsChanged, restChanged;
    initContainers, initsChanged := InjectAndRead(pod.initContainers, cfg, region, tokenFile, pod.containers);
    containers, restChanged := InjectAndRead(pod.containers, cfg, region, tokenFile, pod.initContainers);
    changed := initsChanged || restChanged;
  }

  lemma ApartFromAll(cs: seq<ContainerRef>, i: nat, ds: seq<ContainerRef>)
    requires i < |cs| && AllBuffers(cs) !! AllBuffers(ds)
    ensures cs[i].env.buf !in AllBuffers(ds) && cs[i].mounts.buf !in AllBuffers(ds)
  {
    assert cs[i].env.buf in Buffers(cs[i]) && cs[i].mounts.buf in Buffers(cs[i]);
    assert cs[i].env.buf in AllBuffers(cs) && cs[i].mounts.buf in AllBuffers(cs);
  }

  /**
   `getPodSpecPatch`: emits the patch of PatchMeaning, leaves the decoded pod as it was, and reports a
   change exactly when the injected pod differs or the label operation was emitted.
   */
  method GetPodSpecPatch(pod: PodRef, cfg: PodPatchConfig, region: string)
    returns (patch: seq<PatchOperation>, changed: bool)
    requires PodRefOk(pod)
    modifies AllBuffers(pod.containers), AllBuffers(pod.initContainers)
    ensures ViewOfPod(pod) == old(ViewOfPod(pod))
    ensures patch == PodSpecPatch(old(ViewOfPod(pod)), cfg, region)
    ensures changed <==> cfg.credentials.Some? || InjectPod(old(ViewOfPod(pod)), cfg, region) != old(ViewOfPod(pod))
  {
    hide TokenFile, InjectAll, AllBuffers, Buffers, RefOk, PodSpecPatch, InjectPod;
    ghost var before := ViewOfPod(pod);
    var tokenFile := TokenFile(pod.nodeSelector, cfg);
    var initContainers, containers, injected := InjectBoth(pod, cfg, region, tokenFile);
    patch, changed := Assemble(pod.labels, pod.volumes, containers, initContainers, injected, cfg, region, before);
  }

  /** From the injected containers to the patch and the flag. */
  method Assemble(labels: Option<map<string, string>>, volumes: Option<seq<Volume>>, containers: seq<Container>,
                  initContainers: seq<Container>, injected: bool, cfg: PodPatchConfig, region: string, ghost pod: Pod)
    returns (patch: seq<PatchOperation>, changed: bool)
    requires pod.labels == labels && pod.volumes == volumes
    requires containers == InjectAll(pod.containers, cfg, region, TokenFile(pod.nodeSelector, cfg))
    requires initContainers == InjectAll(pod.initContainers, cfg, region, TokenFile(pod.nodeSelector, cfg))
    requires injected <==> initContainers != pod.initContainers || containers != pod.containers
    ensures patch == PodSpecPatch(pod, cfg, region)
    ensures changed <==> cfg.credentials.Some? || InjectPod(pod, cfg, region) != pod
  {
    hide TokenFile, InjectAll, LabelOps, VolumeOps, ContainersOp, InitContainersOps, InjectVolume, InjectLabel;
    patch := BuildPatch(labels, volumes, containers, initContainers, cfg, pod, InjectPod(pod, cfg, region));
    var volExists := VolumeExists(volumes, cfg.volumeName);
    changed := injected || cfg.credentials.Some? || !volExists;
    ChangedIsExact(pod, cfg, region);
  }

  lemma ChangedIsExact(pod: Pod, cfg: PodPatchConfig, region: string)
    ensures var r := InjectPod(pod, cfg, region);
            cfg.credentials.None? ==>
              (r != pod <==> r.containers != pod.containers || r.initContainers != pod.initContainers
                             || !HasVolume(pod, cfg.volumeName))
  {
    hide InjectAll, TokenFile;
    if pod.volumes.Some? && !HasVolume(pod, cfg.volumeName) {
      assert |InjectVolume(pod, cfg).value| != |pod.volumes.value|;
    }
  }

  /** The operations, in the order they are appended. */
  method BuildPatch(labels: Option<map<string, string>>, volumes: Option<seq<Volume>>,
                    containers: seq<Container>, initContainers: seq<Container>, cfg: PodPatchConfig,
                    ghost pod: Pod, ghost r: Pod)
    returns (patch: seq<PatchOperation>)
    requires pod.labels == labels && pod.volumes == volumes
    requires r.containers == containers && r.initContainers == initContainers
    ensures patch == LabelOps(pod, cfg) + VolumeOps(pod, cfg) + [ContainersOp(r.containers)]
                     + InitContainersOps(r.initContainers)
  {
    patch := [];
    hide LABELS_PATH, LABEL_PATH, VOLUMES_PATH, FIRST_VOLUME_PATH, CONTAINERS_PATH, INIT_CONTAINERS_PATH, EncodeItems,
      EncodeVolume, TokenVolume;
    if cfg.credentials.Some? {
      if labels.None? {
        patch := patch + [AddOp(LABELS_PATH, JObj(map[LABEL := JStr("enabled")]))];
      } else {
        patch := patch + [AddOp(LABEL_PATH, JStr("enabled"))];
      }
    }
    assert patch == LabelOps(pod, cfg);
    var volExists := VolumeExists(volumes, cfg.volumeName);
    if !volExists {
      var volPatch := AddOp(FIRST_VOLUME_PATH, EncodeVolume(TokenVolume(cfg)));
      if volumes.None? {
        volPatch := AddOp(VOLUMES_PATH, JArr([EncodeVolume(TokenVolume(cfg))]));
      }
      patch := patch + [volPatch];
    }
    assert patch == LabelOps(pod, cfg) + VolumeOps(pod, cfg);
    patch := patch + [AddOp(CONTAINERS_PATH, JArr(EncodeItems(containers, EncodeContainer)))];
    if |initContainers| > 0 {
      patch := patch + [AddOp(INIT_CONTAINERS_PATH, JArr(EncodeItems(initContainers, EncodeContainer)))];
    }
  }
}
