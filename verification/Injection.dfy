/**
 What mutating a pod means: the direct injection of environment variables, mount, volume and label,
 without patches, loops or slices (the effect of pkg/handler/handler.go:172-429), and the laws it
 obeys.
 */
module Injection {
  import opened Common
  import opened Json
  import opened PodModel

  /** `containercredentials.PatchConfig`. */
  datatype CredentialsConfig = CredentialsConfig(
    audience: string, mountPath: string, volumeName: string, tokenPath: string, fullUri: string)

  /** `podPatchConfig`; `tokenFile` is `filepath.Join` of the mount and token paths. */
  datatype PodPatchConfig = PodPatchConfig(
    containersToSkip: set<string>,
    tokenExpiration: int,
    useRegionalSTS: bool,
    audience: string,
    mountPath: string,
    volumeName: string,
    tokenPath: string,
    tokenFile: string,
    webIdentityRole: Option<string>,
    credentials: Option<CredentialsConfig>
  )

  const STS_VAR := "AWS_STS_REGIONAL_ENDPOINTS"
  const REGION_VAR := "AWS_REGION"
  const DEFAULT_REGION_VAR := "AWS_DEFAULT_REGION"
  const ROLE_VAR := "AWS_ROLE_ARN"
  const WEB_TOKEN_VAR := "AWS_WEB_IDENTITY_TOKEN_FILE"
  const URI_VAR := "AWS_CONTAINER_CREDENTIALS_FULL_URI"
  const AUTH_TOKEN_VAR := "AWS_CONTAINER_AUTHORIZATION_TOKEN_FILE"

  /** The label of container-credentials pods. */
  const LABEL := "eks.amazonaws.com/pod-identity"

  lemma NamesDistinct()
    ensures var names := [STS_VAR, REGION_VAR, DEFAULT_REGION_VAR, ROLE_VAR, WEB_TOKEN_VAR, URI_VAR, AUTH_TOKEN_VAR];
            forall i, j | 0 <= i < j < 7 :: names[i] != names[j]
  {
    var names := [STS_VAR, REGION_VAR, DEFAULT_REGION_VAR, ROLE_VAR, WEB_TOKEN_VAR, URI_VAR, AUTH_TOKEN_VAR];
    assert |names[0]| == 26 && |names[1]| == 10 && |names[2]| == 18 && |names[3]| == 12;
    assert |names[4]| == 27 && |names[5]| == 34 && |names[6]| == 38;
  }

  // ---------------------------------------------------------------- containers

  predicate Has(env: seq<EnvVar>, name: string) {
    exists i | 0 <= i < |env| :: env[i].name == name
  }

  predicate HasSts(env: seq<EnvVar>) { Has(env, STS_VAR) }
  predicate HasRegion(env: seq<EnvVar>) { Has(env, REGION_VAR) || Has(env, DEFAULT_REGION_VAR) }
  predicate HasWebIdentity(env: seq<EnvVar>) { Has(env, ROLE_VAR) || Has(env, WEB_TOKEN_VAR) }
  predicate HasCredentials(env: seq<EnvVar>) { Has(env, URI_VAR) || Has(env, AUTH_TOKEN_VAR) }

  predicate Mounts(mounts: seq<VolumeMount>, volume: string) {
    exists i | 0 <= i < |mounts| :: mounts[i].name == volume
  }

  /** The container already has everything and is left alone, mount included. */
  predicate Complete(env: seq<EnvVar>, cfg: PodPatchConfig) {
    && ((cfg.webIdentityRole.Some? && HasWebIdentity(env)) || (cfg.credentials.Some? && HasCredentials(env)))
    && HasRegion(env) && HasSts(env)
  }

  function Var(name: string, value: string): EnvVar {
    EnvVar(name, value, map[])
  }

  function StsVars(env: seq<EnvVar>, cfg: PodPatchConfig): seq<EnvVar> {
    if !HasSts(env) && cfg.useRegionalSTS then [Var(STS_VAR, "regional")] else []
  }

  function RegionVars(env: seq<EnvVar>, region: string): seq<EnvVar> {
    if !HasRegion(env) && region != "" then [Var(DEFAULT_REGION_VAR, region), Var(REGION_VAR, region)] else []
  }

  /** Container credentials win over web identity. */
  function CredentialVars(env: seq<EnvVar>, cfg: PodPatchConfig, tokenFile: string): seq<EnvVar> {
    if cfg.credentials.Some? then
      if !HasCredentials(env)
      then [Var(URI_VAR, cfg.credentials.value.fullUri), Var(AUTH_TOKEN_VAR, tokenFile)] else []
    else if cfg.webIdentityRole.Some? then
      if !HasWebIdentity(env)
      then [Var(ROLE_VAR, cfg.webIdentityRole.value), Var(WEB_TOKEN_VAR, tokenFile)] else []
    else []
  }

  function Additions(env: seq<EnvVar>, cfg: PodPatchConfig, region: string, tokenFile: string): seq<EnvVar> {
    if Complete(env, cfg) then []
    else StsVars(env, cfg) + RegionVars(env, region) + CredentialVars(env, cfg, tokenFile)
  }

  function TokenMount(cfg: PodPatchConfig): VolumeMount {
    VolumeMount(cfg.volumeName, true, cfg.mountPath, map[])
  }

  function InjectContainer(c: Container, cfg: PodPatchConfig, region: string, tokenFile: string): Container {
    if Complete(c.env, cfg) then c
    else
      c.(env := c.env + Additions(c.env, cfg, region, tokenFile),
         mounts := if Mounts(c.mounts, cfg.volumeName) then c.mounts else c.mounts + [TokenMount(cfg)])
  }

  /** A container named in the skip annotation is not touched. */
  function InjectUnlessSkipped(c: Container, cfg: PodPatchConfig, region: string, tokenFile: string): Container {
    if c.name in cfg.containersToSkip then c else InjectContainer(c, cfg, region, tokenFile)
  }

  function InjectAll(cs: seq<Container>, cfg: PodPatchConfig, region: string, tokenFile: string): (r: seq<Container>)
    ensures |r| == |cs|
    ensures forall i | 0 <= i < |cs| :: r[i] == InjectUnlessSkipped(cs[i], cfg, region, tokenFile)
  {
    if cs == [] then []
    else
      InjectAll(cs[..|cs| - 1], cfg, region, tokenFile) + [InjectUnlessSkipped(cs[|cs| - 1], cfg, region, tokenFile)]
  }

  // ---------------------------------------------------------------- pods

  function Backslashes(path: string): (r: string)
    ensures |r| == |path| && '/' !in r
    ensures forall i | 0 <= i < |path| :: if path[i] == '/' then r[i] == '\\' else r[i] == path[i]
  {
    if path == "" then ""
    else Backslashes(path[..|path| - 1]) + [if path[|path| - 1] == '/' then '\\' else path[|path| - 1]]
  }

  predicate SelectsWindows(nodeSelector: map<string, string>) {
    || ("beta.kubernetes.io/os" in nodeSelector && nodeSelector["beta.kubernetes.io/os"] == "windows")
    || ("kubernetes.io/os" in nodeSelector && nodeSelector["kubernetes.io/os"] == "windows")
  }

  /** The token path a container sees, as a Windows path on Windows nodes. */
  function TokenFile(nodeSelector: map<string, string>, cfg: PodPatchConfig): string {
    if SelectsWindows(nodeSelector) then "C:" + Backslashes(cfg.tokenFile) else cfg.tokenFile
  }

  /** The projection; an empty audience is omitted. */
  function TokenProjection(cfg: PodPatchConfig): Json {
    JObj(map["expirationSeconds" := JNum(cfg.tokenExpiration), "path" := JStr(cfg.tokenPath)]
         + Optional(cfg.audience != "", "audience", JStr(cfg.audience)))
  }

  function TokenVolume(cfg: PodPatchConfig): Volume {
    Volume(cfg.volumeName,
           map["projected" := JObj(map["sources" := JArr([JObj(map["serviceAccountToken" := TokenProjection(cfg)])])])])
  }

  predicate HasVolume(pod: Pod, name: string) {
    pod.volumes.Some? && exists i | 0 <= i < |pod.volumes.value| :: pod.volumes.value[i].name == name
  }

  function InjectLabel(pod: Pod, cfg: PodPatchConfig): Option<map<string, string>> {
    if cfg.credentials.None? then pod.labels
    else if pod.labels.None? then Some(map[LABEL := "enabled"])
    else Some(pod.labels.value[LABEL := "enabled"])
  }

  function InjectVolume(pod: Pod, cfg: PodPatchConfig): Option<seq<Volume>> {
    if HasVolume(pod, cfg.volumeName) then pod.volumes
    else if pod.volumes.None? then Some([TokenVolume(cfg)])
    else Some([TokenVolume(cfg)] + pod.volumes.value)
  }

  function InjectPod(pod: Pod, cfg: PodPatchConfig, region: string): Pod {
    pod.(labels := InjectLabel(pod, cfg),
         volumes := InjectVolume(pod, cfg),
         containers := InjectAll(pod.containers, cfg, region, TokenFile(pod.nodeSelector, cfg)),
         initContainers := InjectAll(pod.initContainers, cfg, region, TokenFile(pod.nodeSelector, cfg)))
  }

  // ---------------------------------------------------------------- what is appended

  lemma HasConcat(a: seq<EnvVar>, b: seq<EnvVar>, name: string)
    ensures Has(a + b, name) <==> Has(a, name) || Has(b, name)
  {
    if Has(a, name) {
      var i :| 0 <= i < |a| && a[i].name == name;
      assert (a + b)[i].name == name;
    }
    if Has(b, name) {
      var i :| 0 <= i < |b| && b[i].name == name;
      assert (a + b)[|a| + i].name == name;
    }
  }

  ghost predicate UniqueNames(env: seq<EnvVar>) {
    forall i, j | 0 <= i < j < |env| :: env[i].name != env[j].name
  }

  /** Which names an injection appends, exactly. */
  lemma AppendedNames(env: seq<EnvVar>, cfg: PodPatchConfig, region: string, tokenFile: string, name: string)
    ensures var added := Additions(env, cfg, region, tokenFile);
            Has(added, name) <==>
              && !Complete(env, cfg)
              && (|| (name == STS_VAR && !HasSts(env) && cfg.useRegionalSTS)
                  || ((name == REGION_VAR || name == DEFAULT_REGION_VAR) && !HasRegion(env) && region != "")
                  || ((name == URI_VAR || name == AUTH_TOKEN_VAR) && cfg.credentials.Some? && !HasCredentials(env))
                  || ((name == ROLE_VAR || name == WEB_TOKEN_VAR) && cfg.credentials.None?
                      && cfg.webIdentityRole.Some? && !HasWebIdentity(env)))
  {
    hide STS_VAR, REGION_VAR, DEFAULT_REGION_VAR, ROLE_VAR, WEB_TOKEN_VAR, URI_VAR, AUTH_TOKEN_VAR, HasSts, HasRegion,
      HasWebIdentity, HasCredentials;
    var a, b, c := StsVars(env, cfg), RegionVars(env, region), CredentialVars(env, cfg, tokenFile);
    HasConcat(a + b, c, name);
    HasConcat(a, b, name);
    SmallHas(a, name);
    SmallHas(b, name);
    SmallHas(c, name);
  }

  lemma SmallHas(env: seq<EnvVar>, name: string)
    requires |env| <= 2
    ensures Has(env, name) <==> (|env| > 0 && env[0].name == name) || (|env| > 1 && env[1].name == name)
  {
  }

  /** Appended variables are new, so every variable the pod already had keeps its value. */
  lemma AppendedAreFresh(env: seq<EnvVar>, cfg: PodPatchConfig, region: string, tokenFile: string, name: string)
    requires Has(Additions(env, cfg, region, tokenFile), name)
    ensures !Has(env, name)
  {
    AppendedNames(env, cfg, region, tokenFile, name);
  }

  lemma UniqueConcat(a: seq<EnvVar>, b: seq<EnvVar>)
    requires UniqueNames(a) && UniqueNames(b)
    requires forall i | 0 <= i < |b| :: !Has(a, b[i].name)
    ensures UniqueNames(a + b)
  {
    forall i, j | 0 <= i < j < |a + b| ensures (a + b)[i].name != (a + b)[j].name {
      if i < |a| <= j {
        assert !Has(a, b[j - |a|].name);
      }
    }
  }

  lemma AppendedAreUnique(env: seq<EnvVar>, cfg: PodPatchConfig, region: string, tokenFile: string)
    ensures UniqueNames(Additions(env, cfg, region, tokenFile))
  {
    NamesDistinct();
    var names := [STS_VAR, REGION_VAR, DEFAULT_REGION_VAR, ROLE_VAR, WEB_TOKEN_VAR, URI_VAR, AUTH_TOKEN_VAR];
    hide STS_VAR, REGION_VAR, DEFAULT_REGION_VAR, ROLE_VAR, WEB_TOKEN_VAR, URI_VAR, AUTH_TOKEN_VAR, HasSts, HasRegion,
      HasWebIdentity, HasCredentials, Complete;
    assert names[1] != names[2] && names[3] != names[4] && names[5] != names[6];
    var a, b, c := StsVars(env, cfg), RegionVars(env, region), CredentialVars(env, cfg, tokenFile);
    forall i | 0 <= i < |b| ensures !Has(a, b[i].name) {
      assert names[0] != names[1] && names[0] != names[2];
    }
    UniqueConcat(a, b);
    forall i | 0 <= i < |c| ensures !Has(a + b, c[i].name) {
      HasConcat(a, b, c[i].name);
      SmallHas(a, c[i].name);
      SmallHas(b, c[i].name);
      assert forall k | 3 <= k < 7 :: names[k] != names[0] && names[k] != names[1] && names[k] != names[2];
      assert c[i].name == names[3] || c[i].name == names[4] || c[i].name == names[5] || c[i].name == names[6];
    }
    UniqueConcat(a + b, c);
  }

  // ---------------------------------------------------------------- non-interference

  /**
   Containers keep their number, order and name and every unknown member; skipped ones are untouched;
   the original variables and mounts are a prefix of the new ones, and the appended variables are new.
   */
  lemma {:induction false} NonInterference(cs: seq<Container>, cfg: PodPatchConfig, region: string, tokenFile: string, i: nat)
    requires i < |cs|
    ensures var r := InjectAll(cs, cfg, region, tokenFile);
            && |r| == |cs|
            && r[i].name == cs[i].name && r[i].other == cs[i].other
            && (cs[i].name in cfg.containersToSkip ==> r[i] == cs[i])
            && cs[i].env <= r[i].env && cs[i].mounts <= r[i].mounts
            && (forall j | |cs[i].env| <= j < |r[i].env| :: !Has(cs[i].env, r[i].env[j].name))
  {
    hide InjectAll, Has;
    OneNonInterference(cs[i], cfg, region, tokenFile);
  }

  lemma OneNonInterference(c: Container, cfg: PodPatchConfig, region: string, tokenFile: string)
    ensures var r := InjectContainer(c, cfg, region, tokenFile);
            && r.name == c.name && r.other == c.other
            && c.env <= r.env && c.mounts <= r.mounts
            && (forall j | |c.env| <= j < |r.env| :: !Has(c.env, r.env[j].name))
  {
    hide Has, Mounts, Complete, StsVars, RegionVars, CredentialVars;
    var r := InjectContainer(c, cfg, region, tokenFile);
    forall j | |c.env| <= j < |r.env| ensures !Has(c.env, r.env[j].name) {
      var added := Additions(c.env, cfg, region, tokenFile);
      assert r.env[j] == added[j - |c.env|];
      HasAt(added, j - |c.env|);
      AppendedAreFresh(c.env, cfg, region, tokenFile, r.env[j].name);
    }
  }

  lemma HasAt(env: seq<EnvVar>, i: nat)
    requires i < |env|
    ensures Has(env, env[i].name)
  {
  }

  /**
   Outside the containers: everything but labels and volumes is kept, the original volumes are the end of
   the new list, every label but the webhook's own keeps its value, and that one changes exactly in
   container-credentials mode when it was missing or had another value.
   */
  lemma PodNonInterference(pod: Pod, cfg: PodPatchConfig, region: string)
    ensures var r := InjectPod(pod, cfg, region);
            && r.annotations == pod.annotations && r.serviceAccountName == pod.serviceAccountName
            && r.nodeSelector == pod.nodeSelector
            && (pod.volumes.Some? ==>
                  && r.volumes.Some? && |pod.volumes.value| <= |r.volumes.value|
                  && r.volumes.value[|r.volumes.value| - |pod.volumes.value|..] == pod.volumes.value)
            && (forall k | k != LABEL :: LabelOf(r, k) == LabelOf(pod, k))
            && (LabelOf(r, LABEL) != LabelOf(pod, LABEL) <==>
                  cfg.credentials.Some? && LabelOf(pod, LABEL) != Some("enabled"))
  {
    hide InjectAll, TokenFile, HasVolume, TokenVolume;
    var r := InjectPod(pod, cfg, region);
    if pod.volumes.Some? && !HasVolume(pod, cfg.volumeName) {
      assert ([TokenVolume(cfg)] + pod.volumes.value)[1..] == pod.volumes.value;
    }
  }

  function LabelOf(pod: Pod, k: string): Option<string> {
    if pod.labels.Some? && k in pod.labels.value then Some(pod.labels.value[k]) else None
  }

  /** The variable is there, and every definition of it is the injected one. */
  ghost predicate Defines(env: seq<EnvVar>, name: string, value: string) {
    && (exists i | 0 <= i < |env| :: env[i] == Var(name, value))
    && (forall i | 0 <= i < |env| && env[i].name == name :: env[i] == Var(name, value))
  }

  lemma DefinesConcat(a: seq<EnvVar>, b: seq<EnvVar>, name: string, value: string)
    requires !Has(a, name) && Defines(b, name, value)
    ensures Defines(a + b, name, value)
  {
    var i :| 0 <= i < |b| && b[i] == Var(name, value);
    assert (a + b)[|a| + i] == Var(name, value);
    forall j | 0 <= j < |a + b| && (a + b)[j].name == name ensures (a + b)[j] == Var(name, value) {
      if j < |a| {
        assert Has(a, name);
      }
    }
  }

  /** What a container gets as credentials, by mode: the two names with their values and no others. */
  ghost predicate GetsCredentials(env: seq<EnvVar>, cfg: PodPatchConfig, tokenFile: string) {
    if cfg.credentials.Some?
    then Defines(env, URI_VAR, cfg.credentials.value.fullUri) && Defines(env, AUTH_TOKEN_VAR, tokenFile)
    else cfg.webIdentityRole.Some? ==>
           Defines(env, ROLE_VAR, cfg.webIdentityRole.value) && Defines(env, WEB_TOKEN_VAR, tokenFile)
  }

  /** The container has no credentials of the mode's kind yet. */
  predicate LacksCredentials(env: seq<EnvVar>, cfg: PodPatchConfig) {
    if cfg.credentials.Some? then !HasCredentials(env) else !HasWebIdentity(env)
  }

  lemma PairDefines(pair: seq<EnvVar>, first: string, v: string, second: string, w: string)
    requires pair == [Var(first, v), Var(second, w)] && first != second
    ensures Defines(pair, first, v) && Defines(pair, second, w)
  {
    assert pair[0] == Var(first, v) && pair[1] == Var(second, w);
  }

  lemma CredentialVarsDefine(env: seq<EnvVar>, cfg: PodPatchConfig, tokenFile: string)
    requires LacksCredentials(env, cfg)
    ensures GetsCredentials(CredentialVars(env, cfg, tokenFile), cfg, tokenFile)
  {
    NamesDistinct();
    var names := [STS_VAR, REGION_VAR, DEFAULT_REGION_VAR, ROLE_VAR, WEB_TOKEN_VAR, URI_VAR, AUTH_TOKEN_VAR];
    assert names[3] != names[4] && names[5] != names[6];
    hide STS_VAR, REGION_VAR, DEFAULT_REGION_VAR, ROLE_VAR, WEB_TOKEN_VAR, URI_VAR, AUTH_TOKEN_VAR, Defines,
      HasCredentials, HasWebIdentity;
    var vars := CredentialVars(env, cfg, tokenFile);
    if cfg.credentials.Some? {
      PairDefines(vars, URI_VAR, cfg.credentials.value.fullUri, AUTH_TOKEN_VAR, tokenFile);
    } else if cfg.webIdentityRole.Some? {
      PairDefines(vars, ROLE_VAR, cfg.webIdentityRole.value, WEB_TOKEN_VAR, tokenFile);
    }
  }

  /** The variables injected before the credentials do not have their names. */
  lemma OtherVarsLackCredentials(env: seq<EnvVar>, cfg: PodPatchConfig, region: string)
    ensures var others := StsVars(env, cfg) + RegionVars(env, region);
            !Has(others, ROLE_VAR) && !Has(others, WEB_TOKEN_VAR) && !Has(others, URI_VAR) && !Has(others, AUTH_TOKEN_VAR)
  {
    NamesDistinct();
    var names := [STS_VAR, REGION_VAR, DEFAULT_REGION_VAR, ROLE_VAR, WEB_TOKEN_VAR, URI_VAR, AUTH_TOKEN_VAR];
    hide STS_VAR, REGION_VAR, DEFAULT_REGION_VAR, ROLE_VAR, WEB_TOKEN_VAR, URI_VAR, AUTH_TOKEN_VAR, Has, HasSts, HasRegion;
    var a, b := StsVars(env, cfg), RegionVars(env, region);
    forall k | 3 <= k < 7 ensures !Has(a + b, names[k]) {
      assert names[0] != names[k] && names[1] != names[k] && names[2] != names[k];
      HasConcat(a, b, names[k]);
      SmallHas(a, names[k]);
      SmallHas(b, names[k]);
    }
    assert !Has(a + b, names[3]) && !Has(a + b, names[4]) && !Has(a + b, names[5]) && !Has(a + b, names[6]);
  }

  /**
   A container that is not skipped and has no credentials of the mode's kind has exactly the injected
   ones afterwards: the role and token file, or the URI and token file.
   */
  lemma InjectedCredentials(c: Container, cfg: PodPatchConfig, region: string, tokenFile: string)
    requires c.name !in cfg.containersToSkip && LacksCredentials(c.env, cfg)
    requires cfg.credentials.Some? ==> cfg.webIdentityRole.None?
    ensures GetsCredentials(InjectUnlessSkipped(c, cfg, region, tokenFile).env, cfg, tokenFile)
  {
    assert !Complete(c.env, cfg);
    var others := StsVars(c.env, cfg) + RegionVars(c.env, region);
    var vars := CredentialVars(c.env, cfg, tokenFile);
    assert InjectUnlessSkipped(c, cfg, region, tokenFile).env == (c.env + others) + vars;
    OtherVarsLackCredentials(c.env, cfg, region);
    CredentialVarsDefine(c.env, cfg, tokenFile);
    hide STS_VAR, REGION_VAR, DEFAULT_REGION_VAR, ROLE_VAR, WEB_TOKEN_VAR, URI_VAR, AUTH_TOKEN_VAR, Has, HasSts, HasRegion,
      StsVars, RegionVars, CredentialVars, Defines, InjectUnlessSkipped, Complete;
    HasConcat(c.env, others, ROLE_VAR);
    HasConcat(c.env, others, WEB_TOKEN_VAR);
    HasConcat(c.env, others, URI_VAR);
    HasConcat(c.env, others, AUTH_TOKEN_VAR);
    if cfg.credentials.Some? {
      DefinesConcat(c.env + others, vars, URI_VAR, cfg.credentials.value.fullUri);
      DefinesConcat(c.env + others, vars, AUTH_TOKEN_VAR, tokenFile);
    } else if cfg.webIdentityRole.Some? {
      DefinesConcat(c.env + others, vars, ROLE_VAR, cfg.webIdentityRole.value);
      DefinesConcat(c.env + others, vars, WEB_TOKEN_VAR, tokenFile);
    }
  }

  /** The settings that are not credentials: regional endpoints and region, each unless it is defined already. */
  lemma InjectedSettings(c: Container, cfg: PodPatchConfig, region: string, tokenFile: string)
    requires c.name !in cfg.containersToSkip && !Complete(c.env, cfg)
    ensures var r := InjectUnlessSkipped(c, cfg, region, tokenFile);
            && (cfg.useRegionalSTS && !HasSts(c.env) ==> Defines(r.env, STS_VAR, "regional"))
            && (region != "" && !HasRegion(c.env) ==> Defines(r.env, REGION_VAR, region) && Defines(r.env, DEFAULT_REGION_VAR, region))
  {
    NamesDistinct();
    var names := [STS_VAR, REGION_VAR, DEFAULT_REGION_VAR, ROLE_VAR, WEB_TOKEN_VAR, URI_VAR, AUTH_TOKEN_VAR];
    var sts, regions, credentials := StsVars(c.env, cfg), RegionVars(c.env, region), CredentialVars(c.env, cfg, tokenFile);
    assert InjectUnlessSkipped(c, cfg, region, tokenFile).env == (c.env + sts + regions) + credentials;
    assert names[0] != names[1] && names[0] != names[2] && names[1] != names[2];
    hide STS_VAR, REGION_VAR, DEFAULT_REGION_VAR, ROLE_VAR, WEB_TOKEN_VAR, URI_VAR, AUTH_TOKEN_VAR, Has, Defines, Complete,
      InjectUnlessSkipped, HasCredentials, HasWebIdentity;
    CredentialsLackSettings(c.env, cfg, tokenFile);
    if cfg.useRegionalSTS && !HasSts(c.env) {
      OneDefines(STS_VAR, "regional");
      DefinesConcat(c.env, sts, STS_VAR, "regional");
      SmallHas(regions, STS_VAR);
      ConcatDefines(c.env + sts, regions, STS_VAR, "regional");
      ConcatDefines(c.env + sts + regions, credentials, STS_VAR, "regional");
    }
    if region != "" && !HasRegion(c.env) {
      PairDefines(regions, DEFAULT_REGION_VAR, region, REGION_VAR, region);
      SmallHas(sts, REGION_VAR);
      SmallHas(sts, DEFAULT_REGION_VAR);
      HasConcat(c.env, sts, REGION_VAR);
      HasConcat(c.env, sts, DEFAULT_REGION_VAR);
      DefinesConcat(c.env + sts, regions, REGION_VAR, region);
      DefinesConcat(c.env + sts, regions, DEFAULT_REGION_VAR, region);
      ConcatDefines(c.env + sts + regions, credentials, REGION_VAR, region);
      ConcatDefines(c.env + sts + regions, credentials, DEFAULT_REGION_VAR, region);
    }
  }

  lemma OneDefines(name: string, value: string)
    ensures Defines([Var(name, value)], name, value)
  {
    assert [Var(name, value)][0] == Var(name, value);
  }

  lemma ConcatDefines(a: seq<EnvVar>, b: seq<EnvVar>, name: string, value: string)
    requires Defines(a, name, value) && !Has(b, name)
    ensures Defines(a + b, name, value)
  {
    var i :| 0 <= i < |a| && a[i] == Var(name, value);
    assert (a + b)[i] == Var(name, value);
    assert forall j | 0 <= j < |b| :: b[j].name != name;
  }

  lemma CredentialsLackSettings(env: seq<EnvVar>, cfg: PodPatchConfig, tokenFile: string)
    ensures var vars := CredentialVars(env, cfg, tokenFile);
            !Has(vars, STS_VAR) && !Has(vars, REGION_VAR) && !Has(vars, DEFAULT_REGION_VAR)
  {
    NamesDistinct();
    var names := [STS_VAR, REGION_VAR, DEFAULT_REGION_VAR, ROLE_VAR, WEB_TOKEN_VAR, URI_VAR, AUTH_TOKEN_VAR];
    hide STS_VAR, REGION_VAR, DEFAULT_REGION_VAR, ROLE_VAR, WEB_TOKEN_VAR, URI_VAR, AUTH_TOKEN_VAR, Has, HasCredentials, HasWebIdentity;
    var vars := CredentialVars(env, cfg, tokenFile);
    forall k | 0 <= k < 3 ensures !Has(vars, names[k]) {
      assert names[k] != names[3] && names[k] != names[4] && names[k] != names[5] && names[k] != names[6];
      SmallHas(vars, names[k]);
    }
    assert !Has(vars, names[0]) && !Has(vars, names[1]) && !Has(vars, names[2]);
  }

  /** A container that is injected gets the read-only token mount exactly once. */
  lemma InjectedMount(c: Container, cfg: PodPatchConfig, region: string, tokenFile: string)
    requires c.name !in cfg.containersToSkip && !Complete(c.env, cfg)
    ensures var r := InjectUnlessSkipped(c, cfg, region, tokenFile);
            r.mounts == if Mounts(c.mounts, cfg.volumeName) then c.mounts
                        else c.mounts + [VolumeMount(cfg.volumeName, true, cfg.mountPath, map[])]
  {
    hide Complete, Additions, Mounts;
  }

  /**
   A container is left exactly as it was if and only if it is skipped; or it defines a variable of the
   mode's kind, a region variable and the endpoints variable - whatever it mounts; or it defines all that
   is wanted and mounts the volume.
   */
  lemma UnchangedIff(c: Container, cfg: PodPatchConfig, region: string, tokenFile: string)
    requires cfg.credentials.None? || cfg.webIdentityRole.None?
    ensures
      var web := Has(c.env, "AWS_ROLE_ARN") || Has(c.env, "AWS_WEB_IDENTITY_TOKEN_FILE");
      var uri := Has(c.env, "AWS_CONTAINER_CREDENTIALS_FULL_URI") || Has(c.env, "AWS_CONTAINER_AUTHORIZATION_TOKEN_FILE");
      var regional := Has(c.env, "AWS_REGION") || Has(c.env, "AWS_DEFAULT_REGION");
      var sts := Has(c.env, "AWS_STS_REGIONAL_ENDPOINTS");
      var credentials := if cfg.credentials.Some? then uri else cfg.webIdentityRole.Some? ==> web;
      InjectUnlessSkipped(c, cfg, region, tokenFile) == c <==>
        || c.name in cfg.containersToSkip
        || (credentials && regional && sts && (cfg.credentials.Some? || cfg.webIdentityRole.Some?))
        || (credentials && (regional || region == "") && (sts || !cfg.useRegionalSTS) && Mounts(c.mounts, cfg.volumeName))
  {
    hide Has, Mounts;
    var r := InjectUnlessSkipped(c, cfg, region, tokenFile);
    if c.name !in cfg.containersToSkip && !Complete(c.env, cfg) {
      var added := Additions(c.env, cfg, region, tokenFile);
      assert |r.env| == |c.env| + |added|;
      assert added == [] ==> r.env == c.env;
      assert !Mounts(c.mounts, cfg.volumeName) ==> |r.mounts| != |c.mounts|;
    }
  }

  /** What a container without any of the variables ends up with, by mode, with regional endpoints and a region. */
  lemma FreshContainer(c: Container, cfg: PodPatchConfig, region: string, tokenFile: string)
    requires c.name !in cfg.containersToSkip && cfg.useRegionalSTS && region != ""
    requires !HasSts(c.env) && !HasRegion(c.env) && !HasWebIdentity(c.env) && !HasCredentials(c.env)
    ensures
      var r := InjectUnlessSkipped(c, cfg, region, tokenFile);
      var settings := [EnvVar("AWS_STS_REGIONAL_ENDPOINTS", "regional", map[]), EnvVar("AWS_DEFAULT_REGION", region, map[]),
                       EnvVar("AWS_REGION", region, map[])];
      && (cfg.credentials.Some? ==>
            r.env == c.env + settings + [EnvVar("AWS_CONTAINER_CREDENTIALS_FULL_URI", cfg.credentials.value.fullUri, map[]),
                                         EnvVar("AWS_CONTAINER_AUTHORIZATION_TOKEN_FILE", tokenFile, map[])])
      && (cfg.credentials.None? && cfg.webIdentityRole.Some? ==>
            r.env == c.env + settings + [EnvVar("AWS_ROLE_ARN", cfg.webIdentityRole.value, map[]),
                                         EnvVar("AWS_WEB_IDENTITY_TOKEN_FILE", tokenFile, map[])])
  {
    var added := Additions(c.env, cfg, region, tokenFile);
    hide Has;
    assert InjectUnlessSkipped(c, cfg, region, tokenFile).env == c.env + added;
  }

  /** The token path a container sees, character by character. */
  lemma WindowsPath(nodeSelector: map<string, string>, cfg: PodPatchConfig)
    ensures
      var r := TokenFile(nodeSelector, cfg);
      var windows := exists os | os in nodeSelector ::
        (os == "kubernetes.io/os" || os == "beta.kubernetes.io/os") && nodeSelector[os] == "windows";
      if windows
      then && |r| == 2 + |cfg.tokenFile| && r[..2] == "C:"
           && forall i | 0 <= i < |cfg.tokenFile| :: r[2 + i] == (if cfg.tokenFile[i] == '/' then '\\' else cfg.tokenFile[i])
      else r == cfg.tokenFile
  {
  }

  /** The credentials a pod gets exclude the other kind; nothing but the mode's own names is appended. */
  lemma ModesExclude(env: seq<EnvVar>, cfg: PodPatchConfig, region: string, tokenFile: string)
    ensures var added := Additions(env, cfg, region, tokenFile);
            && (cfg.credentials.Some? ==> !HasWebIdentity(added))
            && (cfg.credentials.None? ==> !HasCredentials(added))
            && (cfg.credentials.None? && cfg.webIdentityRole.None? ==> !HasWebIdentity(added))
  {
    NamesDistinct();
    var names := [STS_VAR, REGION_VAR, DEFAULT_REGION_VAR, ROLE_VAR, WEB_TOKEN_VAR, URI_VAR, AUTH_TOKEN_VAR];
    hide STS_VAR, REGION_VAR, DEFAULT_REGION_VAR, ROLE_VAR, WEB_TOKEN_VAR, URI_VAR, AUTH_TOKEN_VAR, Additions;
    assert names[0] != names[3] && names[0] != names[4] && names[0] != names[5] && names[0] != names[6];
    assert names[1] != names[3] && names[1] != names[4] && names[1] != names[5] && names[1] != names[6];
    assert names[2] != names[3] && names[2] != names[4] && names[2] != names[5] && names[2] != names[6];
    assert names[3] != names[5] && names[3] != names[6] && names[4] != names[5] && names[4] != names[6];
    AppendedNames(env, cfg, region, tokenFile, names[3]);
    AppendedNames(env, cfg, region, tokenFile, names[4]);
    AppendedNames(env, cfg, region, tokenFile, names[5]);
    AppendedNames(env, cfg, region, tokenFile, names[6]);
  }

  // ---------------------------------------------------------------- idempotence

  /** Two configs that may differ in draw, audience, role, URI and paths but not in what they inject where. */
  predicate SameShape(a: PodPatchConfig, b: PodPatchConfig) {
    && a.containersToSkip == b.containersToSkip
    && a.useRegionalSTS == b.useRegionalSTS
    && a.volumeName == b.volumeName
    && a.webIdentityRole.Some? == b.webIdentityRole.Some?
    && a.credentials.Some? == b.credentials.Some?
  }

  /** After an injection nothing more is wanted. */
  lemma NothingMoreWanted(env: seq<EnvVar>, cfg: PodPatchConfig, again: PodPatchConfig,
                          region: string, first: string, second: string)
    requires SameShape(cfg, again) && !Complete(env, cfg)
    ensures Additions(env + Additions(env, cfg, region, first), again, region, second) == []
  {
    hide STS_VAR, REGION_VAR, DEFAULT_REGION_VAR, ROLE_VAR, WEB_TOKEN_VAR, URI_VAR, AUTH_TOKEN_VAR, Has;
    var added := Additions(env, cfg, region, first);
    forall name ensures Has(env + added, name) <==> Has(env, name) || Has(added, name) {
      HasConcat(env, added, name);
    }
    AppendedNames(env, cfg, region, first, STS_VAR);
    AppendedNames(env, cfg, region, first, REGION_VAR);
    AppendedNames(env, cfg, region, first, URI_VAR);
    AppendedNames(env, cfg, region, first, ROLE_VAR);
    hide Additions, StsVars, RegionVars, CredentialVars;
    NoAdditions(env + added, again, region, second);
  }

  lemma NoAdditions(env: seq<EnvVar>, cfg: PodPatchConfig, region: string, tokenFile: string)
    requires HasSts(env) || !cfg.useRegionalSTS
    requires HasRegion(env) || region == ""
    requires cfg.credentials.Some? ==> HasCredentials(env)
    requires cfg.credentials.None? && cfg.webIdentityRole.Some? ==> HasWebIdentity(env)
    ensures Additions(env, cfg, region, tokenFile) == []
  {
  }

  lemma ContainerIdempotent(c: Container, cfg: PodPatchConfig, again: PodPatchConfig,
                            region: string, first: string, second: string)
    requires SameShape(cfg, again)
    ensures var once := InjectContainer(c, cfg, region, first);
            InjectContainer(once, again, region, second) == once
  {
    if !Complete(c.env, cfg) {
      var once := InjectContainer(c, cfg, region, first);
      NothingMoreWanted(c.env, cfg, again, region, first, second);
      assert once.env + [] == once.env;
      assert Mounts(once.mounts, again.volumeName) by {
        if !Mounts(c.mounts, cfg.volumeName) {
          assert once.mounts[|c.mounts|].name == again.volumeName;
        }
      }
    }
  }

  lemma NameStays(c: Container, cfg: PodPatchConfig, region: string, tokenFile: string)
    ensures InjectContainer(c, cfg, region, tokenFile).name == c.name
  {
  }

  lemma {:induction false} AllIdempotent(cs: seq<Container>, cfg: PodPatchConfig, again: PodPatchConfig,
                      region: string, first: string, second: string)
    requires SameShape(cfg, again)
    ensures var once := InjectAll(cs, cfg, region, first);
            InjectAll(once, again, region, second) == once
  {
    hide InjectContainer, InjectAll;
    var once := InjectAll(cs, cfg, region, first);
    var twice := InjectAll(once, again, region, second);
    forall i | 0 <= i < |cs| ensures twice[i] == once[i] {
      ContainerIdempotent(cs[i], cfg, again, region, first, second);
      NameStays(cs[i], cfg, region, first);
    }
  }

  /**
   Mutation is idempotent: injecting again, with any other expiration draw, audience, role or paths,
   leaves the pod as the first injection made it.
   */
  lemma {:induction false} InjectionIsIdempotent(pod: Pod, cfg: PodPatchConfig, again: PodPatchConfig, region: string)
    requires SameShape(cfg, again)
    ensures var once := InjectPod(pod, cfg, region);
            InjectPod(once, again, region) == once
  {
    hide InjectAll, TokenFile, HasVolume;
    var once := InjectPod(pod, cfg, region);
    AllIdempotent(pod.containers, cfg, again, region, TokenFile(pod.nodeSelector, cfg), TokenFile(once.nodeSelector, again));
    AllIdempotent(pod.initContainers, cfg, again, region, TokenFile(pod.nodeSelector, cfg), TokenFile(once.nodeSelector, again));
    assert InjectLabel(once, again) == once.labels by {
      if cfg.credentials.Some? {
        assert once.labels.value[LABEL := "enabled"] == once.labels.value;
      }
    }
    InjectedVolumeExists(pod, cfg, region);
  }

  lemma InjectedVolumeExists(pod: Pod, cfg: PodPatchConfig, region: string)
    ensures HasVolume(InjectPod(pod, cfg, region), cfg.volumeName)
  {
    if !HasVolume(pod, cfg.volumeName) {
      assert InjectPod(pod, cfg, region).volumes.value[0].name == cfg.volumeName;
    }
  }

  // ---------------------------------------------------------------- well-formedness

  /** Unique variable names, and every mount names a volume of the pod. */
  ghost predicate ContainerWellFormed(c: Container, pod: Pod) {
    && UniqueNames(c.env)
    && forall i | 0 <= i < |c.mounts| :: HasVolume(pod, c.mounts[i].name)
  }

  ghost predicate UniqueVolumes(vs: seq<Volume>) {
    forall i, j | 0 <= i < j < |vs| :: vs[i].name != vs[j].name
  }

  ghost predicate WellFormedPod(pod: Pod) {
    && (pod.volumes.Some? ==> UniqueVolumes(pod.volumes.value))
    && (forall i | 0 <= i < |pod.containers| :: ContainerWellFormed(pod.containers[i], pod))
    && (forall i | 0 <= i < |pod.initContainers| :: ContainerWellFormed(pod.initContainers[i], pod))
  }

  lemma VolumesStay(pod: Pod, cfg: PodPatchConfig, region: string, name: string)
    requires HasVolume(pod, name)
    ensures HasVolume(InjectPod(pod, cfg, region), name)
  {
    var r := InjectPod(pod, cfg, region);
    var i :| 0 <= i < |pod.volumes.value| && pod.volumes.value[i].name == name;
    assert HasVolume(pod, cfg.volumeName) ==> r.volumes.value[i].name == name;
    assert !HasVolume(pod, cfg.volumeName) ==> r.volumes.value[1 + i].name == name;
  }

  lemma ContainerStaysWellFormed(c: Container, pod: Pod, cfg: PodPatchConfig, region: string, tokenFile: string)
    requires ContainerWellFormed(c, pod)
    ensures ContainerWellFormed(InjectUnlessSkipped(c, cfg, region, tokenFile), InjectPod(pod, cfg, region))
  {
    var r := InjectUnlessSkipped(c, cfg, region, tokenFile);
    var added := Additions(c.env, cfg, region, tokenFile);
    assert UniqueNames(r.env) by {
      AppendedAreUnique(c.env, cfg, region, tokenFile);
      forall i | 0 <= i < |added| ensures !Has(c.env, added[i].name) {
        assert Has(added, added[i].name);
        AppendedAreFresh(c.env, cfg, region, tokenFile, added[i].name);
      }
      UniqueConcat(c.env, added);
    }
    hide Additions;
    forall i | 0 <= i < |r.mounts| ensures HasVolume(InjectPod(pod, cfg, region), r.mounts[i].name) {
      if i < |c.mounts| {
        assert r.mounts[i] == c.mounts[i];
        VolumesStay(pod, cfg, region, c.mounts[i].name);
      } else {
        InjectedVolumeExists(pod, cfg, region);
      }
    }
  }

  /** Variable and volume names stay unique, and every mount still names a volume of the pod. */
  lemma {:induction false} InjectionKeepsWellFormed(pod: Pod, cfg: PodPatchConfig, region: string)
    requires WellFormedPod(pod)
    ensures WellFormedPod(InjectPod(pod, cfg, region))
  {
    hide ContainerWellFormed, InjectAll, InjectUnlessSkipped, TokenFile;
    var r := InjectPod(pod, cfg, region);
    var tokenFile := TokenFile(pod.nodeSelector, cfg);
    forall i | 0 <= i < |r.containers| ensures ContainerWellFormed(r.containers[i], r) {
      ContainerStaysWellFormed(pod.containers[i], pod, cfg, region, tokenFile);
    }
    forall i | 0 <= i < |r.initContainers| ensures ContainerWellFormed(r.initContainers[i], r) {
      ContainerStaysWellFormed(pod.initContainers[i], pod, cfg, region, tokenFile);
    }
  }
}
