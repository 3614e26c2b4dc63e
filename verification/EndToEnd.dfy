/**
 From the sources to what a reader of the patched pod finds: the account's annotations, the decision, the
 injected containers and the token in the document (pkg/cache/cache.go:215-259,
 pkg/handler/handler.go:311-556).
 */
module EndToEnd {
  import opened Common
  import opened Json
  import opened PodModel
  import opened Injection
  import opened PatchMeaning
  import opened PatchReadings
  import opened Registry
  import opened ServiceAccounts
  import opened PatchConfig
  import FileConfig
  import RoleArn

  // ---------------------------------------------------------------- from the annotation to the role

  /**
   After an account event the account's role is the annotated one: the text itself if composing is off
   or it is a full ARN, else the ARN composed of it.
   */
  lemma AnnotatedRoleDecides(cfg: Settings, s: State, sa: ServiceAccount)
    requires cfg.annotationPrefix + "/role-arn" in sa.annotations && sa.annotations[cfg.annotationPrefix + "/role-arn"] != ""
    ensures
      var s' := Apply(s, SetSA(sa.namespace + "/" + sa.name, EntryOf(cfg, sa)));
      var text := sa.annotations[cfg.annotationPrefix + "/role-arn"];
      var compose := cfg.composeRoleArn;
      RoleFor(s', sa.namespace, sa.name) ==
      if !compose.enabled || RoleArn.Contains(text, "arn:") then text
      else "arn:" + compose.partition + ":iam::" + compose.accountId + ":role/" + text
  {
    EntryIsAnnotated(cfg, sa, EntryOf(cfg, sa));
    hide EntryOf, RoleArn.Contains;
    var compose := cfg.composeRoleArn;
    assert ("arn:" + compose.partition + ":iam::" + compose.accountId + ":role/" + sa.annotations[cfg.annotationPrefix + "/role-arn"]) != "";
  }

  // ---------------------------------------------------------------- from the decision to the containers

  /** What becomes of one container of a decided pod. */
  ghost predicate Mutated(c: Container, r: Container, skipped: bool, cfg: PodPatchConfig, region: string, tokenFile: string) {
    && (skipped ==> r == c)
    && (!skipped && !Complete(c.env, cfg) ==>
          && r.mounts == (if Mounts(c.mounts, cfg.volumeName) then c.mounts
                          else c.mounts + [VolumeMount(cfg.volumeName, true, cfg.mountPath, map[])])
          && (cfg.useRegionalSTS && !HasSts(c.env) ==> Defines(r.env, STS_VAR, "regional"))
          && (region != "" && !HasRegion(c.env) ==> Defines(r.env, REGION_VAR, region) && Defines(r.env, DEFAULT_REGION_VAR, region))
          && (LacksCredentials(c.env, cfg) ==> GetsCredentials(r.env, cfg, tokenFile)))
  }

  ghost predicate AllMutated(m: Modifier, pod: Pod, cs: seq<Container>, rs: seq<Container>, cfg: PodPatchConfig, region: string) {
    && |rs| == |cs|
    && forall i | 0 <= i < |cs| ::
         Mutated(cs[i], rs[i], SkipListed(m, pod, cs[i].name), cfg, region, TokenFile(pod.nodeSelector, cfg))
  }

  lemma ContainerMutated(c: Container, cfg: PodPatchConfig, region: string, tokenFile: string)
    requires cfg.credentials.Some? ==> cfg.webIdentityRole.None?
    ensures Mutated(c, InjectUnlessSkipped(c, cfg, region, tokenFile), c.name in cfg.containersToSkip, cfg, region, tokenFile)
  {
    hide Complete, Mounts, HasSts, HasRegion, LacksCredentials, Defines, GetsCredentials, STS_VAR, REGION_VAR, DEFAULT_REGION_VAR;
    if c.name !in cfg.containersToSkip && !Complete(c.env, cfg) {
      hide InjectUnlessSkipped;
      InjectedMount(c, cfg, region, tokenFile);
      InjectedSettings(c, cfg, region, tokenFile);
      if LacksCredentials(c.env, cfg) {
        InjectedCredentials(c, cfg, region, tokenFile);
      }
    }
  }

  lemma ListMutated(m: Modifier, pod: Pod, cs: seq<Container>, cfg: PodPatchConfig, region: string)
    requires cfg.credentials.Some? ==> cfg.webIdentityRole.None?
    requires forall n :: n in cfg.containersToSkip <==> SkipListed(m, pod, n)
    ensures AllMutated(m, pod, cs, InjectAll(cs, cfg, region, TokenFile(pod.nodeSelector, cfg)), cfg, region)
  {
    hide Mutated, SkipListed, InjectAll, InjectUnlessSkipped, TokenFile;
    forall i | 0 <= i < |cs|
      ensures Mutated(cs[i], InjectUnlessSkipped(cs[i], cfg, region, TokenFile(pod.nodeSelector, cfg)),
                      SkipListed(m, pod, cs[i].name), cfg, region, TokenFile(pod.nodeSelector, cfg))
    {
      ContainerMutated(cs[i], cfg, region, TokenFile(pod.nodeSelector, cfg));
    }
  }

  /**
   A decided pod, container by container: those the pod's own annotation lists are untouched; every other
   one that was not complete gets the decision's mount, regional endpoints, region and credentials.
   */
  lemma DecidedPod(m: Modifier, s: State, later: State, identities: set<FileConfig.Identity>, c: CredentialsConfig,
                   namespace: string, pod: Pod, timedOut: bool, draw: nat, region: string)
    requires draw <= DEFAULT_TOKEN_EXPIRATION - DEFAULT_MIN_TOKEN_EXPIRATION
    requires Decide(m, s, later, identities, c, namespace, pod, timedOut, draw).Some?
    ensures
      var cfg := Decide(m, s, later, identities, c, namespace, pod, timedOut, draw).value;
      var r := InjectPod(pod, cfg, region);
      AllMutated(m, pod, pod.containers, r.containers, cfg, region)
      && AllMutated(m, pod, pod.initContainers, r.initContainers, cfg, region)
  {
    ConfigurationFields(m, s, later, identities, c, namespace, pod, timedOut, draw);
    hide Decide, AllMutated, SkipListed, DecidingEntry, InjectAll, TokenFile, Listed, Source;
    var cfg := Decide(m, s, later, identities, c, namespace, pod, timedOut, draw).value;
    ListMutated(m, pod, pod.containers, cfg, region);
    ListMutated(m, pod, pod.initContainers, cfg, region);
  }

  // ---------------------------------------------------------------- from the decision to the document

  /** The document after the emitted patch. */
  function Patched(doc: Json, cfg: PodPatchConfig, region: string): Option<Json>
    requires DecodePod(doc).Some?
  {
    ApplyPatch(doc, PodSpecPatch(DecodePod(doc).value, cfg, region))
  }

  /** The seconds the injected token lasts, as the patched document says. */
  function TokenSeconds(doc: Json, cfg: PodPatchConfig, region: string): Option<int>
    requires DecodePod(doc).Some?
  {
    var j := if Patched(doc, cfg, region).None? then None
             else Evaluate(Patched(doc, cfg, region).value, TokenPath("expirationSeconds"));
    if j.Some? && j.value.JNum? then Some(j.value.n) else None
  }

  /** The patch injects a token volume into the document. */
  predicate InjectsToken(doc: Json, cfg: PodPatchConfig)
    requires DecodePod(doc).Some?
  {
    Patchable(doc, cfg) && !HasVolume(DecodePod(doc).value, cfg.volumeName)
  }

  lemma TokenSecondsRead(doc: Json, cfg: PodPatchConfig, region: string)
    requires DecodePod(doc).Some? && InjectsToken(doc, cfg)
    ensures TokenSeconds(doc, cfg, region) == Some(cfg.tokenExpiration)
  {
    PatchedToken(doc, cfg, region);
    hide DecodePod, ApplyPatch, PodSpecPatch, Evaluate, TokenPath, Patchable, HasVolume;
  }

  /**
   Short tokens in documents, exactly. Over every run of the cache with the flag clamped at start and any
   ConfigMap values, and for every document the patch adds a token to, the token the patched document
   asks for is shorter than 600 seconds if and only if the pod has no valid annotation and the entry that
   decides is a ConfigMap entry below the minimum.
   */
  lemma ShortTokensInDocuments(cfg: Settings, flag: int, ops: seq<Op>, more: seq<Op>, m: Modifier,
                               identities: set<FileConfig.Identity>, c: CredentialsConfig, namespace: string, doc: Json,
                               timedOut: bool, draw: nat, region: string)
    requires draw <= DEFAULT_TOKEN_EXPIRATION - DEFAULT_MIN_TOKEN_EXPIRATION && DecodePod(doc).Some?
    requires cfg.defaultTokenExpiration == ValidateMinTokenExpiration(flag)
    requires forall i | 0 <= i < |ops + more| :: Sourced(cfg, (ops + more)[i])
    ensures
      var s, later, pod := ApplyAll(EMPTY, ops), ApplyAll(EMPTY, ops + more), DecodePod(doc).value;
      var decision := Decide(m, s, later, identities, c, namespace, pod, timedOut, draw);
      var listed := Listed(identities, namespace, pod);
      var source := if listed then s else Source(m, s, later, namespace, pod);
      decision.Some? && InjectsToken(doc, decision.value) ==>
        var seconds := TokenSeconds(doc, decision.value, region);
        seconds.Some? &&
        (seconds.value < 600 <==>
           PodExpiration(m, pod).None? && ShortInConfigMap(source, namespace, pod.serviceAccountName, listed))
  {
    hide Sourced, Decide, ApplyAll, ShortInConfigMap, Listed, Source, PodExpiration, TokenSeconds, InjectsToken, DecodePod;
    var s, later, pod := ApplyAll(EMPTY, ops), ApplyAll(EMPTY, ops + more), DecodePod(doc).value;
    ShortTokensIff(cfg, flag, ops, more, m, identities, c, namespace, pod, timedOut, draw);
    var decision := Decide(m, s, later, identities, c, namespace, pod, timedOut, draw);
    if decision.Some? && InjectsToken(doc, decision.value) {
      TokenSecondsRead(doc, decision.value, region);
    }
  }

  /**
   With ConfigMap values zero or at least 600, no document is patched with a token that lasts less than
   600 seconds.
   */
  lemma NoShortTokensInDocuments(cfg: Settings, flag: int, ops: seq<Op>, more: seq<Op>, m: Modifier,
                                 identities: set<FileConfig.Identity>, c: CredentialsConfig, namespace: string, doc: Json,
                                 timedOut: bool, draw: nat, region: string)
    requires draw <= DEFAULT_TOKEN_EXPIRATION - DEFAULT_MIN_TOKEN_EXPIRATION && DecodePod(doc).Some?
    requires cfg.defaultTokenExpiration == ValidateMinTokenExpiration(flag)
    requires forall i | 0 <= i < |ops + more| :: Issued(cfg, (ops + more)[i])
    ensures
      var s, later := ApplyAll(EMPTY, ops), ApplyAll(EMPTY, ops + more);
      var decision := Decide(m, s, later, identities, c, namespace, DecodePod(doc).value, timedOut, draw);
      decision.Some? && InjectsToken(doc, decision.value) ==>
        TokenSeconds(doc, decision.value, region).Some? && TokenSeconds(doc, decision.value, region).value >= 600
  {
    hide Issued, Decide, ApplyAll, TokenSeconds, InjectsToken, DecodePod;
    var s, later := ApplyAll(EMPTY, ops), ApplyAll(EMPTY, ops + more);
    NoShortTokens(cfg, flag, ops, more, m, identities, c, namespace, DecodePod(doc).value, timedOut, draw);
    var decision := Decide(m, s, later, identities, c, namespace, DecodePod(doc).value, timedOut, draw);
    if decision.Some? && InjectsToken(doc, decision.value) {
      TokenSecondsRead(doc, decision.value, region);
    }
  }

  /**
   What a reader of the patched document finds for a decided pod: the token as the decision says, and
   in both lists the containers of the injected pod.
   */
  lemma DecidedDocument(m: Modifier, s: State, later: State, identities: set<FileConfig.Identity>, c: CredentialsConfig,
                        namespace: string, doc: Json, timedOut: bool, draw: nat, region: string)
    requires draw <= DEFAULT_TOKEN_EXPIRATION - DEFAULT_MIN_TOKEN_EXPIRATION && DecodePod(doc).Some?
    requires var decision := Decide(m, s, later, identities, c, namespace, DecodePod(doc).value, timedOut, draw);
             decision.Some? && Patchable(doc, decision.value)
    ensures
      var pod := DecodePod(doc).value;
      var cfg := Decide(m, s, later, identities, c, namespace, pod, timedOut, draw).value;
      var patched, r := Patched(doc, cfg, region), InjectPod(pod, cfg, region);
      && patched.Some?
      && (!HasVolume(pod, cfg.volumeName) ==> ShowsToken(patched.value, cfg))
      && Shows(patched.value, "containers", r.containers) && AllMutated(m, pod, pod.containers, r.containers, cfg, region)
      && Shows(patched.value, "initContainers", r.initContainers)
      && AllMutated(m, pod, pod.initContainers, r.initContainers, cfg, region)
  {
    hide Decide, DecodePod, ApplyPatch, PodSpecPatch, InjectPod, ShowsToken, Shows, AllMutated, HasVolume, Patchable;
    var pod := DecodePod(doc).value;
    var cfg := Decide(m, s, later, identities, c, namespace, pod, timedOut, draw).value;
    DecidedPod(m, s, later, identities, c, namespace, pod, timedOut, draw, region);
    PatchedContainers(doc, cfg, region);
    if !HasVolume(pod, cfg.volumeName) {
      PatchedToken(doc, cfg, region);
    }
  }
}
