/**
 Deciding what to inject: the sources consulted for a pod and the configuration merged from them
 (pkg/handler/handler.go:153-170, 287-308, 431-517).
 */
module PatchConfig {
  import opened Common
  import opened Registry
  import opened PodModel
  import opened Injection
  import opened ServiceAccounts
  import ConfigMapSync
  import FileConfig

  /** Flags of the modifier, plus Go's integer, CSV and path functions. */
  datatype Modifier = Modifier(
    annotationDomain: string,
    mountPath: string,
    volumeName: string,
    tokenName: string,
    gracePeriod: bool,
    parseInt: string -> Option<int>,
    parseCsv: string -> Option<seq<string>>,
    joinPath: (string, string) -> string
  )

  /** How waiting for a notification ends. */
  datatype Wait = Notified(second: Response) | TimedOut

  /** `getContainersToSkip`: an unparseable annotation skips nothing. */
  method GetContainersToSkip(m: Modifier, pod: Pod) returns (skipped: set<string>)
    ensures skipped == ContainersToSkip(m, pod)
  {
    skipped := {};
    var value := Lookup(pod.annotations, m.annotationDomain + "/" + "skip-containers");
    if value.Some? {
      var names := m.parseCsv(value.value);
      if names.None? {
        return;
      }
      for i := 0 to |names.value|
        invariant skipped == set n | n in names.value[..i]
      {
        skipped := skipped + {names.value[i]};
        assert names.value[..i + 1] == names.value[..i] + [names.value[i]];
      }
      assert names.value[..|names.value|] == names.value;
    }
  }

  function ContainersToSkip(m: Modifier, pod: Pod): set<string> {
    var value := Lookup(pod.annotations, m.annotationDomain + "/" + "skip-containers");
    if value.None? || m.parseCsv(value.value).None? then {} else set n | n in m.parseCsv(value.value).value
  }

  /** The pod's own expiration annotation, if it is there and parses. */
  function PodExpiration(m: Modifier, pod: Pod): Option<int> {
    var value := Lookup(pod.annotations, m.annotationDomain + "/" + "token-expiration");
    if value.None? then None else m.parseInt(value.value)
  }

  /** `parsePodAnnotations`: the pod's annotation wins over the account's expiration. */
  function Expiration(m: Modifier, pod: Pod, accountExpiration: int): int {
    var own := PodExpiration(m, pod);
    if own.Some? then ValidateMinTokenExpiration(own.value) else accountExpiration
  }

  /** `addJitterToDefaultToken`; `draw` is the random number, below 7201. */
  function AddJitter(expiration: int, draw: nat): (r: int)
    requires draw <= DEFAULT_TOKEN_EXPIRATION - DEFAULT_MIN_TOKEN_EXPIRATION
    ensures expiration == 86400 ==> 79200 <= r <= 86400
    ensures expiration != 86400 ==> r == expiration
  {
    if expiration == DEFAULT_TOKEN_EXPIRATION then draw + DEFAULT_MIN_TOKEN_EXPIRATION else expiration
  }

  function CredentialsPatch(m: Modifier, pod: Pod, c: CredentialsConfig, common: (bool, int), draw: nat): PodPatchConfig
    requires draw <= DEFAULT_TOKEN_EXPIRATION - DEFAULT_MIN_TOKEN_EXPIRATION
  {
    PodPatchConfig(ContainersToSkip(m, pod), AddJitter(Expiration(m, pod, common.1), draw), common.0,
                   c.audience, c.mountPath, c.volumeName, c.tokenPath, m.joinPath(c.mountPath, c.tokenPath),
                   None, Some(c))
  }

  function WebIdentityPatch(m: Modifier, pod: Pod, r: Response): PodPatchConfig {
    PodPatchConfig(ContainersToSkip(m, pod), Expiration(m, pod, r.tokenExpiration), r.useRegionalSTS,
                   r.audience, m.mountPath, m.volumeName, m.tokenName, m.joinPath(m.mountPath, m.tokenName),
                   Some(r.roleArn), None)
  }

  /**
   `buildPodPatchConfig`. `credentials` is the container-credentials lookup, `common` what
   `GetCommonConfigurations` returned, `first` the first `Get` and `wait` how waiting ended.
   */
  function BuildPodPatchConfig(m: Modifier, pod: Pod, credentials: Option<CredentialsConfig>, common: (bool, int),
                               first: Response, wait: Wait, draw: nat): Option<PodPatchConfig>
    requires draw <= DEFAULT_TOKEN_EXPIRATION - DEFAULT_MIN_TOKEN_EXPIRATION
  {
    if credentials.Some? then Some(CredentialsPatch(m, pod, credentials.value, common, draw))
    else if !first.found && m.gracePeriod && (wait.TimedOut? || !wait.second.found) then None
    else
      var response := if !first.found && m.gracePeriod then wait.second else first;
      if response.roleArn != "" then Some(WebIdentityPatch(m, pod, response)) else None
  }

  // ---------------------------------------------------------------- against the cache

  /** The role the sources name for an account, most specific first. */
  function RoleFor(s: State, namespace: string, account: string): string {
    var k := namespace + "/" + account;
    if k in s.saCache && s.saCache[k].roleArn != "" then s.saCache[k].roleArn
    else if k in s.cmCache then s.cmCache[k].roleArn
    else if "*/" + account in s.cmCache then s.cmCache["*/" + account].roleArn
    else ""
  }

  /** Some source knows the account, with or without a role. */
  predicate Known(s: State, namespace: string, account: string) {
    var k := namespace + "/" + account;
    k in s.saCache || k in s.cmCache || "*/" + account in s.cmCache
  }

  /**
   The decision for a pod: `s` is the cache at the first lookup and `later` the cache at the lookup
   after a notification, if the handler waits and is notified before it times out.
   */
  function Decide(m: Modifier, s: State, later: State, identities: set<FileConfig.Identity>, c: CredentialsConfig,
                  namespace: string, pod: Pod, timedOut: bool, draw: nat): Option<PodPatchConfig>
    requires draw <= DEFAULT_TOKEN_EXPIRATION - DEFAULT_MIN_TOKEN_EXPIRATION
  {
    var account := pod.serviceAccountName;
    var req := Request(account, namespace, m.gracePeriod);
    BuildPodPatchConfig(
      m, pod,
      if Listed(identities, namespace, pod) then Some(c) else None,
      CommonConfigurations(s, account, namespace),
      GetResponse(s, req),
      if timedOut then TimedOut else Notified(GetResponse(later, req.(notify := false))),
      draw)
  }

  /** The pod's account is listed for container credentials. */
  predicate Listed(identities: set<FileConfig.Identity>, namespace: string, pod: Pod) {
    FileConfig.Identity(namespace, pod.serviceAccountName) in identities
  }

  /** The handler waits: nothing knows the account and there is a grace period. */
  predicate Waits(m: Modifier, s: State, namespace: string, pod: Pod) {
    m.gracePeriod && !Known(s, namespace, pod.serviceAccountName)
  }

  /** The state the role is read from. */
  function Source(m: Modifier, s: State, later: State, namespace: string, pod: Pod): State {
    if Waits(m, s, namespace, pod) then later else s
  }

  /** `c` got credentials of the given kind and none of the other. */
  ghost predicate OnlyAppends(c: Container, r: Container, webIdentity: bool) {
    && c.env <= r.env
    && (webIdentity ==> !HasCredentials(r.env[|c.env|..]))
    && (!webIdentity ==> !HasWebIdentity(r.env[|c.env|..]))
  }

  /**
   What injection does to a list of containers: only one kind of credentials is appended, and every
   container that is not skipped and had none of that kind has exactly the configured ones.
   */
  ghost predicate Credentialed(cs: seq<Container>, rs: seq<Container>, cfg: PodPatchConfig, tokenFile: string) {
    && |rs| == |cs|
    && (forall i | 0 <= i < |cs| :: OnlyAppends(cs[i], rs[i], cfg.credentials.None?))
    && (forall i | 0 <= i < |cs| && cs[i].name !in cfg.containersToSkip && LacksCredentials(cs[i].env, cfg) ::
          GetsCredentials(rs[i].env, cfg, tokenFile))
  }

  /**
   The decision, exactly. A pod gets a configuration if and only if its account is listed, or the first
   lookup finds a role, or the handler waits, is notified in time and the second lookup finds a role. A
   listed account gets container credentials and no role; otherwise the role is that of the annotated
   account, else of the exact ConfigMap key, else of the `*` key, in the state that was waited for.
   */
  lemma DecisionFollowsSources(m: Modifier, s: State, later: State, identities: set<FileConfig.Identity>,
                               c: CredentialsConfig, namespace: string, pod: Pod, timedOut: bool, draw: nat)
    requires draw <= DEFAULT_TOKEN_EXPIRATION - DEFAULT_MIN_TOKEN_EXPIRATION
    ensures
      var cfg := Decide(m, s, later, identities, c, namespace, pod, timedOut, draw);
      var listed := FileConfig.Identity(namespace, pod.serviceAccountName) in identities;
      var waits := Waits(m, s, namespace, pod);
      var role := RoleFor(Source(m, s, later, namespace, pod), namespace, pod.serviceAccountName);
      && (cfg.Some? <==> listed || ((waits ==> !timedOut) && role != ""))
      && (listed ==> cfg.value.credentials == Some(c) && cfg.value.webIdentityRole == None)
      && (cfg.Some? && !listed ==> cfg.value.webIdentityRole == Some(role) && cfg.value.credentials == None)
  {
    var req := Request(pod.serviceAccountName, namespace, m.gracePeriod);
    GetNamesRole(s, req);
    GetNamesRole(later, req.(notify := false));
    hide GetResponse, RoleFor, Known, CommonConfigurations, ContainersToSkip, Expiration;
  }

  /**
   Source precedence, end to end: what the decision injects. A listed account gets container credentials
   and the label, and never a web-identity variable; otherwise AWS_ROLE_ARN is the role of the deciding
   source and no container-credentials variable or label is injected; and without a role there is no
   patch.
   */
  lemma {:induction false} SourcePrecedence(
    m: Modifier, s: State, later: State, identities: set<FileConfig.Identity>, c: CredentialsConfig,
    namespace: string, pod: Pod, timedOut: bool, draw: nat, region: string)
    requires draw <= DEFAULT_TOKEN_EXPIRATION - DEFAULT_MIN_TOKEN_EXPIRATION
    ensures
      var cfg := Decide(m, s, later, identities, c, namespace, pod, timedOut, draw);
      var listed := Listed(identities, namespace, pod);
      var role := RoleFor(Source(m, s, later, namespace, pod), namespace, pod.serviceAccountName);
      && (cfg.Some? <==> listed || ((Waits(m, s, namespace, pod) ==> !timedOut) && role != ""))
      && (listed ==> cfg.value.credentials == Some(c) && cfg.value.webIdentityRole == None)
      && (cfg.Some? && !listed ==> cfg.value.webIdentityRole == Some(role) && cfg.value.credentials == None)
      && (cfg.Some? ==>
            var r := InjectPod(pod, cfg.value, region);
            && (listed ==> r.labels.Some? && LABEL in r.labels.value && r.labels.value[LABEL] == "enabled")
            && (!listed ==> r.labels == pod.labels)
            && Credentialed(pod.containers, r.containers, cfg.value, TokenFile(pod.nodeSelector, cfg.value))
            && Credentialed(pod.initContainers, r.initContainers, cfg.value, TokenFile(pod.nodeSelector, cfg.value)))
  {
    DecisionFollowsSources(m, s, later, identities, c, namespace, pod, timedOut, draw);
    hide Decide, RoleFor, Listed, Waits, Source, Credentialed, InjectAll, TokenFile;
    var decision := Decide(m, s, later, identities, c, namespace, pod, timedOut, draw);
    if decision.Some? {
      var cfg := decision.value;
      var tokenFile := TokenFile(pod.nodeSelector, cfg);
      AllCredentialed(pod.containers, cfg, region, tokenFile);
      AllCredentialed(pod.initContainers, cfg, region, tokenFile);
    }
  }

  lemma AllCredentialed(cs: seq<Container>, cfg: PodPatchConfig, region: string, tokenFile: string)
    requires cfg.credentials.Some? ==> cfg.webIdentityRole.None?
    ensures Credentialed(cs, InjectAll(cs, cfg, region, tokenFile), cfg, tokenFile)
  {
    hide InjectAll, OnlyAppends, InjectUnlessSkipped, LacksCredentials, GetsCredentials;
    var rs := InjectAll(cs, cfg, region, tokenFile);
    forall i | 0 <= i < |cs| ensures OnlyAppends(cs[i], rs[i], cfg.credentials.None?) {
      AppendsOneKind(cs[i], cfg, region, tokenFile);
    }
    forall i | 0 <= i < |cs| && cs[i].name !in cfg.containersToSkip && LacksCredentials(cs[i].env, cfg)
      ensures GetsCredentials(rs[i].env, cfg, tokenFile)
    {
      InjectedCredentials(cs[i], cfg, region, tokenFile);
    }
  }

  lemma GetNamesRole(s: State, req: Request)
    ensures GetResponse(s, req).roleArn == RoleFor(s, req.namespace, req.name)
    ensures GetResponse(s, req).roleArn != "" ==> GetResponse(s, req).found
    ensures GetResponse(s, req).found <==> Known(s, req.namespace, req.name)
  {
    hide CacheKey, WildcardKey;
    assert CacheKey(req) == req.namespace + "/" + req.name by { KeysOf(req); }
    assert WildcardKey(req) == "*/" + req.name by { KeysOf(req); }
  }

  lemma KeysOf(req: Request)
    ensures CacheKey(req) == req.namespace + "/" + req.name
    ensures WildcardKey(req) == "*/" + req.name
  {
  }

  lemma AppendsOneKind(c: Container, cfg: PodPatchConfig, region: string, tokenFile: string)
    ensures OnlyAppends(c, InjectUnlessSkipped(c, cfg, region, tokenFile), cfg.credentials.None?)
  {
    ModesExclude(c.env, cfg, region, tokenFile);
    hide STS_VAR, REGION_VAR, DEFAULT_REGION_VAR, ROLE_VAR, WEB_TOKEN_VAR, URI_VAR, AUTH_TOKEN_VAR, Complete, StsVars, RegionVars,
      CredentialVars, Mounts;
    var r := InjectUnlessSkipped(c, cfg, region, tokenFile);
    var added := Additions(c.env, cfg, region, tokenFile);
    if r.env == c.env {
      assert r.env[|c.env|..] == [];
    } else {
      assert r.env[|c.env|..] == added;
    }
  }

  // ---------------------------------------------------------------- the configuration

  /** The pod's skip annotation parses and lists the name. */
  predicate SkipListed(m: Modifier, pod: Pod, name: string) {
    var key := m.annotationDomain + "/skip-containers";
    key in pod.annotations && m.parseCsv(pod.annotations[key]).Some? && name in m.parseCsv(pod.annotations[key]).value
  }

  /** The two annotations the webhook reads off the pod, under their full names. */
  lemma PodAnnotationsRead(m: Modifier, pod: Pod)
    ensures forall n :: n in ContainersToSkip(m, pod) <==> SkipListed(m, pod, n)
    ensures var key := m.annotationDomain + "/token-expiration";
            PodExpiration(m, pod) == if key in pod.annotations then m.parseInt(pod.annotations[key]) else None
  {
    FullName(m.annotationDomain, "skip-containers");
    FullName(m.annotationDomain, "token-expiration");
    assert "/" + "skip-containers" == "/skip-containers" && "/" + "token-expiration" == "/token-expiration";
  }

  /** `e` is the most specific entry for the account that can name a role. */
  predicate DecidingEntry(s: State, namespace: string, account: string, e: Entry) {
    var k, wild := namespace + "/" + account, "*/" + account;
    if k in s.saCache && s.saCache[k].roleArn != "" then e == s.saCache[k]
    else if k in s.cmCache then e == s.cmCache[k]
    else wild in s.cmCache && e == s.cmCache[wild]
  }

  /** A web-identity configuration: credentials from the entry, names and paths from the modifier. */
  predicate WebConfiguration(m: Modifier, e: Entry, cfg: PodPatchConfig) {
    && cfg.webIdentityRole == Some(e.roleArn) && cfg.credentials == None
    && cfg.audience == e.audience && cfg.useRegionalSTS == e.useRegionalSTS
    && cfg.mountPath == m.mountPath && cfg.volumeName == m.volumeName && cfg.tokenPath == m.tokenName
    && cfg.tokenFile == m.joinPath(m.mountPath, m.tokenName)
  }

  /** A container-credentials configuration: all from the identity's settings, but regional endpoints from the caches. */
  predicate CredentialsConfiguration(m: Modifier, s: State, namespace: string, account: string, c: CredentialsConfig,
                                     cfg: PodPatchConfig) {
    var k := namespace + "/" + account;
    && cfg.credentials == Some(c) && cfg.webIdentityRole == None
    && cfg.audience == c.audience && cfg.mountPath == c.mountPath && cfg.volumeName == c.volumeName
    && cfg.tokenPath == c.tokenPath && cfg.tokenFile == m.joinPath(c.mountPath, c.tokenPath)
    && cfg.useRegionalSTS == if k in s.saCache then s.saCache[k].useRegionalSTS
                             else k in s.cmCache && s.cmCache[k].useRegionalSTS
  }

  lemma GetCarriesEntry(s: State, req: Request) returns (e: Entry)
    requires GetResponse(s, req).roleArn != ""
    ensures DecidingEntry(s, req.namespace, req.name, e) && Carries(GetResponse(s, req), e)
  {
    hide CacheKey, WildcardKey;
    KeysOf(req);
    var k := CacheKey(req);
    e := if k in s.saCache && s.saCache[k].roleArn != "" then s.saCache[k]
         else if k in s.cmCache then s.cmCache[k] else s.cmCache[WildcardKey(req)];
  }

  lemma CommonRegional(s: State, namespace: string, account: string)
    ensures var k := namespace + "/" + account;
            CommonConfigurations(s, account, namespace).0
            == if k in s.saCache then s.saCache[k].useRegionalSTS else k in s.cmCache && s.cmCache[k].useRegionalSTS
  {
    KeysOf(Request(account, namespace, false));
    hide CacheKey;
  }

  /**
   The configuration, field by field: the skip set is what the pod's annotation lists; a listed account
   has the identity's settings; any other has role, audience and regional endpoints of the entry that
   decides in the state that was waited for, and names and paths of the modifier.
   */
  lemma ConfigurationFields(m: Modifier, s: State, later: State, identities: set<FileConfig.Identity>,
                            c: CredentialsConfig, namespace: string, pod: Pod, timedOut: bool, draw: nat)
    requires draw <= DEFAULT_TOKEN_EXPIRATION - DEFAULT_MIN_TOKEN_EXPIRATION
    requires Decide(m, s, later, identities, c, namespace, pod, timedOut, draw).Some?
    ensures
      var cfg := Decide(m, s, later, identities, c, namespace, pod, timedOut, draw).value;
      && (forall n :: n in cfg.containersToSkip <==> SkipListed(m, pod, n))
      && if Listed(identities, namespace, pod)
         then CredentialsConfiguration(m, s, namespace, pod.serviceAccountName, c, cfg)
         else exists e :: DecidingEntry(Source(m, s, later, namespace, pod), namespace, pod.serviceAccountName, e)
                          && e.roleArn != "" && WebConfiguration(m, e, cfg)
  {
    var req := Request(pod.serviceAccountName, namespace, m.gracePeriod);
    PodAnnotationsRead(m, pod);
    hide ContainersToSkip, SkipListed, Expiration, GetResponse, CommonConfigurations, Known, DecidingEntry;
    if Listed(identities, namespace, pod) {
      CommonRegional(s, namespace, pod.serviceAccountName);
    } else {
      GetNamesRole(s, req);
      var cfg := Decide(m, s, later, identities, c, namespace, pod, timedOut, draw).value;
      var e;
      if Waits(m, s, namespace, pod) {
        e := GetCarriesEntry(later, req.(notify := false));
      } else {
        e := GetCarriesEntry(s, req);
      }
      assert WebConfiguration(m, e, cfg);
    }
  }

  // ---------------------------------------------------------------- the grace period

  /**
   The grace period at work. A handler whose first lookup finds nothing holds an open channel; if it is
   closed when the handler looks again, the account was inserted in between, at position `i` of the
   operations that followed; and unless it was removed after that, the second lookup finds it and the
   decision is the role it names, if any.
   */
  lemma {:induction false} NotifiedDecision(
    m: Modifier, ops: seq<Op>, more: seq<Op>, identities: set<FileConfig.Identity>, c: CredentialsConfig,
    namespace: string, pod: Pod, draw: nat) returns (i: nat)
    requires draw <= DEFAULT_TOKEN_EXPIRATION - DEFAULT_MIN_TOKEN_EXPIRATION
    requires !Listed(identities, namespace, pod) && Waits(m, ApplyAll(EMPTY, ops), namespace, pod)
    requires var req := Request(pod.serviceAccountName, namespace, true);
             var notifier := GetResponse(ApplyAll(EMPTY, ops), req).notifier;
             notifier.Some? ==> notifier.value in ApplyAll(EMPTY, ops + [GetSA(req)] + more).n.closeLog
    ensures
      var req := Request(pod.serviceAccountName, namespace, true);
      var s, later := ApplyAll(EMPTY, ops), ApplyAll(EMPTY, ops + [GetSA(req)] + more);
      var cfg := Decide(m, s, later, identities, c, namespace, pod, false, draw);
      var role := RoleFor(later, namespace, pod.serviceAccountName);
      && i < |more| && more[i].SetSA? && more[i].key == CacheKey(req)
      && ((forall op | op in more[i + 1..] :: !Removes(op, CacheKey(req))) ==>
            CacheKey(req) in later.saCache && GetResponse(later, req.(notify := false)).found)
      && (cfg.Some? <==> role != "") && (cfg.Some? ==> cfg.value.webIdentityRole == Some(role))
  {
    var req := Request(pod.serviceAccountName, namespace, true);
    var s := ApplyAll(EMPTY, ops);
    var all := ops + [GetSA(req)] + more;
    DecisionFollowsSources(m, s, ApplyAll(EMPTY, all), identities, c, namespace, pod, false, draw);
    GetNamesRole(s, req);
    GetNamesRole(ApplyAll(EMPTY, all), req.(notify := false));
    hide Decide, RoleFor, Listed, Known, GetResponse, Apply;
    NotFoundCarriesNotifier(ops, req);
    var notifier := GetResponse(s, req).notifier.value;
    i := ClosedLater(ops, req, more, notifier);
  }

  // ---------------------------------------------------------------- token lifetimes

  /** The expiration the caches give the account, in the state that was decided on. */
  function CachedExpiration(m: Modifier, s: State, later: State, identities: set<FileConfig.Identity>,
                            namespace: string, pod: Pod): int {
    if Listed(identities, namespace, pod) then CommonConfigurations(s, pod.serviceAccountName, namespace).1
    else
      var req := Request(pod.serviceAccountName, namespace, false);
      GetResponse(Source(m, s, later, namespace, pod), req).tokenExpiration
  }

  /**
   Token lifetime, whatever the caches hold. A valid annotation on the pod decides, else the cached
   value; in container-credentials mode the default becomes a value between 79200 and 86400, and
   everything else is kept. So a token lasts the minimum exactly if the pod has a valid annotation or
   the cached value does.
   */
  lemma TokenLifetime(m: Modifier, s: State, later: State, identities: set<FileConfig.Identity>, c: CredentialsConfig,
                      namespace: string, pod: Pod, timedOut: bool, draw: nat)
    requires draw <= DEFAULT_TOKEN_EXPIRATION - DEFAULT_MIN_TOKEN_EXPIRATION
    requires Decide(m, s, later, identities, c, namespace, pod, timedOut, draw).Some?
    ensures
      var cfg := Decide(m, s, later, identities, c, namespace, pod, timedOut, draw).value;
      var own := PodExpiration(m, pod);
      var cached := CachedExpiration(m, s, later, identities, namespace, pod);
      var wanted := if own.Some? then ValidateMinTokenExpiration(own.value) else cached;
      && (cfg.tokenExpiration >= MIN_TOKEN_EXPIRATION <==> own.Some? || cached >= MIN_TOKEN_EXPIRATION)
      && if Listed(identities, namespace, pod) && wanted == DEFAULT_TOKEN_EXPIRATION
         then DEFAULT_MIN_TOKEN_EXPIRATION <= cfg.tokenExpiration <= DEFAULT_TOKEN_EXPIRATION
         else cfg.tokenExpiration == wanted
  {
    var req := Request(pod.serviceAccountName, namespace, m.gracePeriod);
    GetNamesRole(s, req);
    SameExpiration(s, req);
    hide GetResponse, CommonConfigurations, ContainersToSkip, PodExpiration, Known;
  }

  lemma SameExpiration(s: State, req: Request)
    ensures GetResponse(s, req).tokenExpiration == GetResponse(s, req.(notify := false)).tokenExpiration
  {
    hide CacheKey, WildcardKey;
    KeysOf(req);
    KeysOf(req.(notify := false));
  }

  /** The entry that decides about the account's expiration is a ConfigMap entry below the minimum. */
  predicate ShortInConfigMap(s: State, namespace: string, account: string, listed: bool) {
    var k, wild := namespace + "/" + account, "*/" + account;
    if listed then k !in s.saCache && k in s.cmCache && s.cmCache[k].tokenExpiration < MIN_TOKEN_EXPIRATION
    else
      && !(k in s.saCache && s.saCache[k].roleArn != "")
      && if k in s.cmCache then s.cmCache[k].tokenExpiration < MIN_TOKEN_EXPIRATION
         else wild in s.cmCache && s.cmCache[wild].tokenExpiration < MIN_TOKEN_EXPIRATION
  }

  lemma ShortResponses(s: State, req: Request)
    requires Lasting(s.saCache)
    ensures GetResponse(s, req).tokenExpiration < MIN_TOKEN_EXPIRATION <==>
              ShortInConfigMap(s, req.namespace, req.name, false)
    ensures CommonConfigurations(s, req.name, req.namespace).1 < MIN_TOKEN_EXPIRATION <==>
              ShortInConfigMap(s, req.namespace, req.name, true)
  {
    hide CacheKey, WildcardKey;
    KeysOf(req);
    KeysOf(Request(req.name, req.namespace, false));
  }

  /**
   Short tokens, exactly. Over every run of the cache with the flag clamped at start and any ConfigMap
   values - decided at the first lookup, after `ops`, or after a wait, when `more` has happened - a token
   is too short if and only if the pod has no valid annotation and the entry that decides is a ConfigMap
   entry below the minimum.
   */
  lemma ShortTokensIff(cfg: Settings, flag: int, ops: seq<Op>, more: seq<Op>, m: Modifier,
                       identities: set<FileConfig.Identity>, c: CredentialsConfig, namespace: string, pod: Pod,
                       timedOut: bool, draw: nat)
    requires draw <= DEFAULT_TOKEN_EXPIRATION - DEFAULT_MIN_TOKEN_EXPIRATION
    requires cfg.defaultTokenExpiration == ValidateMinTokenExpiration(flag)
    requires forall i | 0 <= i < |ops + more| :: Sourced(cfg, (ops + more)[i])
    ensures
      var s, later := ApplyAll(EMPTY, ops), ApplyAll(EMPTY, ops + more);
      var decision := Decide(m, s, later, identities, c, namespace, pod, timedOut, draw);
      var listed := Listed(identities, namespace, pod);
      var source := if listed then s else Source(m, s, later, namespace, pod);
      decision.Some? ==>
        (decision.value.tokenExpiration < MIN_TOKEN_EXPIRATION <==>
           PodExpiration(m, pod).None? && ShortInConfigMap(source, namespace, pod.serviceAccountName, listed))
  {
    hide Sourced, Decide, ApplyAll, GetResponse, CommonConfigurations, ShortInConfigMap, Listed, Waits, PodExpiration, Lasting;
    var s, later := ApplyAll(EMPTY, ops), ApplyAll(EMPTY, ops + more);
    forall i | 0 <= i < |ops| ensures Sourced(cfg, ops[i]) {
      assert (ops + more)[i] == ops[i];
    }
    AccountsLast(cfg, ops);
    AccountsLast(cfg, ops + more);
    var req := Request(pod.serviceAccountName, namespace, false);
    ShortResponses(s, req);
    ShortResponses(later, req);
    if Decide(m, s, later, identities, c, namespace, pod, timedOut, draw).Some? {
      TokenLifetime(m, s, later, identities, c, namespace, pod, timedOut, draw);
    }
  }

  lemma AfterOneSet(k: Key, e: Entry)
    ensures ApplyAll(EMPTY, [SetCM(k, e)]) == EMPTY.(cmCache := map[k := e])
  {
    assert [SetCM(k, e)][..0] == [];
    assert ApplyAll(EMPTY, []) == EMPTY;
  }

  /** One ConfigMap entry below the minimum is enough: its role is injected with its expiration. */
  lemma ShortTokenFromConfigMap(m: Modifier, e: Entry, default: int, identities: set<FileConfig.Identity>,
                                c: CredentialsConfig, namespace: string, pod: Pod, timedOut: bool, draw: nat)
    requires draw <= DEFAULT_TOKEN_EXPIRATION - DEFAULT_MIN_TOKEN_EXPIRATION
    requires e.roleArn != "" && e.tokenExpiration != 0 && e.tokenExpiration < MIN_TOKEN_EXPIRATION
    requires !Listed(identities, namespace, pod) && PodExpiration(m, pod).None?
    ensures
      var s := ApplyAll(EMPTY, [SetCM(namespace + "/" + pod.serviceAccountName, ConfigMapSync.Fill(e, default))]);
      var decision := Decide(m, s, s, identities, c, namespace, pod, timedOut, draw);
      decision.Some? && decision.value.tokenExpiration == e.tokenExpiration < MIN_TOKEN_EXPIRATION
  {
    var k := namespace + "/" + pod.serviceAccountName;
    AfterOneSet(k, e);
    var s := ApplyAll(EMPTY, [SetCM(k, e)]);
    hide ApplyAll, PodExpiration, Listed;
    DecisionFollowsSources(m, s, s, identities, c, namespace, pod, timedOut, draw);
    KeysOf(Request(pod.serviceAccountName, namespace, false));
    hide CacheKey, WildcardKey, Decide;
    TokenLifetime(m, s, s, identities, c, namespace, pod, timedOut, draw);
  }

  /**
   Over every run of the cache, with the flag clamped at start and ConfigMap values zero or at least the
   minimum, no injected token is too short.
   */
  lemma NoShortTokens(cfg: Settings, flag: int, ops: seq<Op>, more: seq<Op>, m: Modifier,
                      identities: set<FileConfig.Identity>, c: CredentialsConfig, namespace: string, pod: Pod,
                      timedOut: bool, draw: nat)
    requires draw <= DEFAULT_TOKEN_EXPIRATION - DEFAULT_MIN_TOKEN_EXPIRATION
    requires cfg.defaultTokenExpiration == ValidateMinTokenExpiration(flag)
    requires forall i | 0 <= i < |ops + more| :: Issued(cfg, (ops + more)[i])
    ensures
      var s, later := ApplyAll(EMPTY, ops), ApplyAll(EMPTY, ops + more);
      var decision := Decide(m, s, later, identities, c, namespace, pod, timedOut, draw);
      decision.Some? ==> decision.value.tokenExpiration >= MIN_TOKEN_EXPIRATION
  {
    forall i | 0 <= i < |ops + more| ensures Sourced(cfg, (ops + more)[i]) {
      assert Issued(cfg, (ops + more)[i]);
    }
    hide Issued, Sourced, Decide, ApplyAll, Listed, Waits, PodExpiration;
    forall i | 0 <= i < |ops| ensures Issued(cfg, ops[i]) {
      assert (ops + more)[i] == ops[i];
    }
    CachedTokensLast(cfg, ops);
    CachedTokensLast(cfg, ops + more);
    ShortTokensIff(cfg, flag, ops, more, m, identities, c, namespace, pod, timedOut, draw);
  }
}
