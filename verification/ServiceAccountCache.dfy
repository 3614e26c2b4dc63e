/**
 The cache object itself: maps updated in place by `set`/`pop` methods, the notification registry it
 owns, and the event handlers that drive it (pkg/cache/cache.go, pkg/cache/notifications.go).

 Every method is one atomic operation of Registry; what the locks and the bounded channel add is in
 LockProtocol.
 */
module ServiceAccounts {
  import opened Common
  import opened Registry
  import opened ConfigMapSync
  import RoleArn

  datatype ServiceAccount = ServiceAccount(name: string, namespace: string, annotations: map<string, string>)

  /** Flags, plus Go's number and boolean parsers. */
  datatype Settings = Settings(
    annotationPrefix: string,
    defaultAudience: string,
    defaultRegionalSTS: bool,
    defaultTokenExpiration: int,
    composeRoleArn: RoleArn.ComposeRoleArn,
    parseBool: string -> Option<bool>,
    parseInt: string -> Option<int>
  )

  function Annotation(cfg: Settings, sa: ServiceAccount, name: string): Option<string> {
    Lookup(sa.annotations, cfg.annotationPrefix + "/" + name)
  }

  /** The entry an account's annotations stand for. */
  function EntryOf(cfg: Settings, sa: ServiceAccount): Entry {
    var arn := Annotation(cfg, sa, "role-arn");
    var audience := Annotation(cfg, sa, "audience");
    var regional := Annotation(cfg, sa, "sts-regional-endpoints");
    var expiration := Annotation(cfg, sa, "token-expiration");
    Entry(
      if arn.Some? then RoleArn.Resolve(arn.value, cfg.composeRoleArn) else "",
      if audience.Some? then audience.value else cfg.defaultAudience,
      if regional.Some? && cfg.parseBool(regional.value).Some?
      then cfg.parseBool(regional.value).value else cfg.defaultRegionalSTS,
      if expiration.Some? && cfg.parseInt(expiration.value).Some?
      then ValidateMinTokenExpiration(cfg.parseInt(expiration.value).value) else cfg.defaultTokenExpiration)
  }

  /** The role an account's annotation stands for. */
  predicate RoleAnnotated(cfg: Settings, sa: ServiceAccount, role: string) {
    var name := cfg.annotationPrefix + "/role-arn";
    var c := cfg.composeRoleArn;
    if name !in sa.annotations then role == ""
    else if !c.enabled || RoleArn.Contains(sa.annotations[name], "arn:") then role == sa.annotations[name]
    else role == "arn:" + c.partition + ":iam::" + c.accountId + ":role/" + sa.annotations[name]
  }

  predicate AudienceAnnotated(cfg: Settings, sa: ServiceAccount, audience: string) {
    var name := cfg.annotationPrefix + "/audience";
    audience == if name in sa.annotations then sa.annotations[name] else cfg.defaultAudience
  }

  predicate RegionalAnnotated(cfg: Settings, sa: ServiceAccount, regional: bool) {
    var name := cfg.annotationPrefix + "/sts-regional-endpoints";
    if name in sa.annotations && cfg.parseBool(sa.annotations[name]).Some?
    then regional == cfg.parseBool(sa.annotations[name]).value
    else regional == cfg.defaultRegionalSTS
  }

  predicate ExpirationAnnotated(cfg: Settings, sa: ServiceAccount, expiration: int) {
    var name := cfg.annotationPrefix + "/token-expiration";
    if name in sa.annotations && cfg.parseInt(sa.annotations[name]).Some?
    then
      var wanted := cfg.parseInt(sa.annotations[name]).value;
      expiration == if wanted < 600 then 600 else wanted
    else expiration == cfg.defaultTokenExpiration
  }

  /** What each annotation says about its own field, present, absent or unparseable. */
  predicate Annotated(cfg: Settings, sa: ServiceAccount, e: Entry) {
    && RoleAnnotated(cfg, sa, e.roleArn)
    && AudienceAnnotated(cfg, sa, e.audience)
    && RegionalAnnotated(cfg, sa, e.useRegionalSTS)
    && ExpirationAnnotated(cfg, sa, e.tokenExpiration)
  }

  lemma FullNames(prefix: string)
    ensures prefix + "/" + "role-arn" == prefix + "/role-arn"
    ensures prefix + "/" + "audience" == prefix + "/audience"
    ensures prefix + "/" + "sts-regional-endpoints" == prefix + "/sts-regional-endpoints"
    ensures prefix + "/" + "token-expiration" == prefix + "/token-expiration"
  {
    FullName(prefix, "role-arn");
    FullName(prefix, "audience");
    FullName(prefix, "sts-regional-endpoints");
    FullName(prefix, "token-expiration");
    assert "/" + "role-arn" == "/role-arn" && "/" + "audience" == "/audience";
    assert "/" + "sts-regional-endpoints" == "/sts-regional-endpoints" && "/" + "token-expiration" == "/token-expiration";
  }

  lemma FullName(prefix: string, name: string)
    ensures prefix + "/" + name == prefix + ("/" + name)
  {
  }

  /** The entry is the one and only that the annotations describe. */
  lemma EntryIsAnnotated(cfg: Settings, sa: ServiceAccount, e: Entry)
    ensures e == EntryOf(cfg, sa) <==> Annotated(cfg, sa, e)
  {
    FullNames(cfg.annotationPrefix);
  }

  /** Two accounts differ at most in the annotation `name`. */
  ghost predicate DifferAt(a: ServiceAccount, b: ServiceAccount, name: string) {
    forall n | n != name :: Lookup(a.annotations, n) == Lookup(b.annotations, n)
  }

  /** Each annotation decides about its own field only. */
  lemma AnnotationsAreIndependent(cfg: Settings, a: ServiceAccount, b: ServiceAccount, name: string)
    requires DifferAt(a, b, name)
    ensures
      var e, e' := EntryOf(cfg, a), EntryOf(cfg, b);
      && (name != cfg.annotationPrefix + "/role-arn" ==> e.roleArn == e'.roleArn)
      && (name != cfg.annotationPrefix + "/audience" ==> e.audience == e'.audience)
      && (name != cfg.annotationPrefix + "/sts-regional-endpoints" ==> e.useRegionalSTS == e'.useRegionalSTS)
      && (name != cfg.annotationPrefix + "/token-expiration" ==> e.tokenExpiration == e'.tokenExpiration)
  {
    FullNames(cfg.annotationPrefix);
  }

  function KeyOf(sa: ServiceAccount): Key {
    sa.namespace + "/" + sa.name
  }

  function Keys(reqs: seq<Request>): seq<Key> {
    if reqs == [] then [] else Keys(reqs[..|reqs| - 1]) + [CacheKey(reqs[|reqs| - 1])]
  }

  lemma KeysSnoc(reqs: seq<Request>, req: Request)
    ensures Keys(reqs + [req]) == Keys(reqs) + [CacheKey(req)]
  {
    assert (reqs + [req])[..|reqs|] == reqs;
  }

  /**
   `notifications`: the handler map, the channels (numbered as they are made, with the log of those
   closed) and the requests sent on the fetch channel.
   */
  class NotificationRegistry {
    var handlers: map<Key, Chan>
    var nextChan: nat
    var closed: seq<Chan>
    var fetchRequests: seq<Request>
    ghost var created: seq<Key>

    ghost function View(): Notifications
      reads this
    {
      Notifications(handlers, created, closed, Keys(fetchRequests))
    }

    ghost predicate Valid()
      reads this
    {
      nextChan == |created| && ChannelsInv(View())
    }

    constructor ()
      ensures Valid() && View() == EMPTY.n
    {
      handlers, nextChan, closed, fetchRequests, created := map[], 0, [], [], [];
      new;
      assert ClosedKeys(View()) == [];
    }

    method Create(req: Request) returns (notifier: Chan)
      requires Valid()
      modifies this
      ensures Valid() && (View(), notifier) == Registry.Create(old(View()), CacheKey(req))
      ensures fetchRequests == if CacheKey(req) in old(handlers) then old(fetchRequests) else old(fetchRequests) + [req]
    {
      CreateKeepsChannels(View(), CacheKey(req));
      KeysSnoc(fetchRequests, req);
      hide ChannelsInv, CacheKey, Keys;
      if CacheKey(req) in handlers {
        return handlers[CacheKey(req)];
      }
      notifier := nextChan;
      nextChan := nextChan + 1;
      created := created + [CacheKey(req)];
      handlers := handlers[CacheKey(req) := notifier];
      fetchRequests := fetchRequests + [req];
    }

    /** Closing a closed channel would panic; the handler found is always open. */
    method Broadcast(key: Key)
      requires Valid()
      modifies this
      ensures Valid() && View() == Registry.Broadcast(old(View()), key)
      ensures key in old(handlers) ==> old(handlers[key]) !in old(closed)
    {
      BroadcastKeepsChannels(View(), key);
      assert key in handlers ==> handlers[key] !in closed;
      hide ChannelsInv, Keys;
      if key in handlers {
        closed := closed + [handlers[key]];
        handlers := handlers - {key};
      }
    }
  }

  /** The outcome of delivering a ConfigMap event. */
  datatype SyncResult = Ignored | Synced | BadNewConfig | BadOldConfig | Panicked

  class ServiceAccountCache {
    var saCache: map<Key, Entry>
    var cmCache: map<Key, Entry>
    const notifications: NotificationRegistry
    const cfg: Settings

    ghost function View(): State
      reads this, notifications
    {
      State(saCache, cmCache, notifications.View())
    }

    ghost predicate Valid()
      reads this, notifications
    {
      notifications.Valid() && Registry.Inv(View())
    }

    constructor (cfg: Settings)
      ensures Valid() && View() == EMPTY && this.cfg == cfg && fresh(notifications)
    {
      this.cfg := cfg;
      saCache, cmCache := map[], map[];
      notifications := new NotificationRegistry();
    }

    method GetSA(req: Request) returns (entry: Option<Entry>, notifier: Option<Chan>)
      requires Valid()
      modifies notifications
      ensures Valid() && View() == Apply(old(View()), Op.GetSA(req))
      ensures (entry, notifier) == GetSAResult(old(View()), req)
      ensures entry == if req.namespace + "/" + req.name in saCache then Some(saCache[req.namespace + "/" + req.name]) else None
      ensures notifier.Some? <==> req.notify && req.namespace + "/" + req.name !in saCache
    {
      if CacheKey(req) !in saCache && req.notify {
        var c := notifications.Create(req);
        CreateKeepsChannels(old(View()).n, CacheKey(req));
        return None, Some(c);
      }
      return Lookup(saCache, CacheKey(req)), None;
    }

    method GetCM(name: string, namespace: string) returns (entry: Option<Entry>)
      ensures entry.Some? <==> namespace + "/" + name in cmCache
      ensures entry.Some? ==> entry.value == cmCache[namespace + "/" + name]
    {
      return Lookup(cmCache, namespace + "/" + name);
    }

    method Get(req: Request) returns (response: Response)
      requires Valid()
      modifies notifications
      ensures Valid() && View() == Apply(old(View()), Op.GetSA(req))
      ensures response == GetResponse(old(View()), req)
    {
      hide Registry.Inv, ChannelsInv, Apply, GetSAResult, WildcardKey;
      var found := false;
      var entry, notifier := GetSA(req);
      if entry.Some? {
        found := true;
        if entry.value.roleArn != "" {
          return FromEntry(entry.value, notifier);
        }
      }
      var cm := GetCM(req.name, req.namespace);
      if cm.None? {
        cm := GetCM(req.name, "*");
        WildcardNamespace(req);
      }
      if cm.Some? {
        return FromEntry(cm.value, notifier);
      }
      return Response("", "", false, DEFAULT_TOKEN_EXPIRATION, found, notifier);
    }

    method GetCommonConfigurations(name: string, namespace: string) returns (useRegionalSTS: bool, tokenExpiration: int)
      requires Valid()
      modifies notifications
      ensures Valid() && View() == old(View())
      ensures (useRegionalSTS, tokenExpiration) == CommonConfigurations(View(), name, namespace)
      ensures var key := namespace + "/" + name;
              if key in saCache
              then useRegionalSTS == saCache[key].useRegionalSTS && tokenExpiration == saCache[key].tokenExpiration
              else if key in cmCache
              then useRegionalSTS == cmCache[key].useRegionalSTS && tokenExpiration == cmCache[key].tokenExpiration
              else !useRegionalSTS && tokenExpiration == 86400
    {
      var entry, _ := GetSA(Request(name, namespace, false));
      if entry.Some? {
        return entry.value.useRegionalSTS, entry.value.tokenExpiration;
      }
      entry := GetCM(name, namespace);
      if entry.Some? {
        return entry.value.useRegionalSTS, entry.value.tokenExpiration;
      }
      return false, DEFAULT_TOKEN_EXPIRATION;
    }

    method SetSA(name: string, namespace: string, entry: Entry)
      requires Valid()
      modifies this, notifications
      ensures Valid() && View() == Apply(old(View()), Op.SetSA(namespace + "/" + name, entry))
      ensures saCache == old(saCache)[namespace + "/" + name := entry] && cmCache == old(cmCache)
    {
      var key := namespace + "/" + name;
      saCache := saCache[key := entry];
      notifications.Broadcast(key);
    }

    method PopSA(name: string, namespace: string)
      requires Valid()
      modifies this
      ensures Valid() && View() == Apply(old(View()), Op.PopSA(namespace + "/" + name))
      ensures saCache == old(saCache) - {namespace + "/" + name} && cmCache == old(cmCache)
    {
      saCache := saCache - {namespace + "/" + name};
    }

    method SetCM(name: string, namespace: string, entry: Entry)
      requires Valid()
      modifies this
      ensures Valid() && View() == Apply(old(View()), Op.SetCM(namespace + "/" + name, entry))
      ensures cmCache == old(cmCache)[namespace + "/" + name := entry] && saCache == old(saCache)
    {
      cmCache := cmCache[namespace + "/" + name := entry];
    }

    method PopCM(name: string, namespace: string)
      requires Valid()
      modifies this
      ensures Valid() && View() == Apply(old(View()), Op.PopCM(namespace + "/" + name))
      ensures cmCache == old(cmCache) - {namespace + "/" + name} && saCache == old(saCache)
    {
      cmCache := cmCache - {namespace + "/" + name};
    }

    method Clear()
      requires Valid()
      modifies this
      ensures Valid() && View() == Apply(old(View()), Op.Clear)
      ensures saCache == map[] && cmCache == map[] && notifications.View() == old(notifications.View())
    {
      saCache, cmCache := map[], map[];
    }

    method ReadAnnotations(sa: ServiceAccount) returns (entry: Entry)
      ensures entry == EntryOf(cfg, sa) && Annotated(cfg, sa, entry)
    {
      EntryIsAnnotated(cfg, sa, EntryOf(cfg, sa));
      hide Annotated;
      var role, audience := "", cfg.defaultAudience;
      var regional, expiration := cfg.defaultRegionalSTS, cfg.defaultTokenExpiration;

      var annotation := Annotation(cfg, sa, "role-arn");
      if annotation.Some? {
        role := annotation.value;
        if !RoleArn.Contains(role, "arn:") && cfg.composeRoleArn.enabled {
          role := RoleArn.Compose(cfg.composeRoleArn.partition, cfg.composeRoleArn.accountId, role);
        }
      }
      annotation := Annotation(cfg, sa, "audience");
      if annotation.Some? {
        audience := annotation.value;
      }
      annotation := Annotation(cfg, sa, "sts-regional-endpoints");
      if annotation.Some? {
        var parsed := cfg.parseBool(annotation.value);
        if parsed.Some? {
          regional := parsed.value;
        }
      }
      annotation := Annotation(cfg, sa, "token-expiration");
      if annotation.Some? {
        var parsed := cfg.parseInt(annotation.value);
        if parsed.Some? {
          expiration := ValidateMinTokenExpiration(parsed.value);
        }
      }
      return Entry(role, audience, regional, expiration);
    }

    /** Add and Update events, and delivered fetches. */
    method AddSA(sa: ServiceAccount)
      requires Valid()
      modifies this, notifications
      ensures Valid() && View() == Apply(old(View()), Op.SetSA(KeyOf(sa), EntryOf(cfg, sa)))
      ensures var key := sa.namespace + "/" + sa.name;
              key in saCache && Annotated(cfg, sa, saCache[key]) && saCache - {key} == old(saCache) - {key}
    {
      var entry := ReadAnnotations(sa);
      hide EntryOf, Annotated, Registry.Inv, ChannelsInv, Apply;
      SetSA(sa.name, sa.namespace, entry);
      SetKeepsOthers(old(saCache), sa.namespace + "/" + sa.name, entry);
    }

    /** The first loop: `ks` are the keys set so far, in the order the map happened to be iterated. */
    method SetEntries(sas: Config) returns (ok: bool, ghost ks: seq<Key>)
      requires Valid()
      modifies this
      ensures Valid() && saCache == old(saCache)
      ensures AllUsable(sas, ks) && NoDuplicates(ks)
      ensures cmCache == ApplyCms(old(cmCache), Sets(sas, ks, cfg.defaultTokenExpiration))
      ensures ok ==> Lists(ks, sas.Keys)
      ensures !ok <==> exists k :: k in sas && !Usable(k, sas[k])
    {
      hide Target, Fill, HasSlash, Registry.Inv, ChannelsInv, NoDuplicates;
      ks := [];
      EmptyHasNoDuplicates(ks);
      var todo := sas.Keys;
      while todo != {}
        invariant Valid() && saCache == old(saCache) && todo <= sas.Keys
        invariant NoDuplicates(ks) && Elements(ks) == sas.Keys - todo && AllUsable(sas, ks)
        invariant forall k | k in sas && k !in todo :: Usable(k, sas[k])
        invariant cmCache == ApplyCms(old(cmCache), Sets(sas, ks, cfg.defaultTokenExpiration))
        decreases todo
      {
        var key :| key in todo;
        todo := todo - {key};
        if !Usable(key, sas[key]) {
          return false, ks;
        }
        SetEntry(key, sas[key].value);
        SnocListed(ks, key);
        SnocSets(old(cmCache), sas, ks, key, cfg.defaultTokenExpiration);
        ks := ks + [key];
      }
      return true, ks;
    }

    method SetEntry(key: Key, entry: Entry)
      requires Valid() && HasSlash(key)
      modifies this
      ensures Valid() && saCache == old(saCache)
      ensures cmCache == old(cmCache)[Target(key) := Fill(entry, cfg.defaultTokenExpiration)]
      ensures var stored := cmCache[Target(key)];
              if entry.tokenExpiration != 0 then stored == entry
              else stored == Entry(entry.roleArn, entry.audience, entry.useRegionalSTS, cfg.defaultTokenExpiration)
    {
      var parts := Split(key, '/');
      var filled := entry;
      if entry.tokenExpiration == 0 {
        filled := entry.(tokenExpiration := cfg.defaultTokenExpiration);
      }
      SetCM(parts[1], parts[0], filled);
    }

    /** The second loop: `ds` are the keys dropped so far. */
    method DropEntries(oldConfig: Config, sas: Config) returns (ok: bool, ghost ds: seq<Key>)
      requires Valid()
      modifies this
      ensures Valid() && saCache == old(saCache)
      ensures AllSlashed(ds) && NoDuplicates(ds)
      ensures cmCache == ApplyCms(old(cmCache), Pops(ds))
      ensures ok ==> Lists(ds, oldConfig.Keys - sas.Keys)
      ensures !ok <==> exists k :: k in oldConfig && k !in sas && !HasSlash(k)
    {
      hide Target, HasSlash, Registry.Inv, ChannelsInv, NoDuplicates, Elements;
      ds := [];
      EmptyElements();
      EmptyHasNoDuplicates(ds);
      var todo := oldConfig.Keys;
      while todo != {}
        invariant Valid() && saCache == old(saCache) && todo <= oldConfig.Keys
        invariant NoDuplicates(ds) && Elements(ds) == oldConfig.Keys - sas.Keys - todo && AllSlashed(ds)
        invariant forall k | k in oldConfig && k !in sas && k !in todo :: HasSlash(k)
        invariant cmCache == ApplyCms(old(cmCache), Pops(ds))
        decreases todo
      {
        var key :| key in todo;
        todo := todo - {key};
        if key !in sas {
          if !HasSlash(key) {
            return false, ds;
          }
          DropEntry(key);
          SnocListed(ds, key);
          SnocPops(old(cmCache), ds, key);
          ds := ds + [key];
        }
      }
      return true, ds;
    }

    method DropEntry(key: Key)
      requires Valid() && HasSlash(key)
      modifies this
      ensures Valid() && saCache == old(saCache)
      ensures cmCache == old(cmCache) - {Target(key)}
    {
      var parts := Split(key, '/');
      PopCM(parts[1], parts[0]);
    }

    /**
     Applies a ConfigMap event. Whatever the outcome, the cache has been changed by exactly the script
     that sets `ks` and then drops `ds`; the outcome says how far the script got, and when the code
     panics on a key without a slash or a null entry.
     */
    method PopulateCacheFromCM(was: Option<ConfigMap>, now: ConfigMap)
      returns (r: SyncResult, ghost ks: seq<Key>, ghost ds: seq<Key>)
      requires Valid()
      modifies this
      ensures Valid() && saCache == old(saCache)
      ensures r.Ignored? <==> now.name != "pod-identity-webhook"
      ensures r.BadNewConfig? <==> now.name == CONFIG_MAP_NAME && now.config.None?
      ensures r.Ignored? || r.BadNewConfig? ==> cmCache == old(cmCache)
      ensures !r.Ignored? && !r.BadNewConfig? ==>
                && AllUsable(now.config.value, ks) && AllSlashed(ds) && NoDuplicates(ks) && NoDuplicates(ds)
                && cmCache == ApplyCms(old(cmCache), Sets(now.config.value, ks, cfg.defaultTokenExpiration) + Pops(ds))
      ensures r.Synced? ==>
                && Lists(ks, now.config.value.Keys)
                && (was.None? ==> ds == [])
                && (was.Some? ==>
                      && was.value.config.Some?
                      && Lists(ds, was.value.config.value.Keys - now.config.value.Keys))
      ensures r.BadOldConfig? ==>
                was.Some? && was.value.config.None? && Lists(ks, now.config.value.Keys) && ds == []
      ensures r.Panicked? <==>
                && now.name == CONFIG_MAP_NAME && now.config.Some?
                && (|| (exists k :: k in now.config.value && !Usable(k, now.config.value[k]))
                    || (was.Some? && was.value.config.Some? &&
                        exists k :: k in was.value.config.value && k !in now.config.value && !HasSlash(k)))
    {
      hide Target, Fill, HasSlash, Usable, NoDuplicates, Elements;
      ks, ds := [], [];
      if now.name != CONFIG_MAP_NAME {
        return Ignored, ks, ds;
      }
      if now.config.None? {
        return BadNewConfig, ks, ds;
      }
      var ok;
      ok, ks := SetEntries(now.config.value);
      ghost var sets := Sets(now.config.value, ks, cfg.defaultTokenExpiration);
      assert NoDuplicates(ds) by { EmptyHasNoDuplicates(ds); }
      assert sets + Pops(ds) == sets;
      if !ok {
        return Panicked, ks, ds;
      }
      if was.Some? {
        if was.value.config.None? {
          return BadOldConfig, ks, ds;
        }
        ok, ds := DropEntries(was.value.config.value, now.config.value);
        ApplyCmsConcat(old(cmCache), sets, Pops(ds));
        if !ok {
          return Panicked, ks, ds;
        }
      }
      return Synced, ks, ds;
    }

    /**
     The ConfigMap informer's Add and Update handlers; errors are only logged. Whatever the keys, an
     event that does not panic leaves the cache as `SyncsTo` says, which for well-formed configs is one
     step of the diff.
     */
    method OnConfigMapEvent(was: Option<ConfigMap>, now: ConfigMap) returns (panicked: bool)
      requires Valid()
      modifies this
      ensures Valid() && saCache == old(saCache)
      ensures panicked <==>
                && now.name == CONFIG_MAP_NAME && now.config.Some?
                && (|| (exists k :: k in now.config.value && !Usable(k, now.config.value[k]))
                    || (exists k :: k in Dropped(was, now.config.value) && !HasSlash(k)))
      ensures now.name != CONFIG_MAP_NAME || now.config.None? ==> cmCache == old(cmCache)
      ensures now.name == CONFIG_MAP_NAME && now.config.Some? && !panicked ==>
                SyncsTo(old(cmCache), cmCache, Dropped(was, now.config.value), now.config.value, cfg.defaultTokenExpiration)
      ensures WellFormedEvent(was, now) ==>
                !panicked && cmCache == SyncStep(old(cmCache), was, now, cfg.defaultTokenExpiration)
    {
      var r, ks, ds := PopulateCacheFromCM(was, now);
      panicked := r.Panicked?;
      hide Target, Fill, NoDuplicates, Elements, Registry.Inv, ChannelsInv, SyncsTo;
      if r.Synced? || r.BadOldConfig? {
        if !Parses(was) {
          NothingListed(ds);
        }
        ScriptSyncs(old(cmCache), Dropped(was, now.config.value), now.config.value, ks, ds, cfg.defaultTokenExpiration);
        if WellFormedEvent(was, now) {
          EventIsSyncStep(old(cmCache), was, now, ks, ds, cfg.defaultTokenExpiration);
        }
      }
    }
  }

  lemma NothingListed(ds: seq<Key>)
    requires ds == []
    ensures Lists(ds, {})
  {
  }

  lemma SetKeepsOthers(m: map<Key, Entry>, k: Key, e: Entry)
    ensures m[k := e] - {k} == m - {k}
  {
  }

  lemma WildcardNamespace(req: Request)
    ensures "*" + "/" + req.name == WildcardKey(req)
  {
  }

  lemma SnocListed(ks: seq<Key>, key: Key)
    requires NoDuplicates(ks) && key !in Elements(ks)
    ensures NoDuplicates(ks + [key]) && Elements(ks + [key]) == Elements(ks) + {key}
  {
    assert (ks + [key])[..|ks|] == ks;
    ElementsSnoc(ks + [key]);
    forall i, j | 0 <= i < j < |ks + [key]| ensures (ks + [key])[i] != (ks + [key])[j] {
      if j == |ks| {
        assert ks[i] in Elements(ks);
      }
    }
  }

  lemma SnocSets(m: map<Key, Entry>, c: Config, ks: seq<Key>, key: Key, default: int)
    requires AllUsable(c, ks) && key in c && Usable(key, c[key])
    ensures AllUsable(c, ks + [key])
    ensures ApplyCms(m, Sets(c, ks + [key], default))
            == ApplyCms(m, Sets(c, ks, default))[Target(key) := Fill(c[key].value, default)]
  {
    assert (ks + [key])[..|ks|] == ks;
    var ops := Sets(c, ks + [key], default);
    assert ops[..|ops| - 1] == Sets(c, ks, default);
  }

  lemma SnocPops(m: map<Key, Entry>, ds: seq<Key>, key: Key)
    requires AllSlashed(ds) && HasSlash(key)
    ensures AllSlashed(ds + [key])
    ensures ApplyCms(m, Pops(ds + [key])) == ApplyCms(m, Pops(ds)) - {Target(key)}
  {
    assert (ds + [key])[..|ds|] == ds;
    var ops := Pops(ds + [key]);
    assert ops[..|ops| - 1] == Pops(ds);
  }

  // ---------------------------------------------------------------- what the events add up to

  /** One pass of Update events over the informer's store. */
  function Pass(cfg: Settings, store: seq<ServiceAccount>): seq<Op> {
    if store == [] then []
    else
      var sa := store[|store| - 1];
      Pass(cfg, store[..|store| - 1]) + [SetSA(KeyOf(sa), EntryOf(cfg, sa))]
  }

  predicate WritesAccounts(op: Op) {
    op.SetSA? || op.PopSA? || op.Clear?
  }

  /** The writes to the account cache among the operations of a run. */
  function SaOps(ops: seq<Op>): seq<Op> {
    Select(ops, WritesAccounts)
  }

  lemma SameAccounts(s: State, t: State, op: Op)
    requires s.saCache == t.saCache
    ensures Apply(s, op).saCache == Apply(t, op).saCache
    ensures !WritesAccounts(op) ==> Apply(s, op).saCache == s.saCache
  {
  }

  /** Only they decide about `saCache`. */
  lemma {:induction false} SaProjection(s: State, ops: seq<Op>)
    ensures ApplyAll(s, ops).saCache == ApplyAll(s, SaOps(ops)).saCache
  {
    if ops != [] {
      var front, last := ops[..|ops| - 1], ops[|ops| - 1];
      SaProjection(s, front);
      SameAccounts(ApplyAll(s, front), ApplyAll(s, SaOps(front)), last);
      hide Apply;
      if WritesAccounts(last) {
        assert SaOps(ops)[..|SaOps(ops)| - 1] == SaOps(front);
      } else {
        assert SaOps(ops) == SaOps(front);
      }
    }
  }

  lemma {:induction false} PassHeals(cfg: Settings, s: State, store: seq<ServiceAccount>, i: nat)
    requires i < |store|
    requires forall j, k | 0 <= j < k < |store| :: KeyOf(store[j]) != KeyOf(store[k])
    ensures var s' := ApplyAll(s, Pass(cfg, store));
            KeyOf(store[i]) in s'.saCache && s'.saCache[KeyOf(store[i])] == EntryOf(cfg, store[i])
  {
    hide EntryOf, KeyOf;
    var ops := Pass(cfg, store);
    var front := store[..|store| - 1];
    assert ops[..|ops| - 1] == Pass(cfg, front);
    if i < |store| - 1 {
      PassHeals(cfg, s, front, i);
      assert KeyOf(store[i]) != KeyOf(store[|store| - 1]);
    }
  }

  /**
   Resync heals. Whatever the cache held - stale fetches, or nothing after a Clear - a run whose writes
   to the account cache are a full pass over the store, with getters and ConfigMap writes anywhere in
   between, makes it agree on every stored account with what the account's annotations say.
   */
  lemma ResyncHeals(cfg: Settings, s: State, ops: seq<Op>, store: seq<ServiceAccount>, i: nat)
    requires i < |store|
    requires forall j, k | 0 <= j < k < |store| :: KeyOf(store[j]) != KeyOf(store[k])
    requires SaOps(ops) == Pass(cfg, store)
    ensures var s' := ApplyAll(s, ops);
            KeyOf(store[i]) in s'.saCache && s'.saCache[KeyOf(store[i])] == EntryOf(cfg, store[i])
  {
    hide EntryOf, KeyOf, ApplyAll, SaOps, Pass;
    SaProjection(s, ops);
    PassHeals(cfg, s, store, i);
  }

  // ---------------------------------------------------------------- token lifetimes

  ghost predicate Lasting(m: map<Key, Entry>) {
    forall k | k in m :: m[k].tokenExpiration >= MIN_TOKEN_EXPIRATION
  }

  /** The operations the event handlers can issue: annotated accounts and ConfigMap entries. */
  ghost predicate Issued(cfg: Settings, op: Op) {
    match op
    case SetSA(k, e) => exists sa :: k == KeyOf(sa) && e == EntryOf(cfg, sa)
    case SetCM(_, e) => exists raw :: e == Fill(raw, cfg.defaultTokenExpiration) && LastingInConfig(raw)
    case _ => true
  }

  /** The ConfigMap path does not clamp: its own values must be zero or large enough. */
  predicate LastingInConfig(raw: Entry) {
    raw.tokenExpiration == 0 || raw.tokenExpiration >= MIN_TOKEN_EXPIRATION
  }

  /** Accounts come from annotations; ConfigMap entries may be anything. */
  ghost predicate Sourced(cfg: Settings, op: Op) {
    op.SetSA? ==> exists sa :: op.key == KeyOf(sa) && op.entry == EntryOf(cfg, sa)
  }

  /** With the flag clamped, every annotated account of every run lasts at least the minimum. */
  lemma {:induction false} AccountsLast(cfg: Settings, ops: seq<Op>)
    requires cfg.defaultTokenExpiration >= MIN_TOKEN_EXPIRATION
    requires forall i | 0 <= i < |ops| :: Sourced(cfg, ops[i])
    ensures Lasting(ApplyAll(EMPTY, ops).saCache)
  {
    if ops != [] {
      var front, last := ops[..|ops| - 1], ops[|ops| - 1];
      AccountsLast(cfg, front);
      assert Sourced(cfg, last);
      if last.SetSA? {
        var sa :| last.key == KeyOf(sa) && last.entry == EntryOf(cfg, sa);
      }
    }
  }

  /** With the flag clamped, every cached entry of every run lasts at least the minimum. */
  lemma {:induction false} CachedTokensLast(cfg: Settings, ops: seq<Op>)
    requires cfg.defaultTokenExpiration >= MIN_TOKEN_EXPIRATION
    requires forall i | 0 <= i < |ops| :: Issued(cfg, ops[i])
    ensures Lasting(ApplyAll(EMPTY, ops).saCache) && Lasting(ApplyAll(EMPTY, ops).cmCache)
  {
    if ops != [] {
      var front, last := ops[..|ops| - 1], ops[|ops| - 1];
      CachedTokensLast(cfg, front);
      assert Issued(cfg, last);
      var s := ApplyAll(EMPTY, front);
      match last
      case SetSA(k, e) =>
        var sa :| k == KeyOf(sa) && e == EntryOf(cfg, sa);
      case SetCM(k, e) =>
        var raw :| e == Fill(raw, cfg.defaultTokenExpiration) && LastingInConfig(raw);
      case _ =>
    }
  }
}
