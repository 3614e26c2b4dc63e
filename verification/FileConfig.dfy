/**
 The container-credentials identity list and the object that caches it
 (pkg/containercredentials/config.go).
 */
module FileConfig {
  import opened Common
  import Injection

  datatype Identity = Identity(namespace: string, serviceAccount: string)

  /** JSON decoding of the `identities` member. */
  type Parser = string -> Option<seq<Identity>>

  /** The identities a file content stands for; an empty or missing file stands for none. */
  function Identities(parse: Parser, content: string): Option<set<Identity>> {
    if content == "" then Some({})
    else if parse(content).None? then None
    else Some(set i | i in parse(content).value)
  }

  class Config {
    const patchConfig: Injection.CredentialsConfig
    const parse: Parser
    var cache: map<Identity, bool>
    var identityConfigObject: Option<seq<Identity>>

    /** The identities that mutate by container credentials. */
    ghost function Cached(): set<Identity>
      reads this
    {
      set i | i in cache && cache[i]
    }

    constructor (patchConfig: Injection.CredentialsConfig, parse: Parser)
      ensures this.patchConfig == patchConfig && this.parse == parse && Cached() == {}
      ensures identityConfigObject == None
    {
      this.patchConfig, this.parse := patchConfig, parse;
      cache, identityConfigObject := map[], None;
    }

    /** Replaces the cache by the identities of the content, or fails and keeps it. */
    method Load(content: string) returns (ok: bool)
      modifies this
      ensures ok <==> Identities(parse, content).Some?
      ensures Cached() == if ok then Identities(parse, content).value else old(Cached())
      ensures identityConfigObject ==
              if !ok then old(identityConfigObject) else if content == "" then None else parse(content)
    {
      if content == "" {
        identityConfigObject, cache := None, map[];
        return true;
      }
      var parsed := parse(content);
      if parsed.None? {
        return false;
      }
      var items := parsed.value;
      var newCache: map<Identity, bool> := map[];
      for i := 0 to |items|
        invariant newCache.Keys == set x | x in items[..i]
        invariant forall x | x in newCache :: newCache[x]
      {
        newCache := newCache[items[i] := true];
        assert items[..i + 1] == items[..i] + [items[i]];
      }
      assert items[..|items|] == items;
      identityConfigObject := parsed;
      cache := newCache;
      return true;
    }

    method Get(namespace: string, serviceAccount: string) returns (r: Option<Injection.CredentialsConfig>)
      ensures r == if Identity(namespace, serviceAccount) in Cached() then Some(patchConfig) else None
    {
      var key := Identity(namespace, serviceAccount);
      if key in cache && cache[key] {
        return Some(patchConfig);
      }
      return None;
    }
  }
}
