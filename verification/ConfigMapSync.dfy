/**
 How the `pod-identity-webhook` ConfigMap reaches `cmCache`: an incremental diff applied one entry at
 a time, each under its own lock (pkg/cache/cache.go:403-436). A diff is a script of `setCM` and
 `popCM` operations in whatever order Go iterates the maps.
 */
module ConfigMapSync {
  import opened Common
  import opened Registry

  /** The JSON object in the ConfigMap; a JSON `null` is a missing entry. */
  type Config = map<Key, Option<Entry>>

  /** `config` is `None` when the text does not parse. */
  datatype ConfigMap = ConfigMap(name: string, config: Option<Config>)

  const CONFIG_MAP_NAME := "pod-identity-webhook"

  /** A zero expiration means "use the default". */
  function Fill(e: Entry, default: int): Entry {
    if e.tokenExpiration == 0 then e.(tokenExpiration := default) else e
  }

  // ---------------------------------------------------------------- keys

  predicate HasSlash(k: Key) {
    |Split(k, '/')| >= 2
  }

  /** `namespace/name`, with one slash. */
  predicate WellFormedKey(k: Key) {
    |Split(k, '/')| == 2
  }

  /** The cache key an entry is stored under: the first two parts of its config key. */
  function Target(k: Key): Key
    requires HasSlash(k)
  {
    Split(k, '/')[0] + "/" + Split(k, '/')[1]
  }

  lemma {:induction false} JoinLength(parts: seq<string>, sep: char)
    requires |parts| >= 1
    ensures |Join(parts, sep)| >= |parts| - 1
  {
    if |parts| > 1 {
      JoinLength(parts[1..], sep);
    }
  }

  /** Splitting a config key undoes the concatenation that makes a cache key, given one slash. */
  lemma TargetIsKey(k: Key)
    requires HasSlash(k)
    ensures Target(k) == k <==> WellFormedKey(k)
  {
    var parts := Split(k, '/');
    JoinSplit(k, '/');
    assert Join(parts, '/') == parts[0] + "/" + Join(parts[1..], '/');
    if |parts| > 2 {
      assert Join(parts[1..], '/') == parts[1] + "/" + Join(parts[1..][1..], '/');
      assert |k| > |Target(k)|;
    }
  }

  /** A key built from two slash-free names is well formed and splits back into them. */
  lemma CacheKeySplits(namespace: string, name: string)
    requires '/' !in namespace && '/' !in name
    ensures Split(namespace + "/" + name, '/') == [namespace, name]
    ensures WellFormedKey(namespace + "/" + name)
  {
    SplitCons(namespace, name, '/');
    SplitAtom(name, '/');
  }

  // ---------------------------------------------------------------- scripts

  /** The code dereferences the entry and indexes the second part; otherwise it panics. */
  predicate Usable(k: Key, e: Option<Entry>) {
    e.Some? && HasSlash(k)
  }

  ghost predicate WellFormed(c: Config) {
    forall k | k in c :: WellFormedKey(k) && c[k].Some?
  }

  /** What rebuilding the map from a config would give. */
  ghost function Rebuild(c: Config, default: int): map<Key, Entry> {
    map k | k in c && c[k].Some? :: Fill(c[k].value, default)
  }

  function ApplyCm(m: map<Key, Entry>, op: Op): map<Key, Entry> {
    match op
    case SetCM(k, e) => m[k := e]
    case PopCM(k) => m - {k}
    case _ => m
  }

  function ApplyCms(m: map<Key, Entry>, ops: seq<Op>): map<Key, Entry> {
    if ops == [] then m else ApplyCm(ApplyCms(m, ops[..|ops| - 1]), ops[|ops| - 1])
  }

  predicate WritesConfig(op: Op) {
    op.SetCM? || op.PopCM?
  }

  /** The ConfigMap writes among the operations of a run. */
  function CmOps(ops: seq<Op>): seq<Op> {
    Select(ops, WritesConfig)
  }

  lemma StepProjects(s: State, op: Op)
    requires op != Clear
    ensures Apply(s, op).cmCache == ApplyCm(s.cmCache, op)
    ensures !WritesConfig(op) ==> ApplyCm(s.cmCache, op) == s.cmCache
  {
  }

  lemma ApplyCmsSnoc(m: map<Key, Entry>, ops: seq<Op>, op: Op)
    ensures ApplyCms(m, ops + [op]) == ApplyCm(ApplyCms(m, ops), op)
  {
    assert (ops + [op])[..|ops|] == ops;
  }

  /** Whatever else happens between them, only the ConfigMap writes of a run decide about `cmCache`. */
  lemma {:induction false} CmProjection(s: State, ops: seq<Op>)
    requires forall i | 0 <= i < |ops| :: ops[i] != Clear
    ensures ApplyAll(s, ops).cmCache == ApplyCms(s.cmCache, CmOps(ops))
  {
    if ops != [] {
      var front, last := ops[..|ops| - 1], ops[|ops| - 1];
      CmProjection(s, front);
      StepProjects(ApplyAll(s, front), last);
      hide Apply, ApplyCm, ApplyCms;
      if WritesConfig(last) {
        ApplyCmsSnoc(s.cmCache, CmOps(front), last);
      } else {
        assert CmOps(ops) == CmOps(front);
      }
    }
  }

  predicate AllUsable(c: Config, ks: seq<Key>) {
    forall i | 0 <= i < |ks| :: ks[i] in c && Usable(ks[i], c[ks[i]])
  }

  predicate AllSlashed(ds: seq<Key>) {
    forall i | 0 <= i < |ds| :: HasSlash(ds[i])
  }

  function Sets(c: Config, ks: seq<Key>, default: int): seq<Op>
    requires AllUsable(c, ks)
  {
    if ks == [] then []
    else
      var last := |ks| - 1;
      Sets(c, ks[..last], default) + [SetCM(Target(ks[last]), Fill(c[ks[last]].value, default))]
  }

  function Pops(ds: seq<Key>): seq<Op>
    requires AllSlashed(ds)
  {
    if ds == [] then [] else Pops(ds[..|ds| - 1]) + [PopCM(Target(ds[|ds| - 1]))]
  }

  ghost function Elements(ks: seq<Key>): set<Key> {
    set i | 0 <= i < |ks| :: ks[i]
  }

  lemma ElementsSnoc(ks: seq<Key>)
    requires ks != []
    ensures Elements(ks) == Elements(ks[..|ks| - 1]) + {ks[|ks| - 1]}
  {
    forall k | k in Elements(ks) ensures k in Elements(ks[..|ks| - 1]) + {ks[|ks| - 1]} {
      var i :| 0 <= i < |ks| && ks[i] == k;
      if i < |ks| - 1 {
        assert ks[..|ks| - 1][i] == k;
      }
    }
    forall k | k in Elements(ks[..|ks| - 1]) ensures k in Elements(ks) {
      var i :| 0 <= i < |ks| - 1 && ks[..|ks| - 1][i] == k;
      assert ks[i] == k;
    }
    assert ks[|ks| - 1] in Elements(ks);
  }

  /** `ks` enumerates `keys`, each key once. */
  ghost predicate Lists(ks: seq<Key>, keys: set<Key>) {
    NoDuplicates(ks) && Elements(ks) == keys
  }

  lemma ListedAreUsable(c: Config, ks: seq<Key>)
    requires WellFormed(c) && Elements(ks) <= c.Keys
    ensures AllUsable(c, ks) && AllSlashed(ks)
  {
    forall i | 0 <= i < |ks| ensures ks[i] in c {
      assert ks[i] in Elements(ks);
    }
  }

  ghost function OnKeys(c: Config, keys: set<Key>, default: int): map<Key, Entry> {
    map k | k in keys && k in c && c[k].Some? :: Fill(c[k].value, default)
  }

  lemma EmptyElements()
    ensures Elements([]) == {}
  {
  }

  lemma OnKeysEmpty(c: Config, default: int)
    ensures OnKeys(c, {}, default) == map[]
  {
  }

  lemma OnKeysInsert(c: Config, keys: set<Key>, k: Key, default: int)
    requires k in c && c[k].Some?
    ensures OnKeys(c, keys + {k}, default) == OnKeys(c, keys, default)[k := Fill(c[k].value, default)]
  {
  }

  lemma MapInsert(m: map<Key, Entry>, a: map<Key, Entry>, k: Key, e: Entry)
    ensures m + a[k := e] == (m + a)[k := e]
  {
  }

  /** Half-way through the insertions. */
  lemma {:induction false} ApplySets(m: map<Key, Entry>, c: Config, ks: seq<Key>, default: int)
    requires WellFormed(c) && AllUsable(c, ks)
    ensures ApplyCms(m, Sets(c, ks, default)) == m + OnKeys(c, Elements(ks), default)
  {
    hide WellFormedKey, HasSlash, Fill, Elements, OnKeys;
    if ks != [] {
      var front, k := ks[..|ks| - 1], ks[|ks| - 1];
      ApplySets(m, c, front, default);
      TargetIsKey(k);
      ElementsSnoc(ks);
      var ops := Sets(c, ks, default);
      assert ops[..|ops| - 1] == Sets(c, front, default);
      OnKeysInsert(c, Elements(front), k, default);
      MapInsert(m, OnKeys(c, Elements(front), default), k, Fill(c[k].value, default));
    } else {
      EmptyElements();
      OnKeysEmpty(c, default);
      assert m + map[] == m;
    }
  }

  ghost function Targets(ks: seq<Key>): set<Key>
    requires AllSlashed(ks)
  {
    if ks == [] then {} else Targets(ks[..|ks| - 1]) + {Target(ks[|ks| - 1])}
  }

  lemma {:induction false} TargetsAre(ks: seq<Key>, q: Key)
    requires AllSlashed(ks)
    ensures q in Targets(ks) <==> exists i :: 0 <= i < |ks| && Target(ks[i]) == q
  {
    if ks != [] {
      var last := |ks| - 1;
      TargetsAre(ks[..last], q);
      if i :| 0 <= i < |ks| && Target(ks[i]) == q {
        assert i < last ==> ks[..last][i] == ks[i];
      }
    }
  }

  /** Half-way through the deletions, whatever the keys: exactly the targets are gone. */
  lemma {:induction false} PopsDropTargets(m: map<Key, Entry>, ds: seq<Key>)
    requires AllSlashed(ds)
    ensures ApplyCms(m, Pops(ds)) == m - Targets(ds)
  {
    hide HasSlash, Target;
    if ds != [] {
      var front := ds[..|ds| - 1];
      PopsDropTargets(m, front);
      var ops := Pops(ds);
      assert ops[..|ops| - 1] == Pops(front);
    }
  }

  /** The target of a well-formed key is the key. */
  lemma TargetsAreElements(ds: seq<Key>)
    requires AllSlashed(ds) && forall i | 0 <= i < |ds| :: WellFormedKey(ds[i])
    ensures Targets(ds) == Elements(ds)
  {
    hide WellFormedKey, HasSlash;
    if ds == [] {
      EmptyElements();
    } else {
      TargetsAreElements(ds[..|ds| - 1]);
      TargetIsKey(ds[|ds| - 1]);
      ElementsSnoc(ds);
    }
  }

  /** Half-way through the deletions of well-formed keys. */
  lemma ApplyPops(m: map<Key, Entry>, ds: seq<Key>)
    requires AllSlashed(ds) && forall i | 0 <= i < |ds| :: WellFormedKey(ds[i])
    ensures ApplyCms(m, Pops(ds)) == m - Elements(ds)
  {
    hide WellFormedKey, HasSlash;
    PopsDropTargets(m, ds);
    TargetsAreElements(ds);
  }

  lemma {:induction false} ApplyCmsConcat(m: map<Key, Entry>, a: seq<Op>, b: seq<Op>)
    ensures ApplyCms(m, a + b) == ApplyCms(ApplyCms(m, a), b)
  {
    if b == [] {
      assert a + b == a;
    } else {
      assert (a + b)[..|a + b| - 1] == a + b[..|b| - 1];
      ApplyCmsConcat(m, a, b[..|b| - 1]);
    }
  }

  /** The diff in one step, for well-formed configs; `was == None` for an Add event. */
  ghost function SyncStep(m: map<Key, Entry>, was: Option<ConfigMap>, now: ConfigMap, default: int): map<Key, Entry> {
    if now.name != CONFIG_MAP_NAME || now.config.None? then m
    else
      var m' := m + Rebuild(now.config.value, default);
      if was.Some? && was.value.config.Some? then m' - (was.value.config.value.Keys - now.config.value.Keys) else m'
  }

  /** Any prefix of a script, as one map operation. */
  lemma PrefixEffect(m: map<Key, Entry>, was: Config, now: Config, ks: seq<Key>, ds: seq<Key>, default: int)
    requires WellFormed(was) && WellFormed(now)
    requires Elements(ks) <= now.Keys && Elements(ds) <= was.Keys
    ensures AllUsable(now, ks) && AllSlashed(ds)
    ensures ApplyCms(m, Sets(now, ks, default) + Pops(ds)) == (m + OnKeys(now, Elements(ks), default)) - Elements(ds)
  {
    hide WellFormedKey, HasSlash, Fill, OnKeys;
    ListedAreUsable(now, ks);
    ListedAreUsable(was, ds);
    ApplyCmsConcat(m, Sets(now, ks, default), Pops(ds));
    ApplySets(m, now, ks, default);
    forall i | 0 <= i < |ds| ensures WellFormedKey(ds[i]) {
      assert ds[i] in Elements(ds);
    }
    ApplyPops(m + OnKeys(now, Elements(ks), default), ds);
  }

  /** Whatever the iteration orders, a complete script does what `SyncStep` says. */
  lemma ScriptIsSyncStep(m: map<Key, Entry>, was: Config, now: Config, ks: seq<Key>, ds: seq<Key>, default: int)
    requires WellFormed(was) && WellFormed(now)
    requires Lists(ks, now.Keys) && Lists(ds, was.Keys - now.Keys)
    ensures AllUsable(now, ks) && AllSlashed(ds)
    ensures ApplyCms(m, Sets(now, ks, default) + Pops(ds))
            == SyncStep(m, Some(ConfigMap(CONFIG_MAP_NAME, Some(was))), ConfigMap(CONFIG_MAP_NAME, Some(now)), default)
  {
    PrefixEffect(m, was, now, ks, ds, default);
    assert OnKeys(now, Elements(ks), default) == Rebuild(now, default);
  }

  ghost predicate Parses(cm: Option<ConfigMap>) {
    cm.Some? && cm.value.config.Some?
  }

  /** An event whose configs, where they parse, have well-formed keys and no null entry. */
  ghost predicate WellFormedEvent(was: Option<ConfigMap>, now: ConfigMap) {
    (Parses(was) ==> WellFormed(was.value.config.value)) && (now.config.Some? ==> WellFormed(now.config.value))
  }

  lemma EmptyHasNoDuplicates<T>(xs: seq<T>)
    requires xs == []
    ensures NoDuplicates(xs)
  {
  }

  /** The keys an event drops. */
  ghost function Dropped(was: Option<ConfigMap>, now: Config): set<Key> {
    if Parses(was) then was.value.config.value.Keys - now.Keys else {}
  }

  /** The same for every event that reaches the loops: Add, Update, and Update of an unparseable old object. */
  lemma EventIsSyncStep(m: map<Key, Entry>, was: Option<ConfigMap>, now: ConfigMap, ks: seq<Key>, ds: seq<Key>, default: int)
    requires now.name == CONFIG_MAP_NAME && now.config.Some? && WellFormedEvent(was, now)
    requires Lists(ks, now.config.value.Keys)
    requires Lists(ds, Dropped(was, now.config.value))
    ensures AllUsable(now.config.value, ks) && AllSlashed(ds)
    ensures ApplyCms(m, Sets(now.config.value, ks, default) + Pops(ds)) == SyncStep(m, was, now, default)
  {
    hide Rebuild, HasSlash, WellFormedKey, AllUsable, AllSlashed, Sets, Pops, ApplyCms, Elements, NoDuplicates;
    var before := if Parses(was) then was.value.config.value else map[];
    assert Dropped(was, now.config.value) == before.Keys - now.config.value.Keys;
    ScriptIsSyncStep(m, before, now.config.value, ks, ds, default);
    var m' := m + Rebuild(now.config.value, default);
    assert m' - {} == m';
  }

  lemma {:induction false} SetsPrefix(c: Config, ks: seq<Key>, i: nat, default: int)
    requires AllUsable(c, ks) && i <= |ks|
    ensures |Sets(c, ks, default)| == |ks| && Sets(c, ks, default)[..i] == Sets(c, ks[..i], default)
  {
    if i < |ks| {
      SetsPrefix(c, ks[..|ks| - 1], i, default);
      assert ks[..|ks| - 1][..i] == ks[..i];
    } else if ks != [] {
      SetsPrefix(c, ks[..|ks| - 1], |ks| - 1, default);
      assert ks[..i] == ks;
    }
  }

  lemma {:induction false} PopsPrefix(ds: seq<Key>, j: nat)
    requires AllSlashed(ds) && j <= |ds|
    ensures |Pops(ds)| == |ds| && Pops(ds)[..j] == Pops(ds[..j])
  {
    if j < |ds| {
      PopsPrefix(ds[..|ds| - 1], j);
      assert ds[..|ds| - 1][..j] == ds[..j];
    } else if ds != [] {
      PopsPrefix(ds[..|ds| - 1], |ds| - 1);
      assert ds[..j] == ds;
    }
  }

  /** A prefix of a script is the script of prefixes. */
  lemma ScriptPrefix(c: Config, ks: seq<Key>, ds: seq<Key>, n: nat, default: int) returns (i: nat, j: nat)
    requires AllUsable(c, ks) && AllSlashed(ds) && n <= |Sets(c, ks, default) + Pops(ds)|
    ensures i <= |ks| && j <= |ds|
    ensures (Sets(c, ks, default) + Pops(ds))[..n] == Sets(c, ks[..i], default) + Pops(ds[..j])
  {
    hide Usable, HasSlash, Sets, Pops;
    SetsPrefix(c, ks, |ks|, default);
    PopsPrefix(ds, |ds|);
    i := if n < |ks| then n else |ks|;
    j := n - i;
    SetsPrefix(c, ks, i, default);
    PopsPrefix(ds, j);
    var sets, pops := Sets(c, ks, default), Pops(ds);
    if n < |ks| {
      assert (sets + pops)[..n] == sets[..n] + pops[..0];
    } else {
      assert sets[..i] == sets && (sets + pops)[..n] == sets + pops[..j];
    }
  }

  /**
   Half-way through an update, seen at `k`: an entry is the one from before or the new one, and none is
   missing that the update does not drop. So a key of both configs has its old or its new entry.
   */
  ghost predicate Between(m: map<Key, Entry>, mid: map<Key, Entry>, was: Config, now: Config, k: Key, default: int) {
    && (k in mid ==>
          || (k in m && mid[k] == m[k])
          || (k in now && now[k].Some? && mid[k] == Fill(now[k].value, default)))
    && (k in m && (k in now || k !in was) ==> k in mid)
  }

  /**
   Interruption. At any point of a run whose ConfigMap writes so far are the beginning of an update -
   with getters, insertions and removals of accounts anywhere in between - every key is between its old
   and its new entry.
   */
  lemma MidUpdate(s: State, ops: seq<Op>, was: Config, now: Config, ks: seq<Key>, ds: seq<Key>, k: Key, default: int)
    requires WellFormed(was) && WellFormed(now)
    requires Lists(ks, now.Keys) && Lists(ds, was.Keys - now.Keys)
    requires AllUsable(now, ks) && AllSlashed(ds)
    requires forall i | 0 <= i < |ops| :: ops[i] != Clear
    requires CmOps(ops) <= Sets(now, ks, default) + Pops(ds)
    ensures Between(s.cmCache, ApplyAll(s, ops).cmCache, was, now, k, default)
  {
    hide Usable, HasSlash, WellFormedKey, Sets, Pops, ApplyCms, ApplyAll, CmOps, NoDuplicates, Fill;
    CmProjection(s, ops);
    var i, j := ScriptPrefix(now, ks, ds, |CmOps(ops)|, default);
    assert CmOps(ops) == (Sets(now, ks, default) + Pops(ds))[..|CmOps(ops)|];
    ElementsPrefix(ks, i);
    ElementsPrefix(ds, j);
    PrefixEffect(s.cmCache, was, now, ks[..i], ds[..j], default);
  }

  lemma ElementsPrefix(ks: seq<Key>, i: nat)
    requires i <= |ks|
    ensures Elements(ks[..i]) <= Elements(ks)
  {
    forall k | k in Elements(ks[..i]) ensures k in Elements(ks) {
      var j :| 0 <= j < i && ks[..i][j] == k;
      assert ks[j] == k;
    }
  }

  // ---------------------------------------------------------------- malformed keys

  /** `e` is what some entry of the config with this target stores. */
  ghost predicate Supplies(c: Config, q: Key, e: Entry, default: int) {
    exists k :: k in c && Usable(k, c[k]) && Target(k) == q && e == Fill(c[k].value, default)
  }

  /** `r` is `m` with entries of the config at the targets, seen at `q`. */
  ghost predicate FilledAt(m: map<Key, Entry>, r: map<Key, Entry>, c: Config, targets: set<Key>, default: int, q: Key) {
    && (q in r <==> q in m || q in targets)
    && (q in r ==> if q in targets then Supplies(c, q, r[q], default) else r[q] == m[q])
  }

  lemma FillOne(m: map<Key, Entry>, r: map<Key, Entry>, c: Config, targets: set<Key>, default: int, q: Key, k: Key)
    requires FilledAt(m, r, c, targets, default, q) && k in c && Usable(k, c[k])
    ensures FilledAt(m, r[Target(k) := Fill(c[k].value, default)], c, targets + {Target(k)}, default, q)
  {
    hide HasSlash, Target, Fill;
    if q == Target(k) {
      assert Supplies(c, q, Fill(c[k].value, default), default);
    }
  }

  /** Half-way through the insertions, whatever the keys. */
  lemma {:induction false} SetsFillTargets(m: map<Key, Entry>, c: Config, ks: seq<Key>, default: int, q: Key)
    requires AllUsable(c, ks) && AllSlashed(ks)
    ensures FilledAt(m, ApplyCms(m, Sets(c, ks, default)), c, Targets(ks), default, q)
  {
    hide HasSlash, Target, Fill, Supplies;
    if ks != [] {
      var front, last := ks[..|ks| - 1], ks[|ks| - 1];
      SetsFillTargets(m, c, front, default, q);
      FillOne(m, ApplyCms(m, Sets(c, front, default)), c, Targets(front), default, q, last);
      hide FilledAt, Usable;
      ApplyCmsSnoc(m, Sets(c, front, default), SetCM(Target(last), Fill(c[last].value, default)));
    }
  }

  ghost predicate IsTarget(keys: set<Key>, q: Key) {
    exists k :: k in keys && HasSlash(k) && Target(k) == q
  }

  lemma ListedTargets(ks: seq<Key>, keys: set<Key>, q: Key)
    requires Lists(ks, keys) && AllSlashed(ks)
    ensures q in Targets(ks) <==> IsTarget(keys, q)
  {
    hide HasSlash, Target, NoDuplicates;
    TargetsAre(ks, q);
    if i :| 0 <= i < |ks| && Target(ks[i]) == q {
      assert ks[i] in Elements(ks);
    }
    if k :| k in keys && HasSlash(k) && Target(k) == q {
      var i :| 0 <= i < |ks| && ks[i] == k;
    }
  }

  /**
   What a complete update does to `cmCache`, whatever its keys: present afterwards is what was there or
   is the target of a new key, unless it is the target of a dropped one; new targets hold the entry of
   one of their keys and everything else is as it was.
   */
  ghost predicate SyncsTo(m: map<Key, Entry>, m': map<Key, Entry>, dropped: set<Key>, now: Config, default: int) {
    forall q :: SyncsAt(m, m', dropped, now, default, q)
  }

  ghost predicate SyncsAt(m: map<Key, Entry>, m': map<Key, Entry>, dropped: set<Key>, now: Config, default: int, q: Key) {
    && (q in m' <==> (q in m || IsTarget(now.Keys, q)) && !IsTarget(dropped, q))
    && (q in m' ==> if IsTarget(now.Keys, q) then Supplies(now, q, m'[q], default) else m'[q] == m[q])
  }

  lemma ScriptSyncs(m: map<Key, Entry>, dropped: set<Key>, now: Config, ks: seq<Key>, ds: seq<Key>, default: int)
    requires AllUsable(now, ks) && Lists(ks, now.Keys) && AllSlashed(ds) && Lists(ds, dropped)
    ensures SyncsTo(m, ApplyCms(m, Sets(now, ks, default) + Pops(ds)), dropped, now, default)
  {
    hide *;
    var r := ApplyCms(m, Sets(now, ks, default) + Pops(ds));
    forall q ensures SyncsAt(m, r, dropped, now, default, q) {
      ScriptSyncsAt(m, dropped, now, ks, ds, default, q);
    }
    SyncsEverywhere(m, r, dropped, now, default);
  }

  lemma SyncsEverywhere(m: map<Key, Entry>, m': map<Key, Entry>, dropped: set<Key>, now: Config, default: int)
    requires forall q :: SyncsAt(m, m', dropped, now, default, q)
    ensures SyncsTo(m, m', dropped, now, default)
  {
    hide SyncsAt;
  }

  lemma ScriptSyncsAt(m: map<Key, Entry>, dropped: set<Key>, now: Config, ks: seq<Key>, ds: seq<Key>, default: int, q: Key)
    requires AllUsable(now, ks) && Lists(ks, now.Keys) && AllSlashed(ds) && Lists(ds, dropped)
    ensures SyncsAt(m, ApplyCms(m, Sets(now, ks, default) + Pops(ds)), dropped, now, default, q)
  {
    assert AllSlashed(ks);
    hide AllUsable, AllSlashed, HasSlash, Target, Lists, IsTarget, Supplies, Targets, Sets, Pops, ApplyCms, Usable;
    var sets := Sets(now, ks, default);
    ApplyCmsConcat(m, sets, Pops(ds));
    PopsDropTargets(ApplyCms(m, sets), ds);
    ListedTargets(ks, now.Keys, q);
    ListedTargets(ds, dropped, q);
    SetsFillTargets(m, now, ks, default, q);
  }

  /**
   An update keeps an entry of the new config exactly when no dropped key has the same target. The old
   config may have any slashed keys, the iteration orders may be any.
   */
  lemma UpdateKeepsIff(m: map<Key, Entry>, was: Config, now: Config, ks: seq<Key>, ds: seq<Key>, k: Key, default: int)
    requires WellFormed(now) && k in now
    requires AllUsable(now, ks) && Lists(ks, now.Keys) && AllSlashed(ds) && Lists(ds, was.Keys - now.Keys)
    ensures var r := ApplyCms(m, Sets(now, ks, default) + Pops(ds));
            k in r && r[k] == Fill(now[k].value, default) <==>
              forall d :: d in was && d !in now && HasSlash(d) ==> Target(d) != k
  {
    var r := ApplyCms(m, Sets(now, ks, default) + Pops(ds));
    ScriptSyncs(m, was.Keys - now.Keys, now, ks, ds, default);
    hide Lists, AllUsable, AllSlashed, Sets, Pops, ApplyCms, Fill;
    TargetIsKey(k);
    assert IsTarget(now.Keys, k);
    assert SyncsAt(m, r, was.Keys - now.Keys, now, default, k);
    if k in r {
      var k' :| k' in now && Usable(k', now[k']) && Target(k') == k && r[k] == Fill(now[k'].value, default);
      TargetIsKey(k');
    }
  }

  lemma TargetIsWellFormed(k: Key)
    requires HasSlash(k)
    ensures WellFormedKey(Target(k))
  {
    CacheKeySplits(Split(k, '/')[0], Split(k, '/')[1]);
  }

  lemma MalformedIsNotStored(c: Config, ks: seq<Key>, default: int, q: Key)
    requires AllUsable(c, ks) && !WellFormedKey(q)
    ensures q !in ApplyCms(map[], Sets(c, ks, default))
  {
    hide Fill, Sets, ApplyCms, HasSlash, WellFormedKey, Target;
    SetsFillTargets(map[], c, ks, default, q);
    TargetsAre(ks, q);
    if i :| 0 <= i < |ks| && Target(ks[i]) == q {
      TargetIsWellFormed(ks[i]);
    }
  }

  /** Adding a config to an empty cache yields the config exactly when every key has one slash. */
  lemma AddIsExactIffWellFormed(c: Config, ks: seq<Key>, default: int)
    requires forall k | k in c :: Usable(k, c[k])
    requires Lists(ks, c.Keys)
    ensures AllUsable(c, ks)
    ensures ApplyCms(map[], Sets(c, ks, default)) == Rebuild(c, default) <==> WellFormed(c)
  {
    hide Fill;
    forall i | 0 <= i < |ks| ensures ks[i] in c {
      assert ks[i] in Elements(ks);
    }
    if WellFormed(c) {
      ApplySets(map[], c, ks, default);
      assert map[] + OnKeys(c, Elements(ks), default) == Rebuild(c, default);
    } else {
      var q :| q in c && !WellFormedKey(q);
      MalformedIsNotStored(c, ks, default, q);
      assert q in Rebuild(c, default);
    }
  }

  lemma SingleSet(k: Key, e: Entry, default: int)
    requires HasSlash(k)
    ensures AllUsable(map[k := Some(e)], [k])
    ensures Sets(map[k := Some(e)], [k], default) == [SetCM(Target(k), Fill(e, default))]
    ensures AllSlashed([k]) && Pops([k]) == [PopCM(Target(k))]
  {
    assert [k][..0] == [];
  }

  /**
   A longer key can delete an entry: replacing `a/b/c` by `a/b` stores the new entry and then drops
   it, because both keys have the target `a/b`.
   */
  lemma SharedTargetLosesEntry(m: map<Key, Entry>, a: string, b: string, c: string, e: Entry, default: int)
    requires '/' !in a && '/' !in b && '/' !in c
    ensures var short := a + "/" + b;
            var long := short + "/" + c;
            && HasSlash(short) && HasSlash(long) && AllUsable(map[short := Some(e)], [short]) && AllSlashed([long])
            && short !in ApplyCms(m, Sets(map[short := Some(e)], [short], default) + Pops([long]))
  {
    var short, long := a + "/" + b, a + "/" + b + "/" + c;
    CacheKeySplits(a, b);
    assert long == a + "/" + (b + "/" + c);
    SplitCons(a, b + "/" + c, '/');
    SplitCons(b, c, '/');
    SingleSet(short, e, default);
    SingleSet(long, e, default);
    ApplyCmsConcat(m, Sets(map[short := Some(e)], [short], default), Pops([long]));
    assert [PopCM(short)][..0] == [];
  }

  // ---------------------------------------------------------------- chains of events

  /**
   What the informer delivers for the ConfigMap: the first event is an Add; an Update carries the
   previous object as its old one; another Add follows a deletion, which has no handler. `None` does
   not parse.
   */
  datatype Event = Added(config: Option<Config>) | Updated(config: Option<Config>)

  ghost predicate WellFormedChain(events: seq<Event>) {
    forall i | 0 <= i < |events| && events[i].config.Some? :: WellFormed(events[i].config.value)
  }

  /** The old object that comes with the last event. */
  ghost function OldObject(events: seq<Event>): Option<ConfigMap>
    requires events != []
  {
    var last := |events| - 1;
    if last == 0 || events[last].Added? then None
    else Some(ConfigMap(CONFIG_MAP_NAME, events[last - 1].config))
  }

  ghost function NewObject(events: seq<Event>): ConfigMap
    requires events != []
  {
    ConfigMap(CONFIG_MAP_NAME, events[|events| - 1].config)
  }

  ghost function ChainCache(events: seq<Event>, default: int): map<Key, Entry> {
    if events == [] then map[]
    else SyncStep(ChainCache(events[..|events| - 1], default), OldObject(events), NewObject(events), default)
  }

  /** The most recent config that parses, or the empty one. */
  ghost function Latest(events: seq<Event>): Config {
    if events == [] then map[]
    else if events[|events| - 1].config.Some? then events[|events| - 1].config.value
    else Latest(events[..|events| - 1])
  }

  /**
   The entries that stay although the latest config does not have them: a config that parses replaces
   the one before only if it comes with it as a readable old object.
   */
  ghost function Stranded(events: seq<Event>, default: int): map<Key, Entry> {
    if events == [] then map[]
    else
      var front, now := events[..|events| - 1], NewObject(events).config;
      if now.None? then Stranded(front, default)
      else if Parses(OldObject(events)) then Stranded(front, default) - now.value.Keys
      else (Stranded(front, default) + Rebuild(Latest(front), default)) - now.value.Keys
  }

  lemma {:induction false} StrandedIsDisjoint(events: seq<Event>, default: int)
    ensures Stranded(events, default).Keys !! Latest(events).Keys
  {
    if events != [] && events[|events| - 1].config.None? {
      StrandedIsDisjoint(events[..|events| - 1], default);
    }
  }

  lemma {:induction false} LatestIsWellFormed(events: seq<Event>)
    requires WellFormedChain(events)
    ensures WellFormed(Latest(events))
  {
    if events != [] {
      LatestIsWellFormed(events[..|events| - 1]);
    }
  }

  /** Over every chain, the cache is the latest parseable config plus exactly the stranded entries. */
  lemma {:induction false} ChainIsLatestPlusStranded(events: seq<Event>, default: int)
    requires WellFormedChain(events)
    ensures ChainCache(events, default) == Stranded(events, default) + Rebuild(Latest(events), default)
  {
    if events == [] {
      assert Rebuild(map[], default) == map[];
    } else {
      var front := events[..|events| - 1];
      ChainIsLatestPlusStranded(front, default);
      StrandedIsDisjoint(front, default);
      LatestIsWellFormed(front);
      if NewObject(events).config.Some? {
        ChainStep(events, default);
      }
    }
  }

  lemma ChainStep(events: seq<Event>, default: int)
    requires events != [] && NewObject(events).config.Some? && WellFormed(NewObject(events).config.value)
    requires var front := events[..|events| - 1];
             && WellFormed(Latest(front))
             && ChainCache(front, default) == Stranded(front, default) + Rebuild(Latest(front), default)
             && Stranded(front, default).Keys !! Latest(front).Keys
    ensures ChainCache(events, default) == Stranded(events, default) + Rebuild(NewObject(events).config.value, default)
  {
    var front, now := events[..|events| - 1], NewObject(events).config.value;
    var stranded, rebuilt := Stranded(front, default), Rebuild(now, default);
    RebuildKeys(now, default);
    RebuildKeys(Latest(front), default);
    if Parses(OldObject(events)) {
      assert Latest(front) == OldObject(events).value.config.value;
      SwapMaps(stranded, Rebuild(Latest(front), default), rebuilt);
    } else {
      OverrideMaps(stranded + Rebuild(Latest(front), default), rebuilt);
    }
  }

  lemma RebuildKeys(c: Config, default: int)
    requires WellFormed(c)
    ensures Rebuild(c, default).Keys == c.Keys
  {
  }

  lemma SwapMaps(a: map<Key, Entry>, b: map<Key, Entry>, c: map<Key, Entry>)
    requires a.Keys !! b.Keys
    ensures (a + b + c) - (b.Keys - c.Keys) == (a - c.Keys) + c
  {
  }

  lemma OverrideMaps(a: map<Key, Entry>, c: map<Key, Entry>)
    ensures a + c == (a - c.Keys) + c
  {
  }

  /**
   `k` was last configured by event `i`, some later config parses, and the event after `i` had nothing to
   drop `k` by: its own config did not parse, or it was an Add after a deletion.
   */
  ghost predicate LeftBehind(events: seq<Event>, i: nat, k: Key) {
    && i + 1 < |events| && events[i].config.Some? && k in events[i].config.value
    && (events[i + 1].config.None? || events[i + 1].Added?)
    && (forall j | i < j < |events| && events[j].config.Some? :: k !in events[j].config.value)
    && (exists j | i < j < |events| :: events[j].config.Some?)
  }

  ghost predicate IsLeftBehind(events: seq<Event>, k: Key) {
    exists i :: LeftBehind(events, i, k)
  }

  lemma {:induction false} LatestIsAt(events: seq<Event>) returns (i: nat)
    requires Latest(events) != map[]
    ensures i < |events| && events[i].config == Some(Latest(events))
    ensures forall j | i < j < |events| :: events[j].config.None?
  {
    var last := |events| - 1;
    if events[last].config.Some? {
      i := last;
    } else {
      i := LatestIsAt(events[..last]);
    }
  }

  lemma {:induction false} LatestAfter(events: seq<Event>, i: nat)
    requires i < |events| && events[i].config.Some? && forall j | i < j < |events| :: events[j].config.None?
    ensures Latest(events) == events[i].config.value
  {
    if i < |events| - 1 {
      LatestAfter(events[..|events| - 1], i);
    }
  }

  /** One event more: `k` is stranded already, or it is this event that strands it. */
  ghost predicate StrandedNow(events: seq<Event>, default: int, k: Key)
    requires events != []
  {
    var front, now := events[..|events| - 1], NewObject(events).config;
    && (now.Some? ==> k !in now.value)
    && (k in Stranded(front, default) || (now.Some? && !Parses(OldObject(events)) && k in Latest(front)))
  }

  lemma StrandedHasWitness(events: seq<Event>, default: int, k: Key)
    requires events != [] && StrandedNow(events, default, k)
    requires k in Stranded(events[..|events| - 1], default) ==> IsLeftBehind(events[..|events| - 1], k)
    ensures IsLeftBehind(events, k)
  {
    hide Stranded;
    var last := |events| - 1;
    var front := events[..last];
    var i: nat;
    if k in Stranded(front, default) {
      i :| LeftBehind(front, i, k);
      var j :| i < j < last && front[j].config.Some?;
      assert events[j].config.Some?;
    } else {
      i := LatestIsAt(front);
      assert events[last].config.Some?;
    }
    hide Latest;
    assert LeftBehind(events, i, k);
  }

  lemma WitnessIsStranded(events: seq<Event>, default: int, k: Key, i: nat)
    requires LeftBehind(events, i, k)
    requires IsLeftBehind(events[..|events| - 1], k) ==> k in Stranded(events[..|events| - 1], default)
    ensures StrandedNow(events, default, k)
  {
    hide Stranded, Latest;
    var last := |events| - 1;
    var front := events[..last];
    if j :| i < j < last && events[j].config.Some? {
      assert front[j].config.Some?;
      assert LeftBehind(front, i, k);
    } else {
      LatestAfter(front, i);
    }
  }

  /** Exactly the keys left behind are stranded. */
  lemma {:induction false} StrandedIsLeftBehind(events: seq<Event>, default: int, k: Key)
    requires WellFormedChain(events)
    ensures k in Stranded(events, default) <==> IsLeftBehind(events, k)
  {
    if events != [] {
      var front := events[..|events| - 1];
      StrandedIsLeftBehind(front, default, k);
      LatestIsWellFormed(front);
      RebuildKeys(Latest(front), default);
      assert k in Stranded(events, default) <==> StrandedNow(events, default, k) by {
        StrandedIsDisjoint(front, default);
      }
      if k in Stranded(events, default) {
        StrandedHasWitness(events, default, k);
      }
      if i :| LeftBehind(events, i, k) {
        WitnessIsStranded(events, default, k, i);
      }
    }
  }

  /**
   The incremental diff agrees with rebuilding from the latest config exactly when no key was left
   behind - in particular whenever one Add is followed by Updates that all parse. On the keys of the
   latest parseable config it always agrees.
   */
  lemma SyncRefinesRebuild(events: seq<Event>, default: int)
    requires WellFormedChain(events)
    ensures ChainCache(events, default) == Rebuild(Latest(events), default) <==>
              forall k :: !IsLeftBehind(events, k)
    ensures (forall i | 0 <= i < |events| :: events[i].config.Some? && (events[i].Added? ==> i == 0)) ==>
              ChainCache(events, default) == Rebuild(Latest(events), default)
    ensures forall k | k in Latest(events) ::
              && k in ChainCache(events, default) && Latest(events)[k].Some?
              && ChainCache(events, default)[k] == Fill(Latest(events)[k].value, default)
  {
    ChainIsLatestPlusStranded(events, default);
    StrandedIsDisjoint(events, default);
    LatestIsWellFormed(events);
    forall k ensures k in Stranded(events, default) <==> IsLeftBehind(events, k) {
      StrandedIsLeftBehind(events, default, k);
    }
    RebuildKeys(Latest(events), default);
    hide Stranded, Latest, ChainCache;
    assert forall k | k in Stranded(events, default) :: k in ChainCache(events, default);
  }

  /** One unparseable config in between is enough to leave a dropped account mapped. */
  lemma StrandedEntryStays(k: Key, e: Entry, default: int)
    requires WellFormedKey(k)
    ensures var events := [Added(Some(map[k := Some(e)])), Updated(None), Updated(Some(map[]))];
            Latest(events) == map[] && k in ChainCache(events, default)
  {
    var first: Event := Added(Some(map[k := Some(e)]));
    var events: seq<Event> := [first, Updated(None), Updated(Some(map[]))];
    assert events[..2] == [first, Updated(None)] && events[..2][..1] == [first] && [first][..0] == [];
    assert k in ChainCache([first], default);
  }

  /** So is deleting the ConfigMap and adding it again without the account. */
  lemma DeletedEntryStays(k: Key, e: Entry, default: int)
    requires WellFormedKey(k)
    ensures var events := [Added(Some(map[k := Some(e)])), Added(Some(map[]))];
            Latest(events) == map[] && k in ChainCache(events, default)
  {
    var first: Event := Added(Some(map[k := Some(e)]));
    var events: seq<Event> := [first, Added(Some(map[]))];
    assert events[..1] == [first] && [first][..0] == [];
    assert k in ChainCache([first], default);
  }

  // ---------------------------------------------------------------- chains over whole runs

  /** `ops` are the writes of one event, in some iteration order. */
  ghost predicate IsScript(was: Option<ConfigMap>, now: ConfigMap, ks: seq<Key>, ds: seq<Key>, default: int, ops: seq<Op>) {
    if now.name != CONFIG_MAP_NAME || now.config.None? then ops == []
    else
      && AllUsable(now.config.value, ks) && AllSlashed(ds) && Lists(ks, now.config.value.Keys)
      && Lists(ds, Dropped(was, now.config.value))
      && ops == Sets(now.config.value, ks, default) + Pops(ds)
  }

  /** `ops` are the writes of a chain of events, one after the other; the first `n` are those of all but the last. */
  ghost predicate IsChainScript(events: seq<Event>, default: int, ops: seq<Op>) {
    if events == [] then ops == []
    else exists n: nat :: EndsWithScript(events, default, ops, n) && IsChainScript(events[..|events| - 1], default, ops[..n])
  }

  ghost predicate EndsWithScript(events: seq<Event>, default: int, ops: seq<Op>, n: nat) {
    events != [] && n <= |ops| &&
    exists ks, ds :: IsScript(OldObject(events), NewObject(events), ks, ds, default, ops[n..])
  }

  lemma ScriptSteps(m: map<Key, Entry>, was: Option<ConfigMap>, now: ConfigMap, ks: seq<Key>, ds: seq<Key>,
                    default: int, ops: seq<Op>)
    requires IsScript(was, now, ks, ds, default, ops) && WellFormedEvent(was, now)
    ensures ApplyCms(m, ops) == SyncStep(m, was, now, default)
  {
    if now.name == CONFIG_MAP_NAME && now.config.Some? {
      EventIsSyncStep(m, was, now, ks, ds, default);
    }
  }

  lemma {:induction false} ChainScriptRuns(events: seq<Event>, default: int, ops: seq<Op>)
    requires WellFormedChain(events) && IsChainScript(events, default, ops)
    ensures ApplyCms(map[], ops) == ChainCache(events, default)
  {
    hide IsScript, SyncStep, ApplyCms, WellFormed;
    if events == [] {
      assert ApplyCms(map[], []) == map[] by { ApplyNothing(map[]); }
    } else {
      var n: nat :| EndsWithScript(events, default, ops, n) && IsChainScript(events[..|events| - 1], default, ops[..n]);
      var ks, ds :| IsScript(OldObject(events), NewObject(events), ks, ds, default, ops[n..]);
      ChainScriptRuns(events[..|events| - 1], default, ops[..n]);
      ScriptSteps(ApplyCms(map[], ops[..n]), OldObject(events), NewObject(events), ks, ds, default, ops[n..]);
      assert ops == ops[..n] + ops[n..];
      ApplyCmsConcat(map[], ops[..n], ops[n..]);
    }
  }

  lemma ApplyNothing(m: map<Key, Entry>)
    ensures ApplyCms(m, []) == m
  {
  }

  /**
   The same over every run of the cache from its start: whatever getters, insertions and removals of
   accounts happen between and within the events, `cmCache` is what the events say.
   */
  lemma RunSyncs(ops: seq<Op>, events: seq<Event>, default: int)
    requires WellFormedChain(events) && IsChainScript(events, default, CmOps(ops))
    requires forall i | 0 <= i < |ops| :: ops[i] != Clear
    ensures ApplyAll(EMPTY, ops).cmCache == ChainCache(events, default)
  {
    CmProjection(EMPTY, ops);
    ChainScriptRuns(events, default, CmOps(ops));
  }

  lemma ClearEmpties(s: State)
    ensures Apply(s, Clear).cmCache == map[]
  {
  }

  lemma NothingToDrop(c: Config, default: int)
    ensures var cm := ConfigMap(CONFIG_MAP_NAME, Some(c));
            && (WellFormed(c) ==> WellFormedEvent(Some(cm), cm))
            && SyncStep(map[], Some(cm), cm, default) == Rebuild(c, default)
  {
    hide Rebuild;
    assert c.Keys - c.Keys == {};
  }

  /**
   Redelivering a ConfigMap as both old and new restores it after the cache was cleared, whatever
   account operations happen meanwhile.
   */
  lemma RedeliveryRestores(s: State, ops: seq<Op>, c: Config, ks: seq<Key>, ds: seq<Key>, default: int)
    requires WellFormed(c)
    requires forall i | 0 <= i < |ops| :: ops[i] != Clear
    requires var cm := ConfigMap(CONFIG_MAP_NAME, Some(c));
             IsScript(Some(cm), cm, ks, ds, default, CmOps(ops))
    ensures ApplyAll(Apply(s, Clear), ops).cmCache == Rebuild(c, default)
  {
    hide *;
    var cm := ConfigMap(CONFIG_MAP_NAME, Some(c));
    ClearEmpties(s);
    CmProjection(Apply(s, Clear), ops);
    NothingToDrop(c, default);
    ScriptSteps(map[], Some(cm), cm, ks, ds, default, CmOps(ops));
  }
}
