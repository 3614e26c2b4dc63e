/**
 The service-account cache and its notification registry as one abstract state, with every public
 operation as an atomic function of it (pkg/cache/cache.go, pkg/cache/notifications.go).

 The class in ServiceAccountCache.dfy implements these functions; the lock-level machine in
 LockProtocol.dfy refines them.
 */
module Registry {
  import opened Common

  type Key = string

  /** Channels are numbered in the order `make(chan struct{})` created them. */
  type Chan = nat

  datatype Entry = Entry(roleArn: string, audience: string, useRegionalSTS: bool, tokenExpiration: int)

  datatype Request = Request(name: string, namespace: string, notify: bool)

  function CacheKey(req: Request): Key {
    req.namespace + "/" + req.name
  }

  function WildcardKey(req: Request): Key {
    "*/" + req.name
  }

  /**
   `handlers` is the live map. The other three fields are histories: the key each channel was made
   for, the channels in the order `close` was called on them, and the keys of the fetch requests sent.
   */
  datatype Notifications = Notifications(
    handlers: map<Key, Chan>,
    created: seq<Key>,
    closeLog: seq<Chan>,
    sent: seq<Key>
  )

  datatype State = State(saCache: map<Key, Entry>, cmCache: map<Key, Entry>, n: Notifications)

  const EMPTY := State(map[], map[], Notifications(map[], [], [], []))

  function Lookup<V>(m: map<Key, V>, k: Key): Option<V> {
    if k in m then Some(m[k]) else None
  }

  /** Registers a fresh channel under `k`, which must not be registered yet. */
  function Register(n: Notifications, k: Key): Notifications {
    n.(handlers := n.handlers[k := |n.created|], created := n.created + [k])
  }

  /** `notifications.create`: reuse the registered channel, or register one and send one fetch request. */
  function Create(n: Notifications, k: Key): (Notifications, Chan) {
    if k in n.handlers then (n, n.handlers[k])
    else
      var n' := Register(n, k);
      (n'.(sent := n'.sent + [k]), |n.created|)
  }

  /** `notifications.broadcast`: close and forget the channel registered under `k`, if any. */
  function Broadcast(n: Notifications, k: Key): Notifications {
    if k in n.handlers
    then n.(handlers := n.handlers - {k}, closeLog := n.closeLog + [n.handlers[k]])
    else n
  }

  datatype Op =
    | GetSA(req: Request)
    | SetSA(key: Key, entry: Entry)
    | PopSA(key: Key)
    | SetCM(key: Key, entry: Entry)
    | PopCM(key: Key)
    | Clear

  /** What `getSA` hands to its caller. */
  function GetSAResult(s: State, req: Request): (Option<Entry>, Option<Chan>) {
    var k := CacheKey(req);
    if k in s.saCache then (Some(s.saCache[k]), None)
    else if req.notify then (None, Some(Create(s.n, k).1))
    else (None, None)
  }

  function Apply(s: State, op: Op): State {
    match op
    case GetSA(req) =>
      if CacheKey(req) !in s.saCache && req.notify
      then s.(n := Create(s.n, CacheKey(req)).0)
      else s
    case SetSA(k, e) => s.(saCache := s.saCache[k := e], n := Broadcast(s.n, k))
    case PopSA(k) => s.(saCache := s.saCache - {k})
    case SetCM(k, e) => s.(cmCache := s.cmCache[k := e])
    case PopCM(k) => s.(cmCache := s.cmCache - {k})
    case Clear => s.(saCache := map[], cmCache := map[])
  }

  function ApplyAll(s: State, ops: seq<Op>): State {
    if ops == [] then s else Apply(ApplyAll(s, ops[..|ops| - 1]), ops[|ops| - 1])
  }

  // ---------------------------------------------------------------- responses

  /** `notifier` is meant only for a caller that was told "not found". */
  datatype Response = Response(
    roleArn: string, audience: string, useRegionalSTS: bool, tokenExpiration: int,
    found: bool, notifier: Option<Chan>)

  function FromEntry(e: Entry, notifier: Option<Chan>): Response {
    Response(e.roleArn, e.audience, e.useRegionalSTS, e.tokenExpiration, true, notifier)
  }

  /** How `Get` merges its three lookups: annotated account, exact ConfigMap key, `*` ConfigMap key. */
  function Resolve(sa: Option<Entry>, notifier: Option<Chan>, exact: Option<Entry>, wild: Option<Entry>): Response {
    if sa.Some? && sa.value.roleArn != "" then FromEntry(sa.value, notifier)
    else if exact.Some? then FromEntry(exact.value, notifier)
    else if wild.Some? then FromEntry(wild.value, notifier)
    else Response("", "", false, DEFAULT_TOKEN_EXPIRATION, sa.Some?, notifier)
  }

  /** `Get` against a cache that does not change while its three lookups run. */
  function GetResponse(s: State, req: Request): Response {
    var (sa, notifier) := GetSAResult(s, req);
    Resolve(sa, notifier, Lookup(s.cmCache, CacheKey(req)), Lookup(s.cmCache, WildcardKey(req)))
  }

  /** `GetCommonConfigurations`: no role is needed and the `*` key is not consulted. */
  function CommonConfigurations(s: State, name: string, namespace: string): (bool, int) {
    var k := CacheKey(Request(name, namespace, false));
    if k in s.saCache then (s.saCache[k].useRegionalSTS, s.saCache[k].tokenExpiration)
    else if k in s.cmCache then (s.cmCache[k].useRegionalSTS, s.cmCache[k].tokenExpiration)
    else (false, DEFAULT_TOKEN_EXPIRATION)
  }

  // ---------------------------------------------------------------- invariant

  /** The keys of the closed channels, in closing order. */
  function ClosedKeys(n: Notifications): seq<Key>
    requires ClosesExist(n)
  {
    seq(|n.closeLog|, i requires 0 <= i < |n.closeLog| => n.created[n.closeLog[i]])
  }

  ghost predicate NoDuplicates<T>(xs: seq<T>) {
    forall i, j | 0 <= i < j < |xs| :: xs[i] != xs[j]
  }

  /** A registered channel was made for the key it is registered under, and is still open. */
  ghost predicate HandlersOpen(n: Notifications) {
    forall k | k in n.handlers ::
      n.handlers[k] < |n.created| && n.created[n.handlers[k]] == k && n.handlers[k] !in n.closeLog
  }

  /** Only channels that exist are closed. */
  predicate ClosesExist(n: Notifications) {
    forall i | 0 <= i < |n.closeLog| :: n.closeLog[i] < |n.created|
  }

  /** A channel that exists is closed or still registered under its key. */
  ghost predicate Accounted(n: Notifications) {
    forall c | 0 <= c < |n.created| ::
      c in n.closeLog || (n.created[c] in n.handlers && n.handlers[n.created[c]] == c)
  }

  /** One fetch request per registration: those already answered plus those still waiting. */
  ghost predicate Conserved(n: Notifications)
    requires ClosesExist(n)
  {
    multiset(n.sent) == multiset(ClosedKeys(n)) + multiset(n.handlers.Keys)
  }

  ghost predicate ChannelsInv(n: Notifications) {
    HandlersOpen(n) && ClosesExist(n) && NoDuplicates(n.closeLog) && Accounted(n) && Conserved(n)
  }

  ghost predicate Inv(s: State) {
    && ChannelsInv(s.n)
    && s.n.handlers.Keys !! s.saCache.Keys
  }

  lemma MultisetOfInsert<T>(s: set<T>, x: T)
    requires x !in s
    ensures multiset(s + {x}) == multiset(s) + multiset{x}
  {
  }

  lemma CreateKeepsConservation(n: Notifications, k: Key)
    requires ClosesExist(n) && Conserved(n) && k !in n.handlers
    ensures var n' := Create(n, k).0;
            ClosesExist(n') && Conserved(n')
  {
    var n' := Create(n, k).0;
    assert ClosedKeys(n') == ClosedKeys(n);
    hide ClosedKeys;
    assert n'.handlers.Keys == n.handlers.Keys + {k};
    MultisetOfInsert(n.handlers.Keys, k);
  }

  lemma CreateKeepsChannels(n: Notifications, k: Key)
    requires ChannelsInv(n)
    ensures ChannelsInv(Create(n, k).0)
    ensures var (n', c) := Create(n, k);
            k in n'.handlers && n'.handlers[k] == c
  {
    if k !in n.handlers {
      CreateKeepsConservation(n, k);
      hide Conserved;
    }
  }

  lemma BroadcastKeepsConservation(n: Notifications, k: Key)
    requires ClosesExist(n) && Conserved(n)
    requires k in n.handlers && n.handlers[k] < |n.created| && n.created[n.handlers[k]] == k
    ensures var n' := Broadcast(n, k);
            ClosesExist(n') && Conserved(n')
  {
    var n' := Broadcast(n, k);
    assert ClosedKeys(n') == ClosedKeys(n) + [k];
    hide ClosedKeys;
    var rest := n.handlers.Keys - {k};
    assert n'.handlers.Keys == rest && n.handlers.Keys == rest + {k};
    MultisetOfInsert(rest, k);
    assert multiset(ClosedKeys(n) + [k]) == multiset(ClosedKeys(n)) + multiset{k};
  }

  lemma BroadcastKeepsAccounts(n: Notifications, k: Key)
    requires Accounted(n) && k in n.handlers
    ensures Accounted(Broadcast(n, k))
  {
    var n' := Broadcast(n, k);
    assert n'.closeLog[|n.closeLog|] == n.handlers[k];
    forall c | 0 <= c < |n.created|
      ensures c in n'.closeLog || (n'.created[c] in n'.handlers && n'.handlers[n'.created[c]] == c)
    {
      if c in n.closeLog {
        assert c in n'.closeLog;
      }
    }
  }

  lemma BroadcastKeepsOpen(n: Notifications, k: Key)
    requires HandlersOpen(n) && NoDuplicates(n.closeLog) && k in n.handlers
    ensures HandlersOpen(Broadcast(n, k)) && NoDuplicates(Broadcast(n, k).closeLog)
  {
  }

  lemma BroadcastKeepsChannels(n: Notifications, k: Key)
    requires ChannelsInv(n)
    ensures ChannelsInv(Broadcast(n, k))
  {
    if k in n.handlers {
      BroadcastKeepsConservation(n, k);
      BroadcastKeepsAccounts(n, k);
      BroadcastKeepsOpen(n, k);
      hide Conserved, Accounted, HandlersOpen, NoDuplicates;
    }
  }

  /** Broadcasting a key closes every channel made for it that was still open. */
  lemma BroadcastClosesAll(n: Notifications, k: Key, c: Chan)
    requires ChannelsInv(n) && c < |n.created| && n.created[c] == k
    ensures c in Broadcast(n, k).closeLog
  {
    if k in n.handlers {
      assert Broadcast(n, k).closeLog[|n.closeLog|] == n.handlers[k];
    }
  }

  /** Every operation, in every state, keeps the invariant. */
  lemma ApplyKeepsInv(s: State, op: Op)
    requires Inv(s)
    ensures Inv(Apply(s, op))
  {
    match op
    case GetSA(req) => CreateKeepsChannels(s.n, CacheKey(req));
    case SetSA(k, _) => BroadcastKeepsChannels(s.n, k);
    case _ =>
  }

  /** Every reachable state satisfies the invariant. */
  lemma {:induction false} ReachableInv(ops: seq<Op>)
    ensures Inv(ApplyAll(EMPTY, ops))
  {
    if ops == [] {
      assert ClosedKeys(EMPTY.n) == [];
    } else {
      ReachableInv(ops[..|ops| - 1]);
      ApplyKeepsInv(ApplyAll(EMPTY, ops[..|ops| - 1]), ops[|ops| - 1]);
    }
  }

  // ---------------------------------------------------------------- consequences

  /** Inserting a key closes every channel ever handed out for it: no waiter is left behind. */
  lemma InsertReleasesEveryWaiter(ops: seq<Op>, k: Key, e: Entry)
    ensures var s := Apply(ApplyAll(EMPTY, ops), SetSA(k, e));
            k in s.saCache && forall c | 0 <= c < |s.n.created| && s.n.created[c] == k :: c in s.n.closeLog
  {
    ReachableInv(ops);
    var s := ApplyAll(EMPTY, ops);
    forall c | 0 <= c < |s.n.created| && s.n.created[c] == k ensures c in Broadcast(s.n, k).closeLog {
      BroadcastClosesAll(s.n, k, c);
    }
  }

  /**
   A not-found answer to a notifying request carries a channel that is open and registered under the
   request's key in the state the request leaves behind.
   */
  lemma NotFoundCarriesNotifier(ops: seq<Op>, req: Request)
    requires req.notify
    requires !GetResponse(ApplyAll(EMPTY, ops), req).found
    ensures var s' := Apply(ApplyAll(EMPTY, ops), GetSA(req));
            var notifier := GetResponse(ApplyAll(EMPTY, ops), req).notifier;
            && notifier.Some? && notifier.value !in s'.n.closeLog
            && CacheKey(req) in s'.n.handlers && s'.n.handlers[CacheKey(req)] == notifier.value
  {
    var s := ApplyAll(EMPTY, ops);
    ReachableInv(ops);
    CreateKeepsChannels(s.n, CacheKey(req));
  }

  /** The response repeats all of an entry. */
  predicate Carries(r: Response, e: Entry) {
    && r.roleArn == e.roleArn && r.audience == e.audience
    && r.useRegionalSTS == e.useRegionalSTS && r.tokenExpiration == e.tokenExpiration
  }

  /** The ConfigMap never decides for an account whose annotation names a role. */
  lemma Precedence(s: State, req: Request)
    ensures
      var r := GetResponse(s, req);
      var k := CacheKey(req);
      var annotated := k in s.saCache && s.saCache[k].roleArn != "";
      && (annotated ==> Carries(r, s.saCache[k]))
      && (!annotated && k in s.cmCache ==> Carries(r, s.cmCache[k]))
      && (!annotated && k !in s.cmCache && WildcardKey(req) in s.cmCache ==> Carries(r, s.cmCache[WildcardKey(req)]))
      && (!annotated && k !in s.cmCache && WildcardKey(req) !in s.cmCache ==> r.roleArn == "")
      && (r.found <==> k in s.saCache || k in s.cmCache || WildcardKey(req) in s.cmCache)
      && (r.notifier.Some? <==> req.notify && k !in s.saCache)
  {
  }

  /**
   Both lookups give a pod the same settings unless they stop at different entries: a cached account
   without a role shadows the ConfigMap only for `GetCommonConfigurations`, which then gives the
   account's own settings, and only `Get` tries `*`, where the other gives the defaults.
   */
  lemma CommonAgreesWithGet(s: State, req: Request)
    ensures
      var k := CacheKey(req);
      var r := GetResponse(s, req);
      var common := CommonConfigurations(s, req.name, req.namespace);
      if k in s.saCache && s.saCache[k].roleArn == ""
      then common == (s.saCache[k].useRegionalSTS, s.saCache[k].tokenExpiration)
      else if k !in s.saCache && k !in s.cmCache then common == (false, 86400)
      else common == (r.useRegionalSTS, r.tokenExpiration)
  {
    assert CacheKey(Request(req.name, req.namespace, false)) == CacheKey(req);
  }

  ghost predicate Removes(op: Op, k: Key) {
    op == PopSA(k) || op == Clear
  }

  lemma {:induction false} StaysCached(s: State, ops: seq<Op>, k: Key)
    requires k in s.saCache
    requires forall op | op in ops :: !Removes(op, k)
    ensures k in ApplyAll(s, ops).saCache
  {
    if ops != [] {
      StaysCached(s, ops[..|ops| - 1], k);
      assert ops[|ops| - 1] in ops;
    }
  }

  lemma {:induction false} ApplyAllSplit(s: State, a: seq<Op>, b: seq<Op>)
    ensures ApplyAll(s, a + b) == ApplyAll(ApplyAll(s, a), b)
  {
    if b == [] {
      assert a + b == a;
    } else {
      var b' := b[..|b| - 1];
      assert (a + b)[..|a + b| - 1] == a + b';
      ApplyAllSplit(s, a, b');
    }
  }

  lemma {:induction false} InsertedStays(ops: seq<Op>, i: nat, k: Key)
    requires i < |ops| && ops[i].SetSA? && ops[i].key == k
    requires forall op | op in ops[i + 1..] :: !Removes(op, k)
    ensures k in ApplyAll(EMPTY, ops).saCache
  {
    var upTo, after := ops[..i + 1], ops[i + 1..];
    assert upTo[..i] == ops[..i];
    assert k in ApplyAll(EMPTY, upTo).saCache;
    assert ops == upTo + after;
    ApplyAllSplit(EMPTY, upTo, after);
    StaysCached(ApplyAll(EMPTY, upTo), after, k);
  }

  /** Channels are never forgotten, and only the insertion of its key closes one. */
  lemma StepCloses(s: State, op: Op, c: Chan)
    requires Inv(s)
    ensures s.n.created <= Apply(s, op).n.created && s.n.closeLog <= Apply(s, op).n.closeLog
    ensures c in s.n.closeLog ==> c < |s.n.created|
    ensures c in Apply(s, op).n.closeLog && c !in s.n.closeLog ==>
              op.SetSA? && c < |s.n.created| && s.n.created[c] == op.key
  {
  }

  /**
   A closed channel was closed by the insertion of the key it was made for. The witness splits the
   run at that insertion.
   */
  lemma {:induction false} ClosedByInsertion(ops: seq<Op>, c: Chan) returns (i: nat)
    requires c in ApplyAll(EMPTY, ops).n.closeLog
    ensures i < |ops| && c < |ApplyAll(EMPTY, ops).n.created|
    ensures ops[i].SetSA? && ops[i].key == ApplyAll(EMPTY, ops).n.created[c]
    ensures c !in ApplyAll(EMPTY, ops[..i]).n.closeLog
    ensures c in ApplyAll(EMPTY, ops[..i + 1]).n.closeLog
  {
    hide Apply, Inv;
    var front, last := ops[..|ops| - 1], ops[|ops| - 1];
    ReachableInv(front);
    StepCloses(ApplyAll(EMPTY, front), last, c);
    if c in ApplyAll(EMPTY, front).n.closeLog {
      i := ClosedByInsertion(front, c);
      assert front[..i] == ops[..i] && front[..i + 1] == ops[..i + 1];
    } else {
      i := |ops| - 1;
      assert ops[..i + 1] == ops;
    }
  }

  /**
   Wake implies found. If a getter sees its channel closed and the key was not removed after the
   insertion that closed it, a lookup of the key succeeds - so the getter's second `Get` reports
   "found in cache".
   */
  lemma {:induction false} WakeImpliesFound(ops: seq<Op>, c: Chan, req: Request) returns (i: nat)
    requires c in ApplyAll(EMPTY, ops).n.closeLog
    requires c < |ApplyAll(EMPTY, ops).n.created| && ApplyAll(EMPTY, ops).n.created[c] == CacheKey(req)
    ensures i < |ops| && ops[i].SetSA? && ops[i].key == CacheKey(req)
    ensures c !in ApplyAll(EMPTY, ops[..i]).n.closeLog
    ensures (forall op | op in ops[i + 1..] :: !Removes(op, CacheKey(req))) ==>
              CacheKey(req) in ApplyAll(EMPTY, ops).saCache && GetResponse(ApplyAll(EMPTY, ops), req).found
  {
    i := ClosedByInsertion(ops, c);
    if forall op | op in ops[i + 1..] :: !Removes(op, CacheKey(req)) {
      InsertedStays(ops, i, CacheKey(req));
    }
  }

  /** A channel open after the request and closed at the end was closed by an operation in between. */
  lemma {:induction false} ClosedLater(ops: seq<Op>, req: Request, more: seq<Op>, c: Chan) returns (i: nat)
    requires var s := Apply(ApplyAll(EMPTY, ops), GetSA(req));
             && c !in s.n.closeLog && CacheKey(req) in s.n.handlers && s.n.handlers[CacheKey(req)] == c
    requires c in ApplyAll(EMPTY, ops + [GetSA(req)] + more).n.closeLog
    ensures i < |more| && more[i].SetSA? && more[i].key == CacheKey(req)
    ensures (forall op | op in more[i + 1..] :: !Removes(op, CacheKey(req))) ==>
              CacheKey(req) in ApplyAll(EMPTY, ops + [GetSA(req)] + more).saCache
  {
    hide Apply, CacheKey;
    var before := ops + [GetSA(req)];
    var all := before + more;
    assert before[..|ops|] == ops;
    MadeForStays(before, more, c, CacheKey(req));
    var j := ClosedByInsertion(all, c);
    if j < |before| {
      var a, b := before[..j + 1], before[j + 1..];
      assert all[..j + 1] == a;
      assert a + b == before;
      ClosedStays(a, b, c);
      assert false;
    }
    i := j - |before|;
    assert all[j + 1..] == more[i + 1..];
    if forall op | op in more[i + 1..] :: !Removes(op, CacheKey(req)) {
      InsertedStays(all, j, CacheKey(req));
    }
  }

  lemma {:induction false} ClosedStays(before: seq<Op>, after: seq<Op>, c: Chan)
    requires c in ApplyAll(EMPTY, before).n.closeLog
    ensures c in ApplyAll(EMPTY, before + after).n.closeLog
  {
    hide Apply;
    if after == [] {
      assert before + after == before;
    } else {
      var front, last := after[..|after| - 1], after[|after| - 1];
      ClosedStays(before, front, c);
      assert (before + after)[..|before + after| - 1] == before + front;
      ReachableInv(before + front);
      StepCloses(ApplyAll(EMPTY, before + front), last, c);
    }
  }

  /** The key a channel was made for never changes. */
  lemma {:induction false} MadeForStays(before: seq<Op>, after: seq<Op>, c: Chan, k: Key)
    requires var s := ApplyAll(EMPTY, before);
             k in s.n.handlers && s.n.handlers[k] == c
    ensures var n := ApplyAll(EMPTY, before + after).n;
            c < |n.created| && n.created[c] == k
  {
    ReachableInv(before);
    hide Apply;
    if after == [] {
      assert before + after == before;
    } else {
      var front, last := after[..|after| - 1], after[|after| - 1];
      MadeForStays(before, front, c, k);
      assert (before + after)[..|before + after| - 1] == before + front;
      ReachableInv(before + front);
      StepCloses(ApplyAll(EMPTY, before + front), last, c);
    }
  }

  // ---------------------------------------------------------------- one fetch only

  predicate Inserts(op: Op, k: Key) {
    op.SetSA? && op.key == k
  }

  lemma StepSendsNoMore(s: State, op: Op, k: Key)
    requires k in s.n.handlers && !Inserts(op, k)
    ensures var n := Apply(s, op).n;
            k in n.handlers && n.handlers[k] == s.n.handlers[k] && multiset(n.sent)[k] == multiset(s.n.sent)[k]
  {
  }

  /**
   A fetch that failed is not repeated: while a key stays registered - until it is inserted, whatever
   else happens and however many getters ask for it - no further request for it is sent, and every
   getter is given the same channel.
   */
  lemma {:induction false} NoSecondFetch(s: State, ops: seq<Op>, k: Key)
    requires k in s.n.handlers
    requires forall i | 0 <= i < |ops| :: !Inserts(ops[i], k)
    ensures var n := ApplyAll(s, ops).n;
            k in n.handlers && n.handlers[k] == s.n.handlers[k] && multiset(n.sent)[k] == multiset(s.n.sent)[k]
  {
    hide Apply, Inserts;
    if ops != [] {
      var front, last := ops[..|ops| - 1], ops[|ops| - 1];
      NoSecondFetch(s, front, k);
      StepSendsNoMore(ApplyAll(s, front), last, k);
    }
  }

  // ---------------------------------------------------------------- the operations of one kind

  /** The operations of a run that are of a given kind, in order. */
  function Select(ops: seq<Op>, mine: Op -> bool): seq<Op> {
    if ops == [] then []
    else
      var last := ops[|ops| - 1];
      Select(ops[..|ops| - 1], mine) + (if mine(last) then [last] else [])
  }

  lemma {:induction false} SelectConcat(a: seq<Op>, b: seq<Op>, mine: Op -> bool)
    ensures Select(a + b, mine) == Select(a, mine) + Select(b, mine)
  {
    if b == [] {
      assert a + b == a;
    } else {
      assert (a + b)[..|a + b| - 1] == a + b[..|b| - 1];
      SelectConcat(a, b[..|b| - 1], mine);
    }
  }

  lemma SelectOne(op: Op, mine: Op -> bool)
    ensures Select([op], mine) == if mine(op) then [op] else []
  {
    assert [op][..0] == [];
  }
}
