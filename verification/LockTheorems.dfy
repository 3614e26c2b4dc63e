/**
 What holds over every interleaving of the lock-level machine: the wake-up guarantees, one close and
 one fetch per registration, freedom from deadlock, and a bound on how long the goroutines can run.
 */
module LockTheorems {
  import opened Common
  import opened Registry
  import opened LockProtocol

  // ---------------------------------------------------------------- runs

  ghost predicate IsRun(s: Machine, actions: seq<Action>)
    decreases |actions|
  {
    actions == [] || (Enabled(s, actions[0]) && IsRun(Next(s, actions[0]), actions[1..]))
  }

  ghost function Final(s: Machine, actions: seq<Action>): Machine
    requires IsRun(s, actions)
    decreases |actions|
  {
    if actions == [] then s else Final(Next(s, actions[0]), actions[1..])
  }

  /** The atomic operations a run performs, in order. */
  ghost function Effects(s: Machine, actions: seq<Action>): seq<Op>
    requires IsRun(s, actions)
    decreases |actions|
  {
    if actions == [] then []
    else
      var rest := Effects(Next(s, actions[0]), actions[1..]);
      if Effect(s, actions[0]).Some? then [Effect(s, actions[0]).value] + rest else rest
  }

  lemma {:induction false} RunKeepsInv(s: Machine, actions: seq<Action>)
    requires LockProtocol.Inv(s) && IsRun(s, actions)
    ensures LockProtocol.Inv(Final(s, actions))
    decreases |actions|
  {
    hide LockProtocol.Inv, Next;
    if actions != [] {
      StepKeepsInv(s, actions[0]);
      RunKeepsInv(Next(s, actions[0]), actions[1..]);
    }
  }

  lemma {:induction false} ApplyAllCons(s: State, op: Op, ops: seq<Op>)
    ensures ApplyAll(s, [op] + ops) == ApplyAll(Apply(s, op), ops)
  {
    ApplyAllSplit(s, [op], ops);
    assert [op][..0] == [];
  }

  /** Every interleaving is a run of atomic operations: the locks make each operation indivisible. */
  lemma {:induction false} RunRefinesAtomic(s: Machine, actions: seq<Action>)
    requires LockProtocol.Inv(s) && IsRun(s, actions)
    ensures Abs(Final(s, actions)) == ApplyAll(Abs(s), Effects(s, actions))
    decreases |actions|
  {
    hide LockProtocol.Inv, Next, Abs, Effect, Apply;
    if actions != [] {
      var a := actions[0];
      StepKeepsInv(s, a);
      StepRefines(s, a);
      RunRefinesAtomic(Next(s, a), actions[1..]);
      if Effect(s, a).Some? {
        ApplyAllCons(Abs(s), Effect(s, a).value, Effects(Next(s, a), actions[1..]));
      }
    }
  }

  lemma InitInv()
    ensures LockProtocol.Inv(INIT) && Abs(INIT) == EMPTY
  {
    assert ClosedKeys(EMPTY.n) == [];
  }

  ghost predicate Reachable(s: Machine) {
    exists actions :: IsRun(INIT, actions) && Final(INIT, actions) == s
  }

  lemma ReachableInv(s: Machine)
    requires Reachable(s)
    ensures LockProtocol.Inv(s)
  {
    var actions :| IsRun(INIT, actions) && Final(INIT, actions) == s;
    InitInv();
    RunKeepsInv(INIT, actions);
  }

  // ---------------------------------------------------------------- wake-ups

  /** The notifier a goroutine carries, with the request it belongs to. */
  function Carried(p: Proc): Option<(Request, Chan)> {
    match p
    case GetSending(req, c) => Some((req, c))
    case GetUnlockNotify(req, c) => Some((req, c))
    case GetUnlockRead(req, _, Some(c)) => Some((req, c))
    case CmWantRead(req, _, Some(c), _) => Some((req, c))
    case CmReading(req, _, Some(c), _) => Some((req, c))
    case CmUnlockRead(req, _, Some(c), _, _) => Some((req, c))
    case Waiting(req, Some(c)) => Some((req, c))
    case _ => None
  }

  /**
   No lost wakeup. In every reachable state a key is registered and cached at once only while the
   writer that inserted it is on its way to broadcast it; a notifier handed to a getter is closed or
   is the channel registered under that getter's key; and a getter never waits without a notifier.
   */
  lemma NoLostWakeup(s: Machine)
    requires Reachable(s)
    ensures forall k | k in s.shared.n.handlers && k in s.shared.saCache :: PendingBroadcast(s) == Some(k)
    ensures forall t | 0 <= t < |s.procs| && Carried(s.procs[t]).Some? ::
              var (req, c) := Carried(s.procs[t]).value;
              || c in s.shared.n.closeLog
              || (CacheKey(req) in s.shared.n.handlers && s.shared.n.handlers[CacheKey(req)] == c)
    ensures forall t | 0 <= t < |s.procs| && s.procs[t].Waiting? :: s.procs[t].notifier.Some?
  {
    ReachableInv(s);
    forall t | 0 <= t < |s.procs| && Carried(s.procs[t]).Some?
      ensures var (req, c) := Carried(s.procs[t]).value;
              || c in s.shared.n.closeLog
              || (CacheKey(req) in s.shared.n.handlers && s.shared.n.handlers[CacheKey(req)] == c)
    {
      CarriedIsLive(s, t);
    }
    forall t | 0 <= t < |s.procs| && s.procs[t].Waiting? ensures s.procs[t].notifier.Some? {
      assert ProcOk(s, s.procs[t]);
    }
  }

  lemma CarriedIsLive(s: Machine, t: Tid)
    requires LockProtocol.Inv(s) && t < |s.procs| && Carried(s.procs[t]).Some?
    ensures var (req, c) := Carried(s.procs[t]).value;
            || c in s.shared.n.closeLog
            || (CacheKey(req) in s.shared.n.handlers && s.shared.n.handlers[CacheKey(req)] == c)
  {
    var (req, c) := Carried(s.procs[t]).value;
    assert ProcOk(s, s.procs[t]);
    assert MadeFor(s, c, CacheKey(req));
    assert Abs(s).n.created == s.shared.n.created;
  }

  /**
   No channel is closed twice, distinct keys never share one, and for every key the fetch requests
   sent are its closed channels plus the one still registered - counting the request that a getter
   holding both locks is about to send.
   */
  lemma CloseOnceAndFetchConservation(s: Machine)
    requires Reachable(s)
    ensures NoDuplicates(s.shared.n.closeLog)
    ensures forall k, l | k in s.shared.n.handlers && l in s.shared.n.handlers && k != l ::
              s.shared.n.handlers[k] != s.shared.n.handlers[l]
    ensures ClosesExist(s.shared.n)
    ensures multiset(s.shared.n.sent) + (if PendingSend(s).Some? then multiset{PendingSend(s).value} else multiset{})
            == multiset(ClosedKeys(s.shared.n)) + multiset(s.shared.n.handlers.Keys)
  {
    ReachableInv(s);
    assert ClosedKeys(Sent(s)) == ClosedKeys(s.shared.n);
  }

  /**
   A fetch that failed is not repeated: over every interleaving in which a registered key is not
   inserted, the requests for it - sent or about to be - stay as many as they were.
   */
  lemma NoSecondFetchLocked(s: Machine, actions: seq<Action>, k: Key)
    requires Reachable(s) && IsRun(s, actions)
    requires k in s.shared.n.handlers && PendingBroadcast(s) != Some(k)
    requires forall i | 0 <= i < |Effects(s, actions)| :: !Inserts(Effects(s, actions)[i], k)
    ensures var f := Final(s, actions);
            && k in f.shared.n.handlers && f.shared.n.handlers[k] == s.shared.n.handlers[k]
            && multiset(Sent(f).sent)[k] == multiset(Sent(s).sent)[k]
  {
    hide LockProtocol.Inv, Reachable, Effects, PendingBroadcast, ApplyAll, Abs, Sent, Inserts;
    ReachableInv(s);
    RunRefinesAtomic(s, actions);
    AbsRegistration(s, k);
    AbsRegistration(Final(s, actions), k);
    NoSecondFetch(Abs(s), Effects(s, actions), k);
  }

  /** A key is registered in the state the machine stands for exactly if no broadcast of it is pending. */
  lemma AbsRegistration(s: Machine, k: Key)
    ensures Abs(s).n.sent == Sent(s).sent
    ensures k in Abs(s).n.handlers <==> k in s.shared.n.handlers && PendingBroadcast(s) != Some(k)
    ensures k in Abs(s).n.handlers ==> Abs(s).n.handlers[k] == s.shared.n.handlers[k]
  {
    hide PendingBroadcast, PendingSend;
  }

  /** Every request sent reaches the consumer once and in order, and the channel never overflows. */
  lemma RequestsReachConsumer(s: Machine)
    requires Reachable(s)
    ensures |s.queue| <= 1000
    ensures |s.shared.n.sent| == |s.taken| + |s.queue|
    ensures forall i | 0 <= i < |s.taken| :: CacheKey(s.taken[i]) == s.shared.n.sent[i]
  {
    ReachableInv(s);
    forall i | 0 <= i < |s.taken| ensures CacheKey(s.taken[i]) == s.shared.n.sent[i] {
      assert (s.taken + s.queue)[i] == s.taken[i];
    }
  }

  /**
   A getter that looks its key up while some channel made for that key is closed finds it, unless the
   key was removed after the insertion that closed the channel (the operation at position `i`).
   */
  lemma WokenGetterFinds(actions: seq<Action>, t: Tid, c: Chan) returns (i: nat)
    requires IsRun(INIT, actions)
    requires var s := Final(INIT, actions);
             t < |s.procs| && s.procs[t].GetReading? && c in s.shared.n.closeLog
             && MadeFor(s, c, CacheKey(s.procs[t].req))
    ensures var s := Final(INIT, actions);
            var k := CacheKey(s.procs[t].req);
            var ops := Effects(INIT, actions);
            && i < |ops| && ops[i].SetSA? && ops[i].key == k
            && ((forall op | op in ops[i + 1..] :: !Removes(op, k)) ==>
                  && k in s.shared.saCache
                  && Next(s, Step(t)).procs[t] == GetUnlockRead(s.procs[t].req, Some(s.shared.saCache[k]), None))
  {
    var s := Final(INIT, actions);
    InitInv();
    RunKeepsInv(INIT, actions);
    RunRefinesAtomic(INIT, actions);
    ReadersSeeNoPendingBroadcast(s, t);
    i := WakeImpliesFound(Effects(INIT, actions), c, s.procs[t].req);
  }

  /** The goroutine has seen its account: it is on its way to, or at, a response that says "found". */
  predicate HasFound(p: Proc, req: Request) {
    match p
    case GetUnlockRead(r, sa, _) => r == req && sa.Some?
    case CmWantRead(r, sa, _, _) => r == req && sa.Some?
    case CmReading(r, sa, _, _) => r == req && sa.Some?
    case CmUnlockRead(r, sa, _, _, _) => r == req && sa.Some?
    case GetDone(r, response) => r == req && response.found
    case _ => false
  }

  lemma FoundStays(s: Machine, a: Action, t: Tid, req: Request)
    requires Enabled(s, a) && t < |s.procs| && HasFound(s.procs[t], req)
    ensures t < |Next(s, a).procs| && HasFound(Next(s, a).procs[t], req)
  {
    hide Apply, Register, Broadcast, CacheKey, Lookup, WildcardKey;
    if a.Step? && a.t != t {
      OthersStay(s, a.t, t);
    }
  }

  lemma {:induction false} FoundStaysAlong(s: Machine, actions: seq<Action>, t: Tid, req: Request)
    requires IsRun(s, actions) && t < |s.procs| && HasFound(s.procs[t], req)
    ensures t < |Final(s, actions).procs| && HasFound(Final(s, actions).procs[t], req)
    decreases |actions|
  {
    hide HasFound, Next;
    if actions != [] {
      FoundStays(s, actions[0], t, req);
      FoundStaysAlong(Next(s, actions[0]), actions[1..], t, req);
    }
  }

  /**
   Wake implies found, to the end of the second `Get`: however the run goes on after that lookup, the
   getter does not wait again, and when it returns its response says "found in cache" - unless the key
   was removed between the insertion at position `i` and the lookup.
   */
  lemma WokenGetterReturnsFound(actions: seq<Action>, t: Tid, c: Chan, more: seq<Action>) returns (i: nat)
    requires IsRun(INIT, actions)
    requires var s := Final(INIT, actions);
             && t < |s.procs| && s.procs[t].GetReading? && c in s.shared.n.closeLog
             && MadeFor(s, c, CacheKey(s.procs[t].req))
             && IsRun(Next(s, Step(t)), more)
    ensures var s := Final(INIT, actions);
            var req := s.procs[t].req;
            var ops := Effects(INIT, actions);
            var end := Final(Next(s, Step(t)), more);
            && i < |ops| && ops[i].SetSA? && ops[i].key == CacheKey(req)
            && ((forall op | op in ops[i + 1..] :: !Removes(op, CacheKey(req))) ==>
                  && t < |end.procs| && HasFound(end.procs[t], req)
                  && (Finished(end.procs[t]) ==> end.procs[t].GetDone? && end.procs[t].response.found))
  {
    i := WokenGetterFinds(actions, t, c);
    var s := Final(INIT, actions);
    var req := s.procs[t].req;
    var ops := Effects(INIT, actions);
    if forall op | op in ops[i + 1..] :: !Removes(op, CacheKey(req)) {
      var next := Next(s, Step(t));
      assert HasFound(next.procs[t], req);
      FoundStaysAlong(next, more, t, req);
    }
  }

  // ---------------------------------------------------------------- progress

  predicate Internal(a: Action) {
    !a.StartGet? && !a.StartWrite?
  }

  /** Nothing left to do: the fetch channel is empty and every goroutine has returned. */
  ghost predicate AllDone(s: Machine) {
    s.queue == [] && forall t | 0 <= t < |s.procs| :: Finished(s.procs[t])
  }

  /** Nothing left but handlers waiting for an account. */
  ghost predicate OnlyWaiting(s: Machine) {
    s.queue == [] && forall t | 0 <= t < |s.procs| :: Finished(s.procs[t]) || s.procs[t].Waiting?
  }

  /** The holder of the notifications lock moves, or the consumer makes room for it. */
  lemma NotifyHolderMoves(s: Machine) returns (a: Action)
    requires LockProtocol.Inv(s) && s.notifyLock.Some?
    ensures Internal(a) && !a.Timeout? && Enabled(s, a)
  {
    var u := s.notifyLock.value;
    assert ThreadLocks(s, u);
    if s.procs[u].GetSending? && |s.queue| == FETCH_CAPACITY {
      a := Consume;
    } else {
      a := Step(u);
    }
  }

  lemma HolderMoves(s: Machine, t: Tid) returns (a: Action)
    requires LockProtocol.Inv(s) && t < |s.procs| && (HoldsRead(s.procs[t]) || HoldsWrite(s.procs[t]))
    ensures Internal(a) && !a.Timeout? && Enabled(s, a)
  {
    if s.notifyLock.Some? {
      a := NotifyHolderMoves(s);
    } else {
      assert ThreadLocks(s, t);
      a := Step(t);
    }
  }

  /**
   Deadlock freedom. Whatever the locks, the writer queue and the fetch channel look like, some
   goroutine can take a step that is not a timeout unless only waiting handlers are left.
   */
  lemma SomeStepEnabled(s: Machine) returns (a: Action)
    requires Reachable(s) && !OnlyWaiting(s)
    ensures Internal(a) && !a.Timeout? && Enabled(s, a)
  {
    ReachableInv(s);
    if s.queue != [] {
      a := Consume;
    } else if s.writer.Active? {
      assert ThreadLocks(s, s.writer.t);
      a := HolderMoves(s, s.writer.t);
    } else if s.readers != {} {
      var r :| r in s.readers;
      assert ThreadLocks(s, r);
      a := HolderMoves(s, r);
    } else if s.writer.Draining? {
      assert ThreadLocks(s, s.writer.t);
      a := Step(s.writer.t);
    } else {
      var t :| 0 <= t < |s.procs| && !Finished(s.procs[t]) && !s.procs[t].Waiting?;
      assert ThreadLocks(s, t);
      a := if s.procs[t].Fetching? then FetchFails(t) else Step(t);
    }
  }

  /**
   When nothing but timeouts can happen, every handler still waiting waits for an account that really
   is not in the cache, under a channel that its insertion would close.
   */
  lemma StuckWaitersAreAbsent(s: Machine, t: Tid)
    requires Reachable(s) && t < |s.procs| && s.procs[t].Waiting?
    requires forall a | Internal(a) && !a.Timeout? :: !Enabled(s, a)
    ensures var k := CacheKey(s.procs[t].req);
            k !in s.shared.saCache && k in s.shared.n.handlers && s.procs[t].notifier == Some(s.shared.n.handlers[k])
  {
    ReachableInv(s);
    if !OnlyWaiting(s) {
      var a := SomeStepEnabled(s);
    }
    assert !Enabled(s, Step(t));
    assert ProcOk(s, s.procs[t]);
    CarriedIsLive(s, t);
    if s.writer.Active? {
      assert ThreadLocks(s, s.writer.t);
    }
  }

  function Rank(p: Proc): nat {
    match p
    case GetDone(_, _) => 0
    case GaveUp(_) => 0
    case WriteDone => 0
    case Waiting(_, _) => 10
    case CmUnlockRead(req, _, _, wild, _) => Base(req) + (if wild then 1 else 4)
    case CmReading(req, _, _, wild) => Base(req) + (if wild then 2 else 5)
    case CmWantRead(req, _, _, wild) => Base(req) + (if wild then 3 else 6)
    case GetUnlockRead(req, _, _) => Base(req) + 7
    case GetReading(req) => Base(req) + (if req.notify then 21 else 8)
    case GetWantRead(req) => Base(req) + (if req.notify then 22 else 9)
    case GetUnlockNotify(req, _) => Base(req) + 8
    case GetSending(req, _) => Base(req) + 18
    case GetCreating(req) => Base(req) + 19
    case GetWantNotify(req) => Base(req) + 20
    case WriteUnlock => 1
    case BcastUnlock(_) => 2
    case Bcasting(_) => 3
    case BcastWant(_) => 4
    case WriteHeld(_) => 5
    case WriteDraining(_) => 6
    case WriteWant(_) => 7
    case Fetching(_) => 8
  }

  /** A handler that may be woken has a second, shorter `Get` ahead of it. */
  function Base(req: Request): nat {
    if req.notify then 10 else 0
  }

  function Ranks(procs: seq<Proc>): nat {
    if procs == [] then 0 else Ranks(procs[..|procs| - 1]) + Rank(procs[|procs| - 1])
  }

  /** A queued request still owes a fetch goroutine. */
  function Work(s: Machine): nat {
    Ranks(s.procs) + 9 * |s.queue|
  }

  lemma {:induction false} RanksUpdate(procs: seq<Proc>, t: nat, p: Proc)
    requires t < |procs|
    ensures Ranks(procs[t := p]) == Ranks(procs) - Rank(procs[t]) + Rank(p)
  {
    var last := |procs| - 1;
    if t == last {
      assert procs[t := p][..last] == procs[..last];
    } else {
      assert procs[t := p][..last] == procs[..last][t := p];
      RanksUpdate(procs[..last], t, p);
    }
  }

  lemma StepMovesOne(s: Machine, t: Tid)
    requires t < |s.procs| && CanStep(s, s.procs[t])
    ensures |NextStep(s, t).procs| == |s.procs|
    ensures NextStep(s, t).procs == s.procs[t := NextStep(s, t).procs[t]]
    ensures |NextStep(s, t).queue| == |s.queue| + (if s.procs[t].GetSending? then 1 else 0)
  {
    hide Apply, Resolve, Return, Register, Broadcast, CacheKey, Lookup;
    match s.procs[t]
    case WriteHeld(op) =>
    case _ =>
  }

  predicate InGetSA(p: Proc) {
    p.GetWantRead? || p.GetReading? || p.GetWantNotify? || p.GetCreating? || p.GetSending? || p.GetUnlockNotify?
  }

  lemma GetSALowersRank(s: Machine, t: Tid)
    requires t < |s.procs| && CanStep(s, s.procs[t]) && ProcOk(s, s.procs[t]) && InGetSA(s.procs[t])
    ensures |NextStep(s, t).procs| == |s.procs|
    ensures Rank(NextStep(s, t).procs[t]) + (if s.procs[t].GetSending? then 9 else 0) < Rank(s.procs[t])
  {
    hide Register, CacheKey, Lookup, NotifierOk, MadeFor;
  }

  lemma OtherStepLowersRank(s: Machine, t: Tid)
    requires t < |s.procs| && CanStep(s, s.procs[t]) && ProcOk(s, s.procs[t]) && !InGetSA(s.procs[t])
    ensures |NextStep(s, t).procs| == |s.procs|
    ensures Rank(NextStep(s, t).procs[t]) < Rank(s.procs[t])
  {
    hide Apply, Resolve, Broadcast, CacheKey, Lookup, NotifierOk, MadeFor;
    match s.procs[t]
    case CmUnlockRead(_, _, _, _, _) =>
    case WriteHeld(_) =>
    case _ =>
  }

  lemma StepLowersRank(s: Machine, t: Tid)
    requires t < |s.procs| && CanStep(s, s.procs[t]) && ProcOk(s, s.procs[t])
    ensures |NextStep(s, t).procs| == |s.procs|
    ensures Rank(NextStep(s, t).procs[t]) + (if s.procs[t].GetSending? then 9 else 0) < Rank(s.procs[t])
  {
    hide NextStep, ProcOk, CanStep, Rank;
    if InGetSA(s.procs[t]) {
      GetSALowersRank(s, t);
    } else {
      OtherStepLowersRank(s, t);
    }
  }

  /** Every action of a goroutine already started uses up work. */
  lemma StepUsesWork(s: Machine, a: Action)
    requires LockProtocol.Inv(s) && Enabled(s, a) && Internal(a)
    ensures Work(Next(s, a)) < Work(s)
  {
    hide NextStep, LocksInv, QueueInv, ChannelsInv, Sent, Rank;
    match a
    case Step(t) =>
      assert ProcOk(s, s.procs[t]);
      StepMovesOne(s, t);
      StepLowersRank(s, t);
      RanksUpdate(s.procs, t, NextStep(s, t).procs[t]);
    case Consume =>
      assert Next(s, a).procs[..|s.procs|] == s.procs;
      assert Rank(Fetching(s.queue[0])) == 8 by { FetchRank(s.queue[0]); }
    case Timeout(t) => IdleLowersRank(s, a, t);
    case Deliver(t, _) => IdleLowersRank(s, a, t);
    case FetchFails(t) => IdleLowersRank(s, a, t);
    case _ =>
  }

  lemma FetchRank(req: Request)
    ensures Rank(Fetching(req)) == 8
  {
  }

  lemma IdleLowersRank(s: Machine, a: Action, t: Tid)
    requires Enabled(s, a)
    requires a == Timeout(t) || a == FetchFails(t) || (a.Deliver? && a.t == t)
    ensures Work(Next(s, a)) < Work(s)
  {
    RanksUpdate(s.procs, t, Next(s, a).procs[t]);
  }

  /** A run in which no new operation starts is no longer than the work it began with. */
  lemma {:induction false} RunsAreBounded(s: Machine, actions: seq<Action>)
    requires LockProtocol.Inv(s) && IsRun(s, actions)
    requires forall a | a in actions :: Internal(a)
    ensures |actions| + Work(Final(s, actions)) <= Work(s)
    decreases |actions|
  {
    hide LockProtocol.Inv, Next, Work;
    if actions != [] {
      assert actions[0] in actions;
      StepKeepsInv(s, actions[0]);
      StepUsesWork(s, actions[0]);
      RunsAreBounded(Next(s, actions[0]), actions[1..]);
    }
  }

  /**
   Every operation finishes. From a reachable state, a run of the goroutines already started that
   cannot be continued - and each such run is finite - ends with the fetch channel drained and every
   `Get`, `setSA`, `popSA`, `setCM`, `popCM` and fetch returned.
   */
  lemma MaximalRunsFinish(s: Machine, actions: seq<Action>)
    requires Reachable(s) && IsRun(s, actions)
    requires forall a | a in actions :: Internal(a)
    ensures |actions| <= Work(s)
    ensures (forall a | Internal(a) :: !Enabled(Final(s, actions), a)) ==> AllDone(Final(s, actions))
  {
    ReachableInv(s);
    RunsAreBounded(s, actions);
    var f := Final(s, actions);
    if forall a | Internal(a) :: !Enabled(f, a) {
      ReachableExtends(s, actions);
      if !OnlyWaiting(f) {
        var a := SomeStepEnabled(f);
      }
      forall t | 0 <= t < |f.procs| ensures Finished(f.procs[t]) {
        assert !Enabled(f, Timeout(t));
      }
    }
  }

  lemma {:induction false} RunConcat(s: Machine, before: seq<Action>, after: seq<Action>)
    requires IsRun(s, before) && IsRun(Final(s, before), after)
    ensures IsRun(s, before + after) && Final(s, before + after) == Final(Final(s, before), after)
    decreases |before|
  {
    hide Next;
    if before == [] {
      assert before + after == after;
    } else {
      RunConcat(Next(s, before[0]), before[1..], after);
      assert (before + after)[1..] == before[1..] + after;
    }
  }

  lemma ReachableExtends(s: Machine, actions: seq<Action>)
    requires Reachable(s) && IsRun(s, actions)
    ensures Reachable(Final(s, actions))
  {
    var before :| IsRun(INIT, before) && Final(INIT, before) == s;
    RunConcat(INIT, before, actions);
  }
}
