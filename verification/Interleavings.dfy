/**
 ConfigMap synchronisation and resync under every interleaving of the lock-level machine: the code
 releases the lock between entries, so getters, fetches and account events run in between
 (pkg/cache/cache.go:333-377, 403-436).
 */
module Interleavings {
  import opened Common
  import opened Registry
  import opened LockProtocol
  import opened LockTheorems
  import opened ConfigMapSync
  import opened ServiceAccounts

  /** No goroutine of the machine clears the cache. */
  lemma EffectIsNotClear(s: Machine, a: Action)
    requires LockProtocol.Inv(s) && Enabled(s, a)
    ensures Effect(s, a) != Some(Clear)
  {
    if a.Step? {
      assert ProcOk(s, s.procs[a.t]);
    }
  }

  lemma {:induction false} EffectsAreNotClear(s: Machine, actions: seq<Action>)
    requires LockProtocol.Inv(s) && IsRun(s, actions)
    ensures forall i | 0 <= i < |Effects(s, actions)| :: Effects(s, actions)[i] != Clear
    decreases |actions|
  {
    hide LockProtocol.Inv, Next, Effect;
    if actions != [] {
      StepKeepsInv(s, actions[0]);
      EffectIsNotClear(s, actions[0]);
      EffectsAreNotClear(Next(s, actions[0]), actions[1..]);
    }
  }

  /** The machine's maps are those of the state it stands for; only the registry lags behind. */
  lemma AbsKeepsMaps(s: Machine)
    ensures Abs(s).cmCache == s.shared.cmCache && Abs(s).saCache == s.shared.saCache
  {
  }

  lemma RunMaps(s: Machine, actions: seq<Action>)
    requires LockProtocol.Inv(s) && IsRun(s, actions)
    ensures Final(s, actions).shared.cmCache == ApplyAll(Abs(s), Effects(s, actions)).cmCache
    ensures Final(s, actions).shared.saCache == ApplyAll(Abs(s), Effects(s, actions)).saCache
  {
    hide *;
    RunRefinesAtomic(s, actions);
    AbsKeepsMaps(Final(s, actions));
  }

  // ---------------------------------------------------------------- one write at a time

  /** The goroutine is in a write of the given kind that has not taken effect. */
  predicate Pending(p: Proc, mine: Op -> bool) {
    (p.WriteWant? || p.WriteDraining? || p.WriteHeld?) && mine(p.op)
  }

  /** No write of the kind is under way. */
  ghost predicate Calm(s: Machine, mine: Op -> bool) {
    forall t | 0 <= t < |s.procs| :: !Pending(s.procs[t], mine)
  }

  /**
   The writes of the kind are made one after the other, as an informer's handler does: one starts only when
   the former has taken effect.
   */
  ghost predicate Sequential(s: Machine, actions: seq<Action>, mine: Op -> bool)
    requires IsRun(s, actions)
    decreases |actions|
  {
    actions == [] ||
    (MayHappen(s, actions[0], mine) && Sequential(Next(s, actions[0]), actions[1..], mine))
  }

  ghost predicate MayHappen(s: Machine, a: Action, mine: Op -> bool)
    requires Enabled(s, a)
  {
    Started(s, a, mine) != [] ==> Calm(s, mine)
  }

  /** The write of the kind that an action starts: a handler's call, or the insertion of a fetched account. */
  function Started(s: Machine, a: Action, mine: Op -> bool): seq<Op>
    requires Enabled(s, a)
  {
    match a
    case StartWrite(op) => if mine(op) then [op] else []
    case Deliver(t, e) =>
      var op := SetSA(CacheKey(s.procs[t].req), e);
      if mine(op) then [op] else []
    case _ => []
  }

  /** The writes of the kind that a run starts, in order. */
  ghost function Starts(s: Machine, actions: seq<Action>, mine: Op -> bool): seq<Op>
    requires IsRun(s, actions)
    decreases |actions|
  {
    if actions == [] then []
    else Started(s, actions[0], mine) + Starts(Next(s, actions[0]), actions[1..], mine)
  }

  /** `owed` is the one write of the kind that has started and not taken effect, if there is one. */
  ghost predicate Owes(s: Machine, owed: seq<Op>, mine: Op -> bool) {
    if owed == [] then Calm(s, mine)
    else |owed| == 1 && exists t :: OwedBy(s, t, owed[0], mine)
  }

  ghost predicate OwedBy(s: Machine, t: Tid, op: Op, mine: Op -> bool) {
    && t < |s.procs| && Pending(s.procs[t], mine) && s.procs[t].op == op
    && forall u | 0 <= u < |s.procs| && u != t :: !Pending(s.procs[u], mine)
  }

  /** The write of the kind that takes effect with an action, if any. */
  function Done(s: Machine, a: Action, mine: Op -> bool): seq<Op>
    requires Enabled(s, a)
  {
    if Effect(s, a).Some? && mine(Effect(s, a).value) then [Effect(s, a).value] else []
  }

  /** What a step does to the goroutine that takes it, as far as writes of the kind go. */
  lemma MoverPending(s: Machine, t: Tid, mine: Op -> bool)
    requires t < |s.procs| && CanStep(s, s.procs[t]) && forall req :: !mine(GetSA(req))
    ensures |NextStep(s, t).procs| == |s.procs|
    ensures var p, p' := s.procs[t], NextStep(s, t).procs[t];
            if Pending(p, mine) && !p.WriteHeld?
            then Pending(p', mine) && p'.op == p.op && Done(s, Step(t), mine) == []
            else !Pending(p', mine) && Done(s, Step(t), mine) == if Pending(p, mine) then [p.op] else []
  {
    hide Apply, Register, Broadcast, CacheKey, Lookup, Resolve, WildcardKey;
    match s.procs[t]
    case WriteHeld(op) =>
    case _ =>
  }

  lemma StepKeepsOwed(s: Machine, t: Tid, owed: seq<Op>, mine: Op -> bool) returns (owed': seq<Op>)
    requires t < |s.procs| && CanStep(s, s.procs[t]) && forall req :: !mine(GetSA(req))
    requires Owes(s, owed, mine)
    ensures Owes(NextStep(s, t), owed', mine) && owed == Done(s, Step(t), mine) + owed'
  {
    MoverPending(s, t, mine);
    var s' := NextStep(s, t);
    forall u | 0 <= u < |s.procs| && u != t ensures s'.procs[u] == s.procs[u] {
      OthersStay(s, t, u);
    }
    hide NextStep, CanStep, Pending, Done, Effect;
    owed' := if owed != [] && Pending(s.procs[t], mine) && s.procs[t].WriteHeld? then [] else owed;
    if owed == [] {
      assert !Pending(s.procs[t], mine);
    } else {
      var w :| OwedBy(s, w, owed[0], mine);
      if w != t {
        assert !Pending(s.procs[t], mine);
        assert OwedBy(s', w, owed[0], mine);
      } else if !s.procs[t].WriteHeld? {
        assert OwedBy(s', t, owed[0], mine);
      }
    }
  }

  /** Actions other than steps: only a start adds to what is owed. */
  lemma OtherKeepsOwed(s: Machine, a: Action, owed: seq<Op>, mine: Op -> bool) returns (owed': seq<Op>)
    requires Enabled(s, a) && !a.Step? && MayHappen(s, a, mine) && Owes(s, owed, mine)
    ensures Owes(Next(s, a), owed', mine) && owed + Started(s, a, mine) == owed'
  {
    hide CacheKey;
    var s' := Next(s, a);
    var started := Started(s, a, mine);
    var w := if a.Deliver? then a.t else |s.procs|;
    owed' := owed + started;
    forall u | 0 <= u < |s'.procs| && u != w
      ensures u < |s.procs| && (Pending(s'.procs[u], mine) <==> Pending(s.procs[u], mine))
      ensures Pending(s.procs[u], mine) ==> s'.procs[u] == s.procs[u]
    {
    }
    if started != [] {
      CalmOwesNothing(s, owed, mine);
      assert owed' == started;
      assert OwedBy(s', w, owed'[0], mine);
    } else {
      assert owed' == owed;
      assert w < |s'.procs| ==> !Pending(s'.procs[w], mine);
      if owed != [] {
        var v :| OwedBy(s, v, owed[0], mine);
        assert OwedBy(s', v, owed[0], mine);
      }
    }
  }

  lemma ActionKeepsOwed(s: Machine, a: Action, owed: seq<Op>, mine: Op -> bool) returns (owed': seq<Op>)
    requires Enabled(s, a) && MayHappen(s, a, mine) && Owes(s, owed, mine) && forall req :: !mine(GetSA(req))
    ensures Owes(Next(s, a), owed', mine) && owed + Started(s, a, mine) == Done(s, a, mine) + owed'
  {
    hide Owes, NextStep;
    if a.Step? {
      owed' := StepKeepsOwed(s, a.t, owed, mine);
      assert owed + [] == owed;
    } else {
      owed' := OtherKeepsOwed(s, a, owed, mine);
      assert [] + owed' == owed';
    }
  }

  lemma SelectEffects(s: Machine, actions: seq<Action>, mine: Op -> bool)
    requires IsRun(s, actions) && actions != []
    ensures Select(Effects(s, actions), mine)
            == Done(s, actions[0], mine) + Select(Effects(Next(s, actions[0]), actions[1..]), mine)
  {
    hide Next, Effect, Select;
    var rest := Effects(Next(s, actions[0]), actions[1..]);
    if Effect(s, actions[0]).Some? {
      SelectConcat([Effect(s, actions[0]).value], rest, mine);
      SelectOne(Effect(s, actions[0]).value, mine);
    } else {
      assert [] + Select(rest, mine) == Select(rest, mine);
    }
  }

  /** Writes made one after the other take effect in the order they were started; at most the last is still owed. */
  lemma {:induction false} SequentialEffects(s: Machine, actions: seq<Action>, owed: seq<Op>, mine: Op -> bool)
    returns (owed': seq<Op>)
    requires IsRun(s, actions) && Sequential(s, actions, mine) && Owes(s, owed, mine)
    requires forall req :: !mine(GetSA(req))
    ensures Owes(Final(s, actions), owed', mine)
    ensures owed + Starts(s, actions, mine) == Select(Effects(s, actions), mine) + owed'
    decreases |actions|
  {
    hide Owes, Next, MayHappen, Started, Done;
    if actions == [] {
      owed' := owed;
      assert owed + [] == [] + owed;
    } else {
      var a, rest := actions[0], actions[1..];
      var mid := ActionKeepsOwed(s, a, owed, mine);
      owed' := SequentialEffects(Next(s, a), rest, mid, mine);
      SelectEffects(s, actions, mine);
      var done, later := Done(s, a, mine), Select(Effects(Next(s, a), rest), mine);
      var started, starts := Started(s, a, mine), Starts(Next(s, a), rest, mine);
      assert owed + (started + starts) == (owed + started) + starts;
      assert (done + mid) + starts == done + (mid + starts);
      assert done + (later + owed') == (done + later) + owed';
    }
  }

  /** So from a calm state the effects are a prefix of the starts, and all of them once it is calm again. */
  lemma EffectsFollowStarts(s: Machine, actions: seq<Action>, mine: Op -> bool)
    requires IsRun(s, actions) && Sequential(s, actions, mine) && Calm(s, mine)
    requires forall req :: !mine(GetSA(req))
    ensures Select(Effects(s, actions), mine) <= Starts(s, actions, mine)
    ensures Calm(Final(s, actions), mine) ==> Select(Effects(s, actions), mine) == Starts(s, actions, mine)
  {
    hide Select, Starts, Effects, Sequential, Calm;
    var owed := SequentialEffects(s, actions, [], mine);
    assert [] + Starts(s, actions, mine) == Starts(s, actions, mine);
    if Calm(Final(s, actions), mine) {
      CalmOwesNothing(Final(s, actions), owed, mine);
    }
  }

  lemma CalmOwesNothing(s: Machine, owed: seq<Op>, mine: Op -> bool)
    requires Calm(s, mine) && Owes(s, owed, mine)
    ensures owed == []
  {
  }

  // ---------------------------------------------------------------- no write is lost

  function One(b: bool): nat {
    if b then 1 else 0
  }

  /** How many writes of the kind are under way. */
  function PendingCount(procs: seq<Proc>, mine: Op -> bool): nat {
    if procs == [] then 0
    else PendingCount(procs[..|procs| - 1], mine) + One(Pending(procs[|procs| - 1], mine))
  }

  lemma {:induction false} PendingUpdate(procs: seq<Proc>, t: nat, p: Proc, mine: Op -> bool)
    requires t < |procs|
    ensures PendingCount(procs[t := p], mine) + One(Pending(procs[t], mine)) == PendingCount(procs, mine) + One(Pending(p, mine))
  {
    hide Pending;
    var last := |procs| - 1;
    if t == last {
      assert procs[t := p][..last] == procs[..last];
    } else {
      assert procs[t := p][..last] == procs[..last][t := p];
      PendingUpdate(procs[..last], t, p, mine);
    }
  }

  lemma PendingSnoc(procs: seq<Proc>, p: Proc, mine: Op -> bool)
    ensures PendingCount(procs + [p], mine) == PendingCount(procs, mine) + One(Pending(p, mine))
  {
    assert (procs + [p])[..|procs|] == procs;
  }

  lemma StepConserves(s: Machine, t: Tid, mine: Op -> bool)
    requires t < |s.procs| && CanStep(s, s.procs[t]) && forall req :: !mine(GetSA(req))
    ensures |Done(s, Step(t), mine)| + PendingCount(NextStep(s, t).procs, mine) == PendingCount(s.procs, mine)
  {
    MoverPending(s, t, mine);
    StepMovesOne(s, t);
    hide NextStep, PendingCount, Done, Pending, CanStep;
    PendingUpdate(s.procs, t, NextStep(s, t).procs[t], mine);
  }

  lemma OtherConserves(s: Machine, a: Action, mine: Op -> bool)
    requires Enabled(s, a) && !a.Step?
    ensures PendingCount(Next(s, a).procs, mine) == PendingCount(s.procs, mine) + |Started(s, a, mine)|
  {
    hide CacheKey, PendingCount;
    if a.Consume? || a.StartGet? || a.StartWrite? {
      PendingSnoc(s.procs, Next(s, a).procs[|s.procs|], mine);
    } else {
      PendingUpdate(s.procs, a.t, Next(s, a).procs[a.t], mine);
    }
  }

  lemma ActionConserves(s: Machine, a: Action, mine: Op -> bool)
    requires Enabled(s, a) && forall req :: !mine(GetSA(req))
    ensures |Done(s, a, mine)| + PendingCount(Next(s, a).procs, mine)
            == PendingCount(s.procs, mine) + |Started(s, a, mine)|
  {
    hide PendingCount, NextStep, Done;
    if a.Step? {
      StepConserves(s, a.t, mine);
    } else {
      NoStepNothingDone(s, a, mine);
      OtherConserves(s, a, mine);
    }
  }

  lemma NoStepNothingDone(s: Machine, a: Action, mine: Op -> bool)
    requires Enabled(s, a) && !a.Step?
    ensures Done(s, a, mine) == []
  {
  }

  lemma SelectNothing(mine: Op -> bool)
    ensures Select([], mine) == []
  {
  }

  /**
   No write is lost, doubled or invented. Over every interleaving and for every kind of write - a single
   operation, say - whoever starts them and in whatever order: those that took effect and those under way
   are as many as were under way at the beginning, called by handlers or delivered by fetches.
   */
  lemma {:induction false} WritesAreConserved(s: Machine, actions: seq<Action>, mine: Op -> bool)
    requires IsRun(s, actions) && forall req :: !mine(GetSA(req))
    ensures |Select(Effects(s, actions), mine)| + PendingCount(Final(s, actions).procs, mine)
            == PendingCount(s.procs, mine) + |Starts(s, actions, mine)|
    decreases |actions|
  {
    hide Next, Started, Done, PendingCount, Select;
    if actions == [] {
      SelectNothing(mine);
    } else {
      var a := actions[0];
      WritesAreConserved(Next(s, a), actions[1..], mine);
      SelectEffects(s, actions, mine);
      ActionConserves(s, a, mine);
    }
  }

  // ---------------------------------------------------------------- fetches

  /** Where the goroutine stands that inserts `e` under `k`; once it is past its broadcast, `c` is closed. */
  predicate Inserting(s: Machine, p: Proc, k: Key, e: Entry, c: Chan) {
    match p
    case WriteWant(op) => op == SetSA(k, e)
    case WriteDraining(op) => op == SetSA(k, e)
    case WriteHeld(op) => op == SetSA(k, e)
    case BcastWant(k') => k' == k
    case Bcasting(k') => k' == k
    case BcastUnlock(_) => c in s.shared.n.closeLog
    case WriteUnlock => c in s.shared.n.closeLog
    case WriteDone => c in s.shared.n.closeLog
    case _ => false
  }

  lemma ChannelsStay(s: Machine, a: Action, c: Chan, k: Key)
    requires LockProtocol.Inv(s) && Enabled(s, a) && MadeFor(s, c, k)
    ensures MadeFor(Next(s, a), c, k)
    ensures c in s.shared.n.closeLog ==> c in Next(s, a).shared.n.closeLog
  {
    hide LocksInv, QueueInv, ChannelsInv, Sent, PendingBroadcast, CacheKey, WildcardKey, Resolve, Return, Lookup, NotifierOk;
    if a.Step? {
      assert ProcOk(s, s.procs[a.t]);
    }
  }

  lemma InsertingStep(s: Machine, t: Tid, k: Key, e: Entry, c: Chan)
    requires LockProtocol.Inv(s) && t < |s.procs| && CanStep(s, s.procs[t])
    requires Inserting(s, s.procs[t], k, e, c) && MadeFor(s, c, k)
    ensures |NextStep(s, t).procs| == |s.procs|
    ensures Inserting(NextStep(s, t), NextStep(s, t).procs[t], k, e, c)
  {
    if s.procs[t].Bcasting? {
      BroadcastClosesAll(Sent(s), k, c);
    }
    hide LocksInv, QueueInv, ChannelsInv, PendingBroadcast;
  }

  lemma {:induction false} InsertingAlong(s: Machine, actions: seq<Action>, t: Tid, k: Key, e: Entry, c: Chan)
    requires LockProtocol.Inv(s) && IsRun(s, actions) && t < |s.procs|
    requires Inserting(s, s.procs[t], k, e, c) && MadeFor(s, c, k)
    ensures t < |Final(s, actions).procs| && Inserting(Final(s, actions), Final(s, actions).procs[t], k, e, c)
    decreases |actions|
  {
    if actions != [] {
      var a := actions[0];
      StepKeepsInv(s, a);
      ChannelsStay(s, a, c, k);
      InsertingMoves(s, a, t, k, e, c);
      hide LockProtocol.Inv, Next, Inserting, MadeFor;
      InsertingAlong(Next(s, a), actions[1..], t, k, e, c);
    }
  }

  lemma InsertingMoves(s: Machine, a: Action, t: Tid, k: Key, e: Entry, c: Chan)
    requires LockProtocol.Inv(s) && Enabled(s, a) && t < |s.procs|
    requires Inserting(s, s.procs[t], k, e, c) && MadeFor(s, c, k)
    ensures t < |Next(s, a).procs| && Inserting(Next(s, a), Next(s, a).procs[t], k, e, c)
  {
    ChannelsStay(s, a, c, k);
    hide LockProtocol.Inv, NextStep, MadeFor;
    if a == Step(t) {
      InsertingStep(s, t, k, e, c);
    } else if a.Step? {
      OthersStay(s, a.t, t);
    }
  }

  /** A write under way is still under way, or has taken effect - at position `i` of the run's operations. */
  lemma {:induction false} WriterTakesEffect(s: Machine, actions: seq<Action>, t: Tid, op: Op) returns (i: nat)
    requires IsRun(s, actions) && t < |s.procs| && Pending(s.procs[t], o => o == op)
    requires !op.GetSA? && t < |Final(s, actions).procs| && Finished(Final(s, actions).procs[t])
    ensures i < |Effects(s, actions)| && Effects(s, actions)[i] == op
    decreases |actions|
  {
    if actions != [] {
      var a := actions[0];
      var next := Next(s, a);
      var own := (o: Op) => o == op;
      if a == Step(t) {
        MoverPending(s, t, own);
        if s.procs[t].WriteHeld? {
          i := 0;
          return;
        }
      } else if a.Step? {
        OthersStay(s, a.t, t);
      }
      assert t < |next.procs| && Pending(next.procs[t], own);
      hide Next, Pending;
      var j := WriterTakesEffect(next, actions[1..], t, op);
      i := if Effect(s, a).Some? then j + 1 else j;
    }
  }

  /** An inserted key is cached unless it is removed afterwards. */
  lemma InsertedFrom(s: State, ops: seq<Op>, i: nat, k: Key, e: Entry)
    requires i < |ops| && ops[i] == SetSA(k, e)
    requires forall op | op in ops[i + 1..] :: !Removes(op, k)
    ensures k in ApplyAll(s, ops).saCache
  {
    var upTo, after := ops[..i + 1], ops[i + 1..];
    assert upTo[..i] == ops[..i];
    assert k in ApplyAll(s, upTo).saCache;
    assert ops == upTo + after;
    ApplyAllSplit(s, upTo, after);
    StaysCached(ApplyAll(s, upTo), after, k);
  }

  lemma DeliveryStarts(s: Machine, t: Tid, e: Entry)
    requires LockProtocol.Inv(s) && Enabled(s, Deliver(t, e))
    ensures var next, op := Next(s, Deliver(t, e)), SetSA(CacheKey(s.procs[t].req), e);
            && LockProtocol.Inv(next) && next.shared == s.shared
            && |next.procs| == |s.procs| && next.procs[t] == WriteWant(op) && Pending(next.procs[t], o => o == op)
  {
    StepKeepsInv(s, Deliver(t, e));
    hide LockProtocol.Inv, CacheKey;
  }

  lemma DeliveryCloses(s: Machine, t: Tid, e: Entry, more: seq<Action>, c: Chan)
    requires LockProtocol.Inv(s) && Enabled(s, Deliver(t, e)) && IsRun(Next(s, Deliver(t, e)), more)
    requires c < |s.shared.n.created| && s.shared.n.created[c] == CacheKey(s.procs[t].req)
    requires var end := Final(Next(s, Deliver(t, e)), more);
             t < |end.procs| && Finished(end.procs[t])
    ensures c in Final(Next(s, Deliver(t, e)), more).shared.n.closeLog
  {
    hide LockProtocol.Inv, CacheKey, IsRun, Final, Next;
    DeliveryStarts(s, t, e);
    InsertingAlong(Next(s, Deliver(t, e)), more, t, CacheKey(s.procs[t].req), e, c);
  }

  /**
   A delivered account arrives. Once the goroutine of a successful fetch has finished, the account's
   insertion is among the operations of the run, every channel that was handed out for its key before
   the delivery is closed, and the key is cached unless it was removed since.
   */
  lemma DeliveredAccountArrives(s: Machine, t: Tid, e: Entry, more: seq<Action>) returns (i: nat)
    requires Reachable(s) && Enabled(s, Deliver(t, e)) && IsRun(Next(s, Deliver(t, e)), more)
    requires var end := Final(Next(s, Deliver(t, e)), more);
             t < |end.procs| && Finished(end.procs[t])
    ensures
      var k := CacheKey(s.procs[t].req);
      var end, ops := Final(Next(s, Deliver(t, e)), more), Effects(Next(s, Deliver(t, e)), more);
      && i < |ops| && ops[i] == SetSA(k, e)
      && (forall c | 0 <= c < |s.shared.n.created| && s.shared.n.created[c] == k :: c in end.shared.n.closeLog)
      && ((forall op | op in ops[i + 1..] :: !Removes(op, k)) ==> k in end.shared.saCache)
  {
    var k := CacheKey(s.procs[t].req);
    hide *;
    var next := Next(s, Deliver(t, e));
    LockTheorems.ReachableInv(s);
    DeliveryStarts(s, t, e);
    i := WriterTakesEffect(next, more, t, SetSA(k, e));
    forall c | 0 <= c < |s.shared.n.created| && s.shared.n.created[c] == k ensures c in Final(next, more).shared.n.closeLog {
      DeliveryCloses(s, t, e, more, c);
    }
    var ops := Effects(next, more);
    if forall op | op in ops[i + 1..] :: !Removes(op, k) {
      RunMaps(next, more);
      InsertedFrom(Abs(next), ops, i, k, e);
    }
  }

  /** A failed fetch changes nothing and is over. */
  lemma FailedFetchChangesNothing(s: Machine, t: Tid)
    requires Reachable(s) && Enabled(s, FetchFails(t))
    ensures var s' := Next(s, FetchFails(t));
            Abs(s') == Abs(s) && s'.shared == s.shared && Finished(s'.procs[t]) && s'.queue == s.queue
  {
    LockTheorems.ReachableInv(s);
    OtherActionRefines(s, FetchFails(t));
  }

  /** How many fetches of a request ended in the run, delivered or failed. */
  ghost function Fetched(s: Machine, actions: seq<Action>, req: Request): nat
    requires IsRun(s, actions)
    decreases |actions|
  {
    if actions == [] then 0
    else Ended(s, actions[0], req) + Fetched(Next(s, actions[0]), actions[1..], req)
  }

  function Ended(s: Machine, a: Action, req: Request): nat
    requires Enabled(s, a)
  {
    One((a.Deliver? || a.FetchFails?) && s.procs[a.t].req == req)
  }

  /** How many fetches of a request are under way. */
  function FetchCount(procs: seq<Proc>, req: Request): nat {
    if procs == [] then 0 else FetchCount(procs[..|procs| - 1], req) + One(procs[|procs| - 1] == Fetching(req))
  }

  lemma {:induction false} FetchUpdate(procs: seq<Proc>, t: nat, p: Proc, req: Request)
    requires t < |procs|
    ensures FetchCount(procs[t := p], req) + One(procs[t] == Fetching(req)) == FetchCount(procs, req) + One(p == Fetching(req))
  {
    var last := |procs| - 1;
    if t == last {
      assert procs[t := p][..last] == procs[..last];
    } else {
      assert procs[t := p][..last] == procs[..last][t := p];
      FetchUpdate(procs[..last], t, p, req);
    }
  }

  lemma FetchSnoc(procs: seq<Proc>, p: Proc, req: Request)
    ensures FetchCount(procs + [p], req) == FetchCount(procs, req) + One(p == Fetching(req))
  {
    assert (procs + [p])[..|procs|] == procs;
  }

  lemma StepFetchesNothing(s: Machine, t: Tid)
    requires t < |s.procs| && CanStep(s, s.procs[t])
    ensures |NextStep(s, t).procs| == |s.procs| && NextStep(s, t).taken == s.taken
    ensures !s.procs[t].Fetching? && !NextStep(s, t).procs[t].Fetching?
  {
    hide Apply, Resolve, Register, Broadcast, CacheKey, WildcardKey, Lookup;
    match s.procs[t]
    case WriteHeld(op) =>
    case CmUnlockRead(_, _, _, _, _) =>
    case _ =>
  }

  lemma ActionKeepsFetches(s: Machine, a: Action, req: Request)
    requires Enabled(s, a)
    ensures multiset(Next(s, a).taken)[req] + FetchCount(s.procs, req)
            == multiset(s.taken)[req] + FetchCount(Next(s, a).procs, req) + Ended(s, a, req)
  {
    hide FetchCount, CacheKey, NextStep, CanStep;
    var s' := Next(s, a);
    if a.Step? {
      StepFetchesNothing(s, a.t);
      StepMovesOne(s, a.t);
      FetchUpdate(s.procs, a.t, s'.procs[a.t], req);
    } else if a.Consume? || a.StartGet? || a.StartWrite? {
      FetchSnoc(s.procs, s'.procs[|s.procs|], req);
    } else {
      FetchUpdate(s.procs, a.t, s'.procs[a.t], req);
    }
  }

  /** Every request the consumer takes is being fetched, or its one fetch has ended. */
  lemma {:induction false} FetchesAreAccounted(s: Machine, actions: seq<Action>, req: Request)
    requires IsRun(s, actions)
    ensures var f := Final(s, actions);
            multiset(f.taken)[req] + FetchCount(s.procs, req)
            == multiset(s.taken)[req] + FetchCount(f.procs, req) + Fetched(s, actions, req)
    decreases |actions|
  {
    hide Next, FetchCount, Ended;
    if actions != [] {
      ActionKeepsFetches(s, actions[0], req);
      FetchesAreAccounted(Next(s, actions[0]), actions[1..], req);
    }
  }

  // ---------------------------------------------------------------- the informer's events

  /**
   Interruption under concurrency. At every point of every interleaving in which the ConfigMap handler
   has begun an update, call by call, every key is between its old and its new entry.
   */
  lemma LockedMidUpdate(s: Machine, actions: seq<Action>, was: Config, now: Config, ks: seq<Key>, ds: seq<Key>,
                        k: Key, default: int)
    requires Reachable(s) && IsRun(s, actions) && Calm(s, WritesConfig) && Sequential(s, actions, WritesConfig)
    requires WellFormed(was) && WellFormed(now)
    requires Lists(ks, now.Keys) && Lists(ds, was.Keys - now.Keys)
    requires AllUsable(now, ks) && AllSlashed(ds)
    requires Starts(s, actions, WritesConfig) <= Sets(now, ks, default) + Pops(ds)
    ensures Between(s.shared.cmCache, Final(s, actions).shared.cmCache, was, now, k, default)
  {
    hide LockProtocol.Inv, Effects, Select, ApplyAll, Reachable, Abs, Sets, Pops, Starts, Sequential, Calm;
    LockTheorems.ReachableInv(s);
    AbsKeepsMaps(s);
    RunMaps(s, actions);
    EffectsAreNotClear(s, actions);
    EffectsFollowStarts(s, actions, WritesConfig);
    PrefixOfPrefix(CmOps(Effects(s, actions)), Starts(s, actions, WritesConfig), Sets(now, ks, default) + Pops(ds));
    MidUpdate(Abs(s), Effects(s, actions), was, now, ks, ds, k, default);
  }

  lemma PrefixOfPrefix<T>(a: seq<T>, b: seq<T>, c: seq<T>)
    requires a <= b <= c
    ensures a <= c
  {
  }

  /**
   Synchronisation under concurrency. Over every interleaving from the start in which the ConfigMap
   handler makes the calls of a chain of events one after the other, once they have taken effect the
   cache is what the chain says; so it is the latest config that parsed exactly if no key was left
   behind.
   */
  lemma LockedSync(actions: seq<Action>, events: seq<Event>, default: int)
    requires IsRun(INIT, actions) && Sequential(INIT, actions, WritesConfig) && WellFormedChain(events)
    requires IsChainScript(events, default, Starts(INIT, actions, WritesConfig))
    requires Calm(Final(INIT, actions), WritesConfig)
    ensures Final(INIT, actions).shared.cmCache == ChainCache(events, default)
    ensures Final(INIT, actions).shared.cmCache == Rebuild(Latest(events), default) <==>
              forall k :: !IsLeftBehind(events, k)
  {
    InitInv();
    InitCalm(WritesConfig);
    hide LockProtocol.Inv, Effects, Select, ApplyAll, Abs, IsChainScript, WellFormedChain, ChainCache, Rebuild, Latest,
      Starts, Sequential, Calm;
    RunMaps(INIT, actions);
    EffectsAreNotClear(INIT, actions);
    EffectsFollowStarts(INIT, actions, WritesConfig);
    RunSyncs(Effects(INIT, actions), events, default);
    SyncRefinesRebuild(events, default);
  }

  lemma InitCalm(mine: Op -> bool)
    ensures Calm(INIT, mine)
  {
  }

  /**
   Resync heals under concurrency. From any reachable state with no account write under way, an
   interleaving whose account writes are a full pass over the informer's store, made call by call, leaves
   every stored account as its annotations say once the calls have taken effect.
   */
  lemma LockedResyncHeals(cfg: Settings, s: Machine, actions: seq<Action>, store: seq<ServiceAccount>, i: nat)
    requires Reachable(s) && IsRun(s, actions) && i < |store|
    requires Calm(s, WritesAccounts) && Sequential(s, actions, WritesAccounts) && Calm(Final(s, actions), WritesAccounts)
    requires forall j, k | 0 <= j < k < |store| :: KeyOf(store[j]) != KeyOf(store[k])
    requires Starts(s, actions, WritesAccounts) == Pass(cfg, store)
    ensures var healed := Final(s, actions).shared.saCache;
            KeyOf(store[i]) in healed && healed[KeyOf(store[i])] == EntryOf(cfg, store[i])
  {
    hide LockProtocol.Inv, Effects, Select, ApplyAll, Reachable, Abs, KeyOf, EntryOf, Pass, Starts, Sequential, Calm;
    LockTheorems.ReachableInv(s);
    RunMaps(s, actions);
    EffectsFollowStarts(s, actions, WritesAccounts);
    ResyncHeals(cfg, Abs(s), Effects(s, actions), store, i);
  }
}
