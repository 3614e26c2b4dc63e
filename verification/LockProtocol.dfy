/**
 The cache as the goroutines really run it: a reader/writer lock with writer preference, the
 notifications mutex nested inside it, a bounded fetch channel written while both locks are held, a
 consumer that takes neither lock, fetch goroutines, and admission handlers that wait on a notifier
 or give up (pkg/cache/cache.go, pkg/cache/notifications.go, pkg/handler/handler.go:464-486).

 Each action is one lock, unlock, map access, send, receive or close of one goroutine, so a run of
 the machine is one interleaving.
 */
module LockProtocol {
  import opened Common
  import opened Registry

  /** `make(chan *Request, 1000)`. */
  const FETCH_CAPACITY: nat := 1000

  /** Goroutines are numbered in the order they start. */
  type Tid = nat

  /** `Draining`: `Lock` has been called and keeps new readers out while current readers finish. */
  datatype WriterSlot = NoWriter | Draining(t: Tid) | Active(t: Tid)

  /** Where a goroutine stands. Comments give the locks it holds. */
  datatype Proc =
    | GetWantRead(req: Request)
    | GetReading(req: Request)                                              // R
    | GetWantNotify(req: Request)                                           // R
    | GetCreating(req: Request)                                             // R, N
    | GetSending(req: Request, chan: Chan)                                  // R, N
    | GetUnlockNotify(req: Request, chan: Chan)                             // R, N
    | GetUnlockRead(req: Request, sa: Option<Entry>, notifier: Option<Chan>)  // R
    | CmWantRead(req: Request, sa: Option<Entry>, notifier: Option<Chan>, wild: bool)
    | CmReading(req: Request, sa: Option<Entry>, notifier: Option<Chan>, wild: bool)  // R
    | CmUnlockRead(req: Request, sa: Option<Entry>, notifier: Option<Chan>, wild: bool, cm: Option<Entry>)  // R
    | Waiting(req: Request, notifier: Option<Chan>)
    | GetDone(req: Request, response: Response)
    | GaveUp(req: Request)
    | WriteWant(op: Op)
    | WriteDraining(op: Op)                                                 // announced
    | WriteHeld(op: Op)                                                     // W
    | BcastWant(key: Key)                                                   // W
    | Bcasting(key: Key)                                                    // W, N
    | BcastUnlock(key: Key)                                                 // W, N
    | WriteUnlock                                                           // W
    | WriteDone
    | Fetching(req: Request)

  /** `taken` is the history of requests the consumer has received. */
  datatype Machine = Machine(
    shared: State,
    queue: seq<Request>,
    taken: seq<Request>,
    readers: set<Tid>,
    writer: WriterSlot,
    notifyLock: Option<Tid>,
    procs: seq<Proc>
  )

  const INIT := Machine(EMPTY, [], [], {}, NoWriter, None, [])

  datatype Action =
    | Step(t: Tid)
    | Timeout(t: Tid)
    | Deliver(t: Tid, entry: Entry)
    | FetchFails(t: Tid)
    | Consume
    | StartGet(req: Request)
    | StartWrite(op: Op)

  predicate IsWrite(op: Op) {
    op.SetSA? || op.PopSA? || op.SetCM? || op.PopCM?
  }

  predicate HoldsRead(p: Proc) {
    p.GetReading? || p.GetWantNotify? || p.GetCreating? || p.GetSending? || p.GetUnlockNotify?
    || p.GetUnlockRead? || p.CmReading? || p.CmUnlockRead?
  }

  predicate HoldsWrite(p: Proc) {
    p.WriteHeld? || p.BcastWant? || p.Bcasting? || p.BcastUnlock? || p.WriteUnlock?
  }

  predicate HoldsNotify(p: Proc) {
    p.GetCreating? || p.GetSending? || p.GetUnlockNotify? || p.Bcasting? || p.BcastUnlock?
  }

  predicate Finished(p: Proc) {
    p.GetDone? || p.GaveUp? || p.WriteDone?
  }

  predicate Enabled(s: Machine, a: Action) {
    match a
    case Step(t) => t < |s.procs| && CanStep(s, s.procs[t])
    case Timeout(t) => t < |s.procs| && s.procs[t].Waiting?
    case Deliver(t, _) => t < |s.procs| && s.procs[t].Fetching?
    case FetchFails(t) => t < |s.procs| && s.procs[t].Fetching?
    case Consume => s.queue != []
    case StartGet(_) => true
    case StartWrite(op) => IsWrite(op)
  }

  predicate CanStep(s: Machine, p: Proc) {
    match p
    case GetWantRead(_) => s.writer.NoWriter?
    case CmWantRead(_, _, _, _) => s.writer.NoWriter?
    case GetWantNotify(_) => s.notifyLock.None?
    case BcastWant(_) => s.notifyLock.None?
    case GetSending(_, _) => |s.queue| < FETCH_CAPACITY
    case Waiting(_, c) => c.Some? && c.value in s.shared.n.closeLog
    case WriteWant(_) => s.writer.NoWriter?
    case WriteDraining(_) => s.readers == {}
    case GetDone(_, _) => false
    case GaveUp(_) => false
    case WriteDone => false
    case Fetching(_) => false
    case _ => true
  }

  function Goto(s: Machine, t: Tid, p: Proc): Machine
    requires t < |s.procs|
  {
    s.(procs := s.procs[t := p])
  }

  /** `Get` returns: the handler waits only if it asked for a notifier and nothing was found. */
  function Return(req: Request, response: Response): Proc {
    if req.notify && !response.found then Waiting(req, response.notifier) else GetDone(req, response)
  }

  function Next(s: Machine, a: Action): Machine
    requires Enabled(s, a)
  {
    match a
    case Step(t) => NextStep(s, t)
    case Timeout(t) => Goto(s, t, GaveUp(s.procs[t].req))
    case Deliver(t, e) => Goto(s, t, WriteWant(SetSA(CacheKey(s.procs[t].req), e)))
    case FetchFails(t) => Goto(s, t, WriteDone)
    case Consume =>
      s.(queue := s.queue[1..], taken := s.taken + [s.queue[0]], procs := s.procs + [Fetching(s.queue[0])])
    case StartGet(req) => s.(procs := s.procs + [GetWantRead(req)])
    case StartWrite(op) => s.(procs := s.procs + [WriteWant(op)])
  }

  function NextStep(s: Machine, t: Tid): Machine
    requires t < |s.procs| && CanStep(s, s.procs[t])
  {
    var n := s.shared.n;
    match s.procs[t]
    case GetWantRead(req) => Goto(s.(readers := s.readers + {t}), t, GetReading(req))
    case GetReading(req) =>
      var k := CacheKey(req);
      if k !in s.shared.saCache && req.notify then Goto(s, t, GetWantNotify(req))
      else Goto(s, t, GetUnlockRead(req, Lookup(s.shared.saCache, k), None))
    case GetWantNotify(req) => Goto(s.(notifyLock := Some(t)), t, GetCreating(req))
    case GetCreating(req) =>
      var k := CacheKey(req);
      if k in n.handlers then Goto(s, t, GetUnlockNotify(req, n.handlers[k]))
      else Goto(s.(shared := s.shared.(n := Register(n, k))), t, GetSending(req, |n.created|))
    case GetSending(req, c) =>
      Goto(s.(shared := s.shared.(n := n.(sent := n.sent + [CacheKey(req)])), queue := s.queue + [req]),
           t, GetUnlockNotify(req, c))
    case GetUnlockNotify(req, c) => Goto(s.(notifyLock := None), t, GetUnlockRead(req, None, Some(c)))
    case GetUnlockRead(req, sa, notifier) =>
      Goto(s.(readers := s.readers - {t}), t,
           if sa.Some? && sa.value.roleArn != "" then GetDone(req, FromEntry(sa.value, notifier))
           else CmWantRead(req, sa, notifier, false))
    case CmWantRead(req, sa, notifier, wild) =>
      Goto(s.(readers := s.readers + {t}), t, CmReading(req, sa, notifier, wild))
    case CmReading(req, sa, notifier, wild) =>
      var k := if wild then WildcardKey(req) else CacheKey(req);
      Goto(s, t, CmUnlockRead(req, sa, notifier, wild, Lookup(s.shared.cmCache, k)))
    case CmUnlockRead(req, sa, notifier, wild, cm) =>
      Goto(s.(readers := s.readers - {t}), t,
           if cm.None? && !wild then CmWantRead(req, sa, notifier, true)
           else Return(req, Resolve(sa, notifier, if wild then None else cm, if wild then cm else None)))
    case Waiting(req, _) => Goto(s, t, GetWantRead(req.(notify := false)))
    case WriteWant(op) => Goto(s.(writer := Draining(t)), t, WriteDraining(op))
    case WriteDraining(op) => Goto(s.(writer := Active(t)), t, WriteHeld(op))
    case WriteHeld(op) =>
      (match op
       case SetSA(k, e) => Goto(s.(shared := s.shared.(saCache := s.shared.saCache[k := e])), t, BcastWant(k))
       case _ => Goto(s.(shared := Apply(s.shared, op)), t, WriteUnlock))
    case BcastWant(k) => Goto(s.(notifyLock := Some(t)), t, Bcasting(k))
    case Bcasting(k) => Goto(s.(shared := s.shared.(n := Broadcast(n, k))), t, BcastUnlock(k))
    case BcastUnlock(_) => Goto(s.(notifyLock := None), t, WriteUnlock)
    case WriteUnlock => Goto(s.(writer := NoWriter), t, WriteDone)
  }

  // ---------------------------------------------------------------- invariant

  /** The insertion whose write has happened and whose broadcast has not. */
  function PendingBroadcast(s: Machine): Option<Key> {
    if s.writer.Active? && s.writer.t < |s.procs| then
      match s.procs[s.writer.t]
      case BcastWant(k) => Some(k)
      case Bcasting(k) => Some(k)
      case _ => None
    else None
  }

  /** The registration whose fetch request is still to be sent. */
  function PendingSend(s: Machine): Option<Key> {
    if s.notifyLock.Some? && s.notifyLock.value < |s.procs| && s.procs[s.notifyLock.value].GetSending?
    then Some(CacheKey(s.procs[s.notifyLock.value].req))
    else None
  }

  /** The registry once the pending request has been sent. */
  function Sent(s: Machine): Notifications {
    var n := s.shared.n;
    if PendingSend(s).Some? then n.(sent := n.sent + [PendingSend(s).value]) else n
  }

  /** The atomic state this state stands for: pending halves of operations count as done. */
  function Abs(s: Machine): State {
    s.shared.(n := if PendingBroadcast(s).Some? then Broadcast(Sent(s), PendingBroadcast(s).value) else Sent(s))
  }

  /** Channel `c` was made for `k`. */
  predicate MadeFor(s: Machine, c: Chan, k: Key) {
    c < |s.shared.n.created| && s.shared.n.created[c] == k
  }

  predicate NotifierOk(s: Machine, req: Request, sa: Option<Entry>, notifier: Option<Chan>) {
    && (req.notify && sa.None? ==> notifier.Some?)
    && (notifier.Some? ==> MadeFor(s, notifier.value, CacheKey(req)))
  }

  predicate ProcOk(s: Machine, p: Proc) {
    match p
    case GetWantNotify(req) => req.notify && CacheKey(req) !in s.shared.saCache
    case GetCreating(req) => req.notify && CacheKey(req) !in s.shared.saCache
    case GetSending(req, c) =>
      && req.notify && CacheKey(req) !in s.shared.saCache
      && CacheKey(req) in s.shared.n.handlers && s.shared.n.handlers[CacheKey(req)] == c
      && MadeFor(s, c, CacheKey(req))
    case GetUnlockNotify(req, c) => MadeFor(s, c, CacheKey(req))
    case GetUnlockRead(req, sa, notifier) => NotifierOk(s, req, sa, notifier)
    case CmWantRead(req, sa, notifier, _) => NotifierOk(s, req, sa, notifier)
    case CmReading(req, sa, notifier, _) => NotifierOk(s, req, sa, notifier)
    case CmUnlockRead(req, sa, notifier, _, _) => NotifierOk(s, req, sa, notifier)
    case Waiting(req, notifier) => req.notify && NotifierOk(s, req, None, notifier)
    case WriteWant(op) => IsWrite(op)
    case WriteDraining(op) => IsWrite(op)
    case WriteHeld(op) => IsWrite(op)
    case BcastWant(k) => k in s.shared.saCache
    case Bcasting(k) => k in s.shared.saCache
    case _ => true
  }

  /** The lock words agree with where goroutine `t` stands. */
  predicate ThreadLocks(s: Machine, t: Tid)
    requires t < |s.procs|
  {
    && (HoldsRead(s.procs[t]) <==> t in s.readers)
    && (HoldsWrite(s.procs[t]) <==> s.writer == Active(t))
    && (s.procs[t].WriteDraining? <==> s.writer == Draining(t))
    && (HoldsNotify(s.procs[t]) <==> s.notifyLock == Some(t))
  }

  predicate LockWords(s: Machine) {
    && (forall t | t in s.readers :: t < |s.procs|)
    && (s.writer.Draining? ==> s.writer.t < |s.procs|)
    && (s.writer.Active? ==> s.writer.t < |s.procs| && s.readers == {})
    && (s.notifyLock.Some? ==> s.notifyLock.value < |s.procs|)
  }

  ghost predicate LocksInv(s: Machine) {
    LockWords(s) && forall t | 0 <= t < |s.procs| :: ThreadLocks(s, t)
  }

  ghost predicate QueueInv(s: Machine) {
    && |s.queue| <= FETCH_CAPACITY
    && |s.shared.n.sent| == |s.taken| + |s.queue|
    && forall i | 0 <= i < |s.shared.n.sent| :: s.shared.n.sent[i] == CacheKey((s.taken + s.queue)[i])
  }

  ghost predicate Inv(s: Machine) {
    && LocksInv(s)
    && QueueInv(s)
    && (forall t | 0 <= t < |s.procs| :: ProcOk(s, s.procs[t]))
    && ChannelsInv(Sent(s))
    && (forall k | k in s.shared.n.handlers && k in s.shared.saCache :: PendingBroadcast(s) == Some(k))
  }

  // ---------------------------------------------------------------- refinement

  /** The atomic operation an action performs on the abstract state, if any. */
  function Effect(s: Machine, a: Action): Option<Op>
    requires Enabled(s, a)
  {
    if a.Step? then
      match s.procs[a.t]
      case GetReading(req) =>
        if CacheKey(req) !in s.shared.saCache && req.notify then None else Some(GetSA(req))
      case GetCreating(req) => Some(GetSA(req))
      case WriteHeld(op) => Some(op)
      case _ => None
    else None
  }

  function AbsNext(s: Machine, a: Action): State
    requires Enabled(s, a)
  {
    if Effect(s, a).Some? then Apply(Abs(s), Effect(s, a).value) else Abs(s)
  }

  /** A reader and an insertion cannot be half-way through at the same time. */
  lemma ReadersSeeNoPendingBroadcast(s: Machine, t: Tid)
    requires LocksInv(s)
    requires t < |s.procs| && HoldsRead(s.procs[t])
    ensures PendingBroadcast(s).None?
  {
    assert ThreadLocks(s, t);
  }

  lemma WritersSeeNothingPending(s: Machine, t: Tid)
    requires LocksInv(s)
    requires t < |s.procs| && s.procs[t].WriteHeld?
    ensures PendingBroadcast(s).None? && PendingSend(s).None?
  {
    assert ThreadLocks(s, t);
    if s.notifyLock.Some? {
      assert ThreadLocks(s, s.notifyLock.value);
    }
  }

  /** Steps that neither change the maps nor start or finish half an operation. */
  predicate Quiet(p: Proc) {
    !(p.GetCreating? || p.GetSending? || p.WriteHeld? || p.Bcasting?)
  }

  lemma QuietStepKeepsPending(s: Machine, t: Tid)
    requires LocksInv(s) && t < |s.procs| && CanStep(s, s.procs[t]) && Quiet(s.procs[t])
    ensures PendingSend(NextStep(s, t)) == PendingSend(s)
    ensures PendingBroadcast(NextStep(s, t)) == PendingBroadcast(s)
    ensures NextStep(s, t).shared == s.shared
  {
    assert ThreadLocks(s, t);
  }

  lemma ReadStepRefines(s: Machine, t: Tid)
    requires LocksInv(s) && t < |s.procs| && CanStep(s, s.procs[t]) && ProcOk(s, s.procs[t])
    requires s.procs[t].GetCreating? || s.procs[t].GetSending?
    ensures Abs(NextStep(s, t)) == AbsNext(s, Step(t))
  {
    assert ThreadLocks(s, t);
    ReadersSeeNoPendingBroadcast(s, t);
    assert s.writer == NextStep(s, t).writer && !s.writer.Active?;
  }

  lemma WriteStepRefines(s: Machine, t: Tid)
    requires LocksInv(s) && t < |s.procs| && CanStep(s, s.procs[t]) && ProcOk(s, s.procs[t])
    requires s.procs[t].WriteHeld? || s.procs[t].Bcasting?
    ensures Abs(NextStep(s, t)) == AbsNext(s, Step(t))
  {
    assert ThreadLocks(s, t);
    if s.procs[t].WriteHeld? {
      WritersSeeNothingPending(s, t);
    }
    assert PendingSend(NextStep(s, t)).None? && PendingSend(s).None?;
  }

  /** Starts, fetches, timeouts and the consumer do not touch the abstract state. */
  lemma OtherActionRefines(s: Machine, a: Action)
    requires LocksInv(s) && Enabled(s, a) && !a.Step?
    ensures Abs(Next(s, a)) == Abs(s)
    ensures PendingBroadcast(Next(s, a)) == PendingBroadcast(s) && Sent(Next(s, a)) == Sent(s)
  {
    hide Broadcast, CacheKey;
    if !a.Consume? && !a.StartGet? && !a.StartWrite? {
      assert ThreadLocks(s, a.t);
    }
    assert PendingSend(Next(s, a)) == PendingSend(s);
  }

  /** Every action is either invisible to the abstract state or exactly one atomic operation. */
  lemma StepRefines(s: Machine, a: Action)
    requires Inv(s) && Enabled(s, a)
    ensures Abs(Next(s, a)) == AbsNext(s, a)
  {
    hide NextStep, ChannelsInv, QueueInv, LocksInv, PendingSend, PendingBroadcast, Broadcast, Create, CacheKey;
    if a.Step? {
      var t := a.t;
      assert ProcOk(s, s.procs[t]);
      hide ProcOk;
      if Quiet(s.procs[t]) {
        QuietStepKeepsPending(s, t);
      } else if HoldsRead(s.procs[t]) {
        ReadStepRefines(s, t);
      } else {
        WriteStepRefines(s, t);
      }
    } else {
      OtherActionRefines(s, a);
    }
  }

  /** What the goroutine remembers after a visible step is what the atomic operation returns. */
  lemma StepReturnsAtomicResult(s: Machine, t: Tid, req: Request)
    requires Inv(s) && Enabled(s, Step(t)) && Effect(s, Step(t)) == Some(GetSA(req))
    ensures
      var (entry, notifier) := GetSAResult(Abs(s), req);
      match Next(s, Step(t)).procs[t]
      case GetUnlockRead(r, sa, c) => r == req && sa == entry && c == notifier
      case GetSending(r, c) => r == req && entry == None && notifier == Some(c)
      case GetUnlockNotify(r, c) => r == req && entry == None && notifier == Some(c)
      case _ => false
  {
    ReadersSeeNoPendingBroadcast(s, t);
  }

  // ---------------------------------------------------------------- preservation

  lemma MoverKeepsLocks(s: Machine, t: Tid)
    requires LocksInv(s) && t < |s.procs| && CanStep(s, s.procs[t])
    ensures LockWords(NextStep(s, t)) && ThreadLocks(NextStep(s, t), t)
  {
    assert ThreadLocks(s, t);
    hide Apply, Register, Broadcast, CacheKey, Lookup, Resolve, Return, WildcardKey;
    var p := s.procs[t];
    if p.WriteDraining? {
      assert NextStep(s, t).readers == {};
    } else if p.GetWantRead? || p.CmWantRead? {
      assert s.writer == NoWriter;
    }
  }

  lemma OthersKeepLocks(s: Machine, t: Tid, u: Tid)
    requires LocksInv(s) && t < |s.procs| && CanStep(s, s.procs[t])
    requires u < |s.procs| && u != t
    ensures ThreadLocks(NextStep(s, t), u)
  {
    hide Apply, Register, Broadcast, CacheKey, Lookup, Resolve, Return, WildcardKey;
    assert ThreadLocks(s, t) && ThreadLocks(s, u);
  }

  lemma StepKeepsLocks(s: Machine, a: Action)
    requires LocksInv(s) && Enabled(s, a)
    ensures LocksInv(Next(s, a))
  {
    var s' := Next(s, a);
    if a.Step? {
      MoverKeepsLocks(s, a.t);
    }
    forall u | 0 <= u < |s'.procs| ensures ThreadLocks(s', u) {
      if a.Step? && u != a.t {
        OthersKeepLocks(s, a.t, u);
      } else if u < |s.procs| {
        assert ThreadLocks(s, u);
      }
    }
  }

  /** Only a getter at its send writes to the channel. */
  lemma StepSends(s: Machine, t: Tid)
    requires t < |s.procs| && CanStep(s, s.procs[t]) && ProcOk(s, s.procs[t])
    ensures var s' := NextStep(s, t);
            && s'.taken == s.taken
            && if s.procs[t].GetSending?
               then s'.queue == s.queue + [s.procs[t].req]
                    && s'.shared.n.sent == s.shared.n.sent + [CacheKey(s.procs[t].req)]
               else s'.queue == s.queue && s'.shared.n.sent == s.shared.n.sent
  {
    hide CacheKey, Lookup, Resolve, Return, NotifierOk, MadeFor;
    match s.procs[t]
    case WriteHeld(op) =>
    case _ =>
  }

  lemma StepKeepsQueue(s: Machine, a: Action)
    requires Inv(s) && Enabled(s, a)
    ensures QueueInv(Next(s, a))
  {
    hide NextStep, LocksInv, ChannelsInv, Sent, PendingBroadcast, CacheKey;
    var s' := Next(s, a);
    if a.Consume? {
      assert s'.taken + s'.queue == s.taken + s.queue;
    } else if a.Step? {
      assert ProcOk(s, s.procs[a.t]);
      hide ProcOk;
      StepSends(s, a.t);
      if s.procs[a.t].GetSending? {
        assert s'.taken + s'.queue == s.taken + s.queue + [s.procs[a.t].req];
      }
    }
  }

  /** Goroutines other than the one that moved keep what they know. */
  lemma StepKeepsOthers(s: Machine, a: Action, u: Tid)
    requires Inv(s) && Enabled(s, a)
    requires u < |s.procs| && (a.Step? ==> a.t != u)
    ensures ProcOk(Next(s, a), s.procs[u])
  {
    assert ProcOk(s, s.procs[u]) && ThreadLocks(s, u);
    if a.Step? {
      assert ThreadLocks(s, a.t);
    }
  }

  /** The goroutine that moved knows what its new place requires. */
  lemma MoverKeepsProc(s: Machine, t: Tid)
    requires LocksInv(s) && t < |s.procs| && CanStep(s, s.procs[t]) && ProcOk(s, s.procs[t])
    requires HandlersOpen(s.shared.n)
    ensures |NextStep(s, t).procs| == |s.procs|
    ensures ProcOk(NextStep(s, t), NextStep(s, t).procs[t])
  {
    hide CacheKey, LocksInv;
    match s.procs[t]
    case GetCreating(_) =>
    case CmUnlockRead(_, _, _, _, _) =>
    case WriteHeld(_) =>
    case _ =>
  }

  lemma StepKeepsProcs(s: Machine, a: Action, u: Tid)
    requires Inv(s) && Enabled(s, a)
    requires u < |Next(s, a).procs|
    ensures ProcOk(Next(s, a), Next(s, a).procs[u])
  {
    if a.Step? {
      hide NextStep, ProcOk, LocksInv;
      if u == a.t {
        MoverKeepsProc(s, u);
      } else {
        assert Next(s, a).procs[u] == s.procs[u] by { OthersStay(s, a.t, u); }
        StepKeepsOthers(s, a, u);
      }
    } else if u < |s.procs| {
      StepKeepsOthers(s, a, u);
    }
  }

  lemma OthersStay(s: Machine, t: Tid, u: Tid)
    requires t < |s.procs| && CanStep(s, s.procs[t]) && u != t
    ensures |NextStep(s, t).procs| == |s.procs|
    ensures u < |s.procs| ==> NextStep(s, t).procs[u] == s.procs[u]
  {
    hide Apply, Resolve, Return, Register, Broadcast, CacheKey, Lookup;
  }

  lemma QuietStepKeepsChannels(s: Machine, a: Action)
    requires Inv(s) && Enabled(s, a) && (a.Step? ==> Quiet(s.procs[a.t]))
    ensures Sent(Next(s, a)) == Sent(s)
    ensures PendingBroadcast(Next(s, a)) == PendingBroadcast(s)
  {
    hide NextStep, QueueInv, ChannelsInv, LocksInv, PendingSend, PendingBroadcast;
    if a.Step? {
      QuietStepKeepsPending(s, a.t);
    } else {
      OtherActionRefines(s, a);
    }
  }

  /** The registry moves only by `Create` and `Broadcast`, also half-way through an operation. */
  lemma StepKeepsChannels(s: Machine, a: Action)
    requires Inv(s) && Enabled(s, a)
    ensures ChannelsInv(Sent(Next(s, a)))
  {
    if a.Step? && !Quiet(s.procs[a.t]) {
      var p := s.procs[a.t];
      assert ProcOk(s, p) && ThreadLocks(s, a.t);
      if p.GetCreating? {
        assert Sent(Next(s, a)) == Create(Sent(s), CacheKey(p.req)).0;
        CreateKeepsChannels(Sent(s), CacheKey(p.req));
      } else if p.Bcasting? {
        assert Sent(Next(s, a)) == Broadcast(Sent(s), p.key);
        BroadcastKeepsChannels(Sent(s), p.key);
      } else if p.WriteHeld? {
        WritersSeeNothingPending(s, a.t);
        assert Sent(Next(s, a)) == Sent(s);
      } else {
        assert Sent(Next(s, a)) == Sent(s);
      }
    } else {
      QuietStepKeepsChannels(s, a);
    }
  }

  /** Registering and sending happen while no insertion is half-way, under a key that is not cached. */
  lemma ReaderKeepsOverlap(s: Machine, t: Tid, k: Key)
    requires Inv(s) && t < |s.procs| && CanStep(s, s.procs[t])
    requires s.procs[t].GetCreating? || s.procs[t].GetSending?
    ensures !(k in NextStep(s, t).shared.n.handlers && k in NextStep(s, t).shared.saCache)
  {
    assert ProcOk(s, s.procs[t]);
    ReadersSeeNoPendingBroadcast(s, t);
    hide LocksInv, QueueInv, ChannelsInv, Sent, PendingBroadcast, CacheKey;
  }

  lemma WriterKeepsOverlap(s: Machine, t: Tid, k: Key)
    requires Inv(s) && t < |s.procs| && CanStep(s, s.procs[t])
    requires s.procs[t].WriteHeld? || s.procs[t].Bcasting?
    requires k in NextStep(s, t).shared.n.handlers && k in NextStep(s, t).shared.saCache
    ensures PendingBroadcast(NextStep(s, t)) == Some(k)
  {
    assert ProcOk(s, s.procs[t]) && ThreadLocks(s, t);
    if s.procs[t].WriteHeld? {
      WritersSeeNothingPending(s, t);
    }
    hide LocksInv, QueueInv, ChannelsInv, Sent;
  }

  lemma StepKeepsOverlap(s: Machine, a: Action, k: Key)
    requires Inv(s) && Enabled(s, a)
    requires k in Next(s, a).shared.n.handlers && k in Next(s, a).shared.saCache
    ensures PendingBroadcast(Next(s, a)) == Some(k)
  {
    if a.Step? {
      hide NextStep, LocksInv, QueueInv, ChannelsInv, Sent, PendingBroadcast, ProcOk;
      if Quiet(s.procs[a.t]) {
        QuietStepKeepsPending(s, a.t);
      } else if HoldsRead(s.procs[a.t]) {
        ReaderKeepsOverlap(s, a.t, k);
        assert false;
      } else {
        WriterKeepsOverlap(s, a.t, k);
      }
    } else {
      QuietStepKeepsChannels(s, a);
    }
  }

  lemma StepKeepsInv(s: Machine, a: Action)
    requires Inv(s) && Enabled(s, a)
    ensures Inv(Next(s, a))
  {
    StepKeepsLocks(s, a);
    StepKeepsQueue(s, a);
    forall u | 0 <= u < |Next(s, a).procs| ensures ProcOk(Next(s, a), Next(s, a).procs[u]) {
      StepKeepsProcs(s, a, u);
    }
    StepKeepsChannels(s, a);
    forall k | k in Next(s, a).shared.n.handlers && k in Next(s, a).shared.saCache
      ensures PendingBroadcast(Next(s, a)) == Some(k)
    {
      StepKeepsOverlap(s, a, k);
    }
  }

  /** The invariant of the atomic registry holds of what the machine stands for. */
  lemma AbsInv(s: Machine)
    requires Inv(s)
    ensures Registry.Inv(Abs(s))
  {
    if PendingBroadcast(s).Some? {
      BroadcastKeepsChannels(Sent(s), PendingBroadcast(s).value);
    }
  }
}
