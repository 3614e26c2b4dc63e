/**
 What a `Get` answers when it runs as a goroutine among others: three lookups under three separate read
 locks, merged in the source's order (pkg/cache/cache.go:119-187, pkg/handler/handler.go:464-486).
 */
module LockAnswers {
  import opened Common
  import opened Registry
  import opened LockProtocol
  import opened LockTheorems
  import opened ConfigMapSync
  import opened ServiceAccounts
  import opened Interleavings

  // ---------------------------------------------------------------- the course of a Get

  /** The answer the three lookups give. */
  function Answer(req: Request, sa: Option<Entry>, cm: map<Key, Entry>, notifier: Option<Chan>): Response {
    Resolve(sa, notifier, Lookup(cm, CacheKey(req)), Lookup(cm, WildcardKey(req)))
  }

  /**
   What the goroutine may know at each place, if the account lookup gives `sa`, the ConfigMap cache is
   `cm`, and `fits` holds of the notifier it may carry. `early` includes the account lookup itself.
   */
  predicate Course(p: Proc, req: Request, sa: Option<Entry>, cm: map<Key, Entry>, fits: Option<Chan> -> bool, early: bool) {
    var exact := Lookup(cm, CacheKey(req));
    match p
    case GetWantRead(r) => early && r == req
    case GetReading(r) => early && r == req
    case GetWantNotify(r) => early && r == req && req.notify && sa.None?
    case GetCreating(r) => early && r == req && req.notify && sa.None?
    case GetSending(r, _) => early && r == req && req.notify && sa.None?
    case GetUnlockNotify(r, _) => early && r == req && req.notify && sa.None?
    case GetUnlockRead(r, a, n) => r == req && a == sa && fits(n)
    case CmWantRead(r, a, n, wild) => r == req && a == sa && fits(n) && Undecided(sa) && (wild ==> exact.None?)
    case CmReading(r, a, n, wild) => r == req && a == sa && fits(n) && Undecided(sa) && (wild ==> exact.None?)
    case CmUnlockRead(r, a, n, wild, found) =>
      && r == req && a == sa && fits(n) && Undecided(sa)
      && (if wild then exact.None? && found == Lookup(cm, WildcardKey(req)) else found == exact)
    case GetDone(r, response) =>
      r == req && fits(response.notifier) && response == Answer(req, sa, cm, response.notifier)
      && (req.notify ==> response.found)
    case Waiting(r, n) => r == req && req.notify && fits(n) && !Answer(req, sa, cm, n).found
    case _ => false
  }

  /** The account lookup leaves the decision to the ConfigMap. */
  predicate Undecided(sa: Option<Entry>) {
    sa.None? || sa.value.roleArn == ""
  }

  /** The handler was told "not found", waited, and timed out or looks again. */
  predicate Waited(p: Proc, req: Request, sa: Option<Entry>, cm: map<Key, Entry>) {
    && req.notify && !Answer(req, sa, cm, None).found
    && (|| (p.GaveUp? && p.req == req)
        || (LooksUp(p) && p.req == req.(notify := false)))
  }

  predicate LooksUp(p: Proc) {
    p.GetWantRead? || p.GetReading? || p.GetUnlockRead? || p.CmWantRead? || p.CmReading? || p.CmUnlockRead? || p.GetDone?
  }

  predicate OnCourse(p: Proc, req: Request, sa: Option<Entry>, cm: map<Key, Entry>, fits: Option<Chan> -> bool, early: bool) {
    Course(p, req, sa, cm, fits, early) || Waited(p, req, sa, cm)
  }

  /** `fits` says that a notifier is carried exactly if one was asked for and the account is not cached. */
  ghost predicate AsAsked(req: Request, sa: Option<Entry>, fits: Option<Chan> -> bool) {
    forall n :: fits(n) <==> (n.Some? <==> req.notify && sa.None?)
  }

  lemma CourseStep(s: Machine, t: Tid, req: Request, sa: Option<Entry>, fits: Option<Chan> -> bool, early: bool)
    requires t < |s.procs| && CanStep(s, s.procs[t])
    requires Course(s.procs[t], req, sa, s.shared.cmCache, fits, early)
    requires early ==> Lookup(s.shared.saCache, CacheKey(req)) == sa && AsAsked(req, sa, fits)
    ensures |NextStep(s, t).procs| == |s.procs|
    ensures OnCourse(NextStep(s, t).procs[t], req, sa, s.shared.cmCache, fits, early)
  {
    hide CacheKey, WildcardKey, Register, Broadcast, Apply;
    if InGetSA(s.procs[t]) {
      hide Resolve;
    } else {
      LateCourseStep(s, t, req, sa, fits, early);
    }
  }

  lemma LateCourseStep(s: Machine, t: Tid, req: Request, sa: Option<Entry>, fits: Option<Chan> -> bool, early: bool)
    requires t < |s.procs| && CanStep(s, s.procs[t]) && !InGetSA(s.procs[t])
    requires Course(s.procs[t], req, sa, s.shared.cmCache, fits, early)
    ensures |NextStep(s, t).procs| == |s.procs|
    ensures OnCourse(NextStep(s, t).procs[t], req, sa, s.shared.cmCache, fits, early)
  {
    hide CacheKey, WildcardKey, Register, Broadcast, Apply;
    match s.procs[t]
    case CmUnlockRead(_, _, _, _, _) =>
    case GetUnlockRead(_, _, _) =>
    case Waiting(_, _) =>
    case _ =>
  }

  lemma WaitedStep(s: Machine, t: Tid, req: Request, sa: Option<Entry>, cm: map<Key, Entry>)
    requires t < |s.procs| && CanStep(s, s.procs[t]) && Waited(s.procs[t], req, sa, cm)
    ensures |NextStep(s, t).procs| == |s.procs| && Waited(NextStep(s, t).procs[t], req, sa, cm)
  {
    hide CacheKey, WildcardKey, Register, Broadcast, Apply, Resolve, Lookup, Answer;
  }

  lemma ActionKeepsCourse(s: Machine, a: Action, t: Tid, req: Request, sa: Option<Entry>, fits: Option<Chan> -> bool, early: bool)
    requires Enabled(s, a) && t < |s.procs| && OnCourse(s.procs[t], req, sa, s.shared.cmCache, fits, early)
    requires early ==> Lookup(s.shared.saCache, CacheKey(req)) == sa && AsAsked(req, sa, fits)
    ensures t < |Next(s, a).procs| && OnCourse(Next(s, a).procs[t], req, sa, s.shared.cmCache, fits, early)
  {
    hide NextStep, CacheKey, WildcardKey, Lookup, Resolve;
    if a.Step? && a.t == t {
      if Course(s.procs[t], req, sa, s.shared.cmCache, fits, early) {
        CourseStep(s, t, req, sa, fits, early);
      } else {
        WaitedStep(s, t, req, sa, s.shared.cmCache);
      }
    } else if a.Step? {
      OthersStay(s, a.t, t);
    } else if a.Timeout? && a.t == t {
      NotFoundWithout(req, sa, s.shared.cmCache, s.procs[t].notifier);
    }
  }

  /** Whether anything is found does not depend on the notifier. */
  lemma NotFoundWithout(req: Request, sa: Option<Entry>, cm: map<Key, Entry>, n: Option<Chan>)
    ensures Answer(req, sa, cm, n).found == Answer(req, sa, cm, None).found
  {
  }

  // ---------------------------------------------------------------- over runs

  /** A step that performs no write of a kind leaves the map of that kind alone. */
  lemma StepKeepsMaps(s: Machine, a: Action)
    requires LockProtocol.Inv(s) && Enabled(s, a)
    ensures Effect(s, a).None? || !WritesConfig(Effect(s, a).value) ==> Next(s, a).shared.cmCache == s.shared.cmCache
    ensures Effect(s, a).None? || !WritesAccounts(Effect(s, a).value) ==> Next(s, a).shared.saCache == s.shared.saCache
  {
    hide LockProtocol.Inv, Next, Effect, Abs;
    StepRefines(s, a);
    EffectIsNotClear(s, a);
    AbsKeepsMaps(s);
    AbsKeepsMaps(Next(s, a));
  }

  /** The run performs no write of the kind. */
  ghost predicate Spares(s: Machine, actions: seq<Action>, mine: Op -> bool)
    requires IsRun(s, actions)
  {
    forall i | 0 <= i < |Effects(s, actions)| :: !mine(Effects(s, actions)[i])
  }

  lemma SparesRest(s: Machine, actions: seq<Action>, mine: Op -> bool)
    requires IsRun(s, actions) && actions != [] && Spares(s, actions, mine)
    ensures Effect(s, actions[0]).None? || !mine(Effect(s, actions[0]).value)
    ensures Spares(Next(s, actions[0]), actions[1..], mine)
  {
    hide Next, Effect;
    var all, rest := Effects(s, actions), Effects(Next(s, actions[0]), actions[1..]);
    var own := if Effect(s, actions[0]).Some? then [Effect(s, actions[0]).value] else [];
    assert all == own + rest;
    assert own != [] ==> all[0] == own[0];
    forall i | 0 <= i < |rest| ensures !mine(rest[i]) {
      assert all[|own| + i] == rest[i];
    }
  }

  lemma {:induction false} CourseAlong(s: Machine, actions: seq<Action>, t: Tid, req: Request, sa: Option<Entry>,
                                       fits: Option<Chan> -> bool, early: bool)
    requires LockProtocol.Inv(s) && IsRun(s, actions) && t < |s.procs|
    requires OnCourse(s.procs[t], req, sa, s.shared.cmCache, fits, early)
    requires early ==> Lookup(s.shared.saCache, CacheKey(req)) == sa && AsAsked(req, sa, fits)
    requires Spares(s, actions, WritesConfig) && (early ==> Spares(s, actions, WritesAccounts))
    ensures t < |Final(s, actions).procs|
    ensures OnCourse(Final(s, actions).procs[t], req, sa, s.shared.cmCache, fits, early)
    decreases |actions|
  {
    hide LockProtocol.Inv, Next, OnCourse, Effects, Effect, AsAsked, CacheKey, Lookup;
    if actions != [] {
      var a := actions[0];
      StepKeepsInv(s, a);
      StepKeepsMaps(s, a);
      SparesRest(s, actions, WritesConfig);
      if early {
        SparesRest(s, actions, WritesAccounts);
      }
      ActionKeepsCourse(s, a, t, req, sa, fits, early);
      CourseAlong(Next(s, a), actions[1..], t, req, sa, fits, early);
    }
  }

  /**
   The ConfigMap half of `Get`, exactly. Over every interleaving without a ConfigMap write, a getter that
   found `sa` and carries `notifier` answers with the exact ConfigMap key, else the `*` key, and waits
   only if nothing was found and it asked to.
   */
  lemma ConfigMapAnswers(s: Machine, more: seq<Action>, t: Tid, req: Request, sa: Option<Entry>, notifier: Option<Chan>)
    requires Reachable(s) && IsRun(s, more) && t < |s.procs|
    requires s.procs[t] == CmWantRead(req, sa, notifier, false) && Undecided(sa)
    requires Spares(s, more, WritesConfig)
    ensures
      var end, cm := Final(s, more), s.shared.cmCache;
      var answer := Resolve(sa, notifier, Lookup(cm, CacheKey(req)), Lookup(cm, WildcardKey(req)));
      && t < |end.procs|
      && (end.procs[t].GetDone? && end.procs[t].req == req ==> end.procs[t].response == answer)
      && (end.procs[t].Waiting? ==> end.procs[t] == Waiting(req, notifier) && req.notify && !answer.found)
      && (Finished(end.procs[t]) && !(req.notify && !answer.found) ==> end.procs[t] == GetDone(req, answer))
  {
    LockTheorems.ReachableInv(s);
    var fits := (n: Option<Chan>) => n == notifier;
    CourseAlong(s, more, t, req, sa, fits, false);
    NotFoundWithout(req, sa, s.shared.cmCache, notifier);
    hide LockProtocol.Inv, Reachable, IsRun, Final, Resolve, CacheKey, WildcardKey, Lookup;
  }

  /** The same answer, up to the number of the channel, which depends on who else registered one. */
  predicate SameAnswer(r: Response, r': Response) {
    r.(notifier := None) == r'.(notifier := None) && r.notifier.Some? == r'.notifier.Some?
  }

  lemma AnswerIsGetResponse(s: State, req: Request, n: Option<Chan>)
    requires n.Some? <==> req.notify && CacheKey(req) !in s.saCache
    ensures SameAnswer(Answer(req, Lookup(s.saCache, CacheKey(req)), s.cmCache, n), GetResponse(s, req))
  {
    hide CacheKey, WildcardKey;
  }

  /** What a goroutine that looks up `req` has to show when it has returned, or waits. */
  predicate Answers(p: Proc, req: Request, expected: Response) {
    match p
    case GetDone(r, response) =>
      if req.notify && !expected.found then r == req.(notify := false)
      else r == req && SameAnswer(response, expected)
    case Waiting(r, n) => r == req && req.notify && !expected.found && n.Some?
    case GaveUp(r) => r == req && req.notify && !expected.found
    case _ => LooksUp(p) || p.GetWantNotify? || p.GetCreating? || p.GetSending? || p.GetUnlockNotify?
  }

  lemma CourseAnswers(s: State, p: Proc, req: Request, fits: Option<Chan> -> bool)
    requires AsAsked(req, Lookup(s.saCache, CacheKey(req)), fits)
    requires OnCourse(p, req, Lookup(s.saCache, CacheKey(req)), s.cmCache, fits, true)
    ensures Answers(p, req, GetResponse(s, req))
  {
    var sa := Lookup(s.saCache, CacheKey(req));
    forall n | fits(n) ensures SameAnswer(Answer(req, sa, s.cmCache, n), GetResponse(s, req)) {
      AnswerIsGetResponse(s, req, n);
    }
    NotFoundWithout(req, sa, s.cmCache, if req.notify && sa.None? then Some(0) else None);
    hide CacheKey, WildcardKey, GetResponse, Resolve;
    assert fits(if req.notify && sa.None? then Some(0) else None);
    if p.Waiting? {
      NotFoundWithout(req, sa, s.cmCache, p.notifier);
    }
  }

  lemma GetWantReadAnswers(s: Machine, more: seq<Action>, t: Tid, req: Request)
    requires LockProtocol.Inv(s) && IsRun(s, more) && t < |s.procs| && s.procs[t] == GetWantRead(req)
    requires Spares(s, more, WritesConfig) && Spares(s, more, WritesAccounts)
    ensures t < |Final(s, more).procs| && Answers(Final(s, more).procs[t], req, GetResponse(Abs(s), req))
  {
    var sa := Lookup(s.shared.saCache, CacheKey(req));
    var fits := (n: Option<Chan>) => n.Some? <==> req.notify && sa.None?;
    AbsKeepsMaps(s);
    CourseAlong(s, more, t, req, sa, fits, true);
    CourseAnswers(Abs(s), Final(s, more).procs[t], req, fits);
  }

  /**
   What `Get` answers as a goroutine. Over every interleaving in which no account or ConfigMap entry is
   written between its start and its return, the answer is that of the atomic `Get` in the state it
   started in - so the annotated account, else the exact ConfigMap key, else the `*` key - and the handler
   waits exactly if that is "not found" and a notifier was asked for.
   */
  lemma LockedGet(s: Machine, more: seq<Action>, req: Request)
    requires Reachable(s) && IsRun(Next(s, StartGet(req)), more)
    requires Spares(Next(s, StartGet(req)), more, WritesConfig) && Spares(Next(s, StartGet(req)), more, WritesAccounts)
    ensures
      var end, t := Final(Next(s, StartGet(req)), more), |s.procs|;
      t < |end.procs| && Answers(end.procs[t], req, GetResponse(Abs(s), req))
  {
    LockTheorems.ReachableInv(s);
    StepKeepsInv(s, StartGet(req));
    OtherActionRefines(s, StartGet(req));
    hide LockProtocol.Inv, Reachable, Abs, Answers, GetResponse;
    GetWantReadAnswers(Next(s, StartGet(req)), more, |s.procs|, req);
  }

  /**
   What a handler gets after it was woken: it looks the account up again, without asking for a notifier,
   and over every interleaving without a write in between its answer is that of the state it was woken in.
   */
  lemma WokenHandlerAnswers(s: Machine, more: seq<Action>, t: Tid)
    requires Reachable(s) && t < |s.procs| && s.procs[t].Waiting? && Enabled(s, Step(t))
    requires IsRun(Next(s, Step(t)), more)
    requires Spares(Next(s, Step(t)), more, WritesConfig) && Spares(Next(s, Step(t)), more, WritesAccounts)
    ensures
      var end, again := Final(Next(s, Step(t)), more), s.procs[t].req.(notify := false);
      && t < |end.procs| && Answers(end.procs[t], again, GetResponse(Abs(s), again))
      && (Finished(end.procs[t]) ==> end.procs[t] == GetDone(again, GetResponse(Abs(s), again)))
  {
    LockTheorems.ReachableInv(s);
    WakeStarts(s, t);
    hide LockProtocol.Inv, Reachable, Abs, Next;
    var again := s.procs[t].req.(notify := false);
    GetWantReadAnswers(Next(s, Step(t)), more, t, again);
    NoNotifierUnasked(Abs(s), again);
    hide GetResponse;
  }

  lemma WakeStarts(s: Machine, t: Tid)
    requires LockProtocol.Inv(s) && t < |s.procs| && s.procs[t].Waiting? && Enabled(s, Step(t))
    ensures var next := Next(s, Step(t));
            && LockProtocol.Inv(next) && Abs(next) == Abs(s)
            && |next.procs| == |s.procs| && next.procs[t] == GetWantRead(s.procs[t].req.(notify := false))
  {
    StepKeepsInv(s, Step(t));
    StepRefines(s, Step(t));
    hide LockProtocol.Inv, Abs;
  }

  lemma NoNotifierUnasked(s: State, req: Request)
    requires !req.notify
    ensures GetResponse(s, req).notifier.None?
  {
  }
}
