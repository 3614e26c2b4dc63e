/**
 The reload loop: file events, a deduplicating rate-limited work queue and one worker that stats,
 reads and loads (pkg/filesystem/file_watcher.go, pkg/containercredentials/config.go:72-98). Each
 action is one step of the environment, the event loop, the queue's timer or the worker.
 */
module FileReload {
  import opened Common
  import opened FileConfig

  datatype File = Missing | Content(text: string)

  /** What the handler is given: nil for a missing file. */
  function Text(f: File): string {
    if f.Missing? then "" else f.text
  }

  // ---------------------------------------------------------------- the client-go work queue

  /**
   The queue as seen by its one item: whether it waits in the queue, is dirty, is being processed, and
   how many delayed additions are pending.
   */
  datatype Queue = Queue(waiting: bool, dirty: bool, processing: bool, delayed: nat)

  /** `Add`: duplicates are dropped; an item being processed is only marked for another round. */
  function AddItem(q: Queue): Queue {
    if q.dirty then q
    else q.(dirty := true, waiting := !q.processing)
  }

  function GetItem(q: Queue): Queue
    requires q.waiting
  {
    q.(waiting := false, dirty := false, processing := true)
  }

  /** `Done`: an item marked meanwhile goes back into the queue. */
  function DoneItem(q: Queue): Queue {
    q.(processing := false, waiting := q.dirty)
  }

  function FireDelayed(q: Queue): Queue
    requires q.delayed > 0
  {
    AddItem(q.(delayed := q.delayed - 1))
  }

  // ---------------------------------------------------------------- the machine

  /** Where the worker stands in `processNextWorkItem`. */
  datatype Worker =
    | Idle
    | Statting
    | Reading
    | Loading(read: File)
    | Failed
    | Succeeded
    | Finishing

  /** `accepted` is the content of the last successful `Load`, `cache` the identities it left. */
  datatype State = State(
    file: File,
    watching: bool,
    events: nat,
    queue: Queue,
    worker: Worker,
    accepted: Option<File>,
    cache: set<Identity>
  )

  /** `Watch` queues the first load before anything else. */
  function Init(file: File): State {
    State(file, false, 0, AddItem(Queue(false, false, false, 0)), Idle, None, {})
  }

  datatype Action =
    | Change(file: File)    // the file is written, replaced or removed
    | Spurious              // an event for the path without a change
    | AddWatch              // the directory is watched from now on
    | Deliver               // the event loop takes an event for the path
    | Fire                  // a rate-limited addition comes due
    | Get | Stat | Read | ReadFails | Load | Finish | Done

  predicate Enabled(s: State, a: Action) {
    match a
    case Change(_) => true
    case Spurious => s.watching
    case AddWatch => !s.watching
    case Deliver => s.events > 0
    case Fire => s.queue.delayed > 0
    case Get => s.worker.Idle? && s.queue.waiting
    case Stat => s.worker.Statting?
    case Read => s.worker.Reading?
    case ReadFails => s.worker.Reading?
    case Load => s.worker.Loading?
    case Finish => s.worker.Failed? || s.worker.Succeeded?
    case Done => s.worker.Finishing?
  }

  function Next(parse: Parser, s: State, a: Action): State
    requires Enabled(s, a)
  {
    match a
    case Change(f) => s.(file := f, events := if s.watching then s.events + 1 else s.events)
    case Spurious => s.(events := s.events + 1)
    case AddWatch => s.(watching := true)
    case Deliver => s.(events := s.events - 1, queue := AddItem(s.queue))
    case Fire => s.(queue := FireDelayed(s.queue))
    case Get => s.(worker := Statting, queue := GetItem(s.queue))
    case Stat => s.(worker := if s.file.Missing? then Loading(Missing) else Reading)
    case Read => s.(worker := if s.file.Missing? then Failed else Loading(s.file))
    case ReadFails => s.(worker := Failed)
    case Load =>
      var ids := Identities(parse, Text(s.worker.read));
      if ids.None? then s.(worker := Failed)
      else s.(worker := Succeeded, accepted := Some(s.worker.read), cache := ids.value)
    case Finish =>
      if s.worker.Failed? then s.(worker := Finishing, queue := s.queue.(delayed := s.queue.delayed + 1))
      else s.(worker := Finishing)
    case Done => s.(worker := Idle, queue := DoneItem(s.queue))
  }

  // ---------------------------------------------------------------- what is owed

  /** Some step still to come will read the file afresh. */
  predicate WillRead(s: State) {
    || s.events > 0 || s.queue.dirty || s.queue.delayed > 0
    || s.worker.Statting? || s.worker.Reading? || s.worker.Failed?
  }

  /** The newest content the worker has got hold of: being loaded, or accepted. */
  function Newest(s: State): Option<File> {
    if s.worker.Loading? then Some(s.worker.read) else s.accepted
  }

  predicate UpToDate(s: State) {
    WillRead(s) || Newest(s) == Some(s.file)
  }

  predicate QueueOk(s: State) {
    && (s.queue.processing <==> !s.worker.Idle?)
    && (s.queue.waiting <==> s.queue.dirty && !s.queue.processing)
  }

  predicate CacheOk(parse: Parser, s: State) {
    if s.accepted.None? then s.cache == {}
    else Identities(parse, Text(s.accepted.value)) == Some(s.cache)
  }

  /** True in every state, whatever was lost. */
  predicate Sound(parse: Parser, s: State) {
    QueueOk(s) && CacheOk(parse, s)
  }

  predicate Inv(parse: Parser, s: State) {
    Sound(parse, s) && UpToDate(s)
  }

  /** A change nobody will notice: no watch yet, and no read still to come. */
  predicate Blind(s: State, a: Action) {
    a.Change? && !s.watching && !WillRead(s)
  }

  /** A blind change to something other than the content in hand. */
  predicate Loses(s: State, a: Action) {
    Blind(s, a) && Newest(s) != Some(a.file)
  }

  /**
   What makes up for a loss: an event for the path, a change back to the content in hand or in time for
   a read, or a content that does not load and is read again.
   */
  predicate Heals(parse: Parser, s: State, a: Action) {
    || a.Spurious?
    || (a.Change? && !Loses(s, a))
    || (a.Load? && s.worker.Loading? && Identities(parse, Text(s.worker.read)).None?)
  }

  /** One step, exactly: the loop is up to date afterwards if it was and loses nothing, or is healed. */
  lemma StepUpToDateIff(parse: Parser, s: State, a: Action)
    requires Sound(parse, s) && Enabled(s, a)
    ensures Sound(parse, Next(parse, s, a))
    ensures UpToDate(Next(parse, s, a)) <==> (UpToDate(s) && !Loses(s, a)) || Heals(parse, s, a)
  {
  }

  ghost predicate IsRun(parse: Parser, s: State, actions: seq<Action>)
    decreases |actions|
  {
    actions == [] || (Enabled(s, actions[0]) && IsRun(parse, Next(parse, s, actions[0]), actions[1..]))
  }

  ghost function Final(parse: Parser, s: State, actions: seq<Action>): State
    requires IsRun(parse, s, actions)
    decreases |actions|
  {
    if actions == [] then s else Final(parse, Next(parse, s, actions[0]), actions[1..])
  }

  /** The run loses nothing. */
  ghost predicate Sighted(parse: Parser, s: State, actions: seq<Action>)
    requires IsRun(parse, s, actions)
    decreases |actions|
  {
    actions == [] || (!Loses(s, actions[0]) && Sighted(parse, Next(parse, s, actions[0]), actions[1..]))
  }

  ghost predicate AlwaysUpToDate(parse: Parser, s: State, actions: seq<Action>)
    requires IsRun(parse, s, actions)
    decreases |actions|
  {
    UpToDate(s) && (actions == [] || AlwaysUpToDate(parse, Next(parse, s, actions[0]), actions[1..]))
  }

  /** A run from an up-to-date state is up to date at every point exactly if it loses nothing. */
  lemma {:induction false} AlwaysUpToDateIff(parse: Parser, s: State, actions: seq<Action>)
    requires Inv(parse, s) && IsRun(parse, s, actions)
    ensures AlwaysUpToDate(parse, s, actions) <==> Sighted(parse, s, actions)
    ensures Sighted(parse, s, actions) ==> Inv(parse, Final(parse, s, actions))
    decreases |actions|
  {
    if actions != [] {
      var next := Next(parse, s, actions[0]);
      StepUpToDateIff(parse, s, actions[0]);
      hide Sound, UpToDate, Next, Loses;
      if UpToDate(next) {
        AlwaysUpToDateIff(parse, next, actions[1..]);
      }
    }
  }

  /** The last thing the run did to `current` was not a loss. */
  ghost predicate EndsHealed(parse: Parser, s: State, current: bool, actions: seq<Action>)
    requires IsRun(parse, s, actions)
    decreases |actions|
  {
    if actions == [] then current
    else
      var a := actions[0];
      EndsHealed(parse, Next(parse, s, a), (current && !Loses(s, a)) || Heals(parse, s, a), actions[1..])
  }

  /** Whatever a run lost on the way, it ends up to date exactly if it was healed after its last loss. */
  lemma {:induction false} EndsUpToDateIff(parse: Parser, s: State, actions: seq<Action>)
    requires Sound(parse, s) && IsRun(parse, s, actions)
    ensures Sound(parse, Final(parse, s, actions))
    ensures UpToDate(Final(parse, s, actions)) <==> EndsHealed(parse, s, UpToDate(s), actions)
    decreases |actions|
  {
    if actions != [] {
      StepUpToDateIff(parse, s, actions[0]);
      hide Sound, UpToDate, Next, Loses, Heals;
      EndsUpToDateIff(parse, Next(parse, s, actions[0]), actions[1..]);
    }
  }

  /** Nothing undelivered, queued, scheduled or in the worker's hands. */
  predicate AtRest(s: State) {
    s.events == 0 && !s.queue.waiting && s.queue.delayed == 0 && s.worker.Idle?
  }

  /**
   No lost reload. Over every run from start-up that ends healed - in particular one without a loss -
   whenever the content last accepted differs from the file, a read is still owed or the file's content
   is being loaded; so once the loop is at rest the cache is exactly the file's identities. At rest, a
   run ended healed exactly if the content accepted last is the file's.
   */
  lemma NoLostReload(parse: Parser, file: File, actions: seq<Action>)
    requires IsRun(parse, Init(file), actions)
    ensures Sighted(parse, Init(file), actions) ==> EndsHealed(parse, Init(file), true, actions)
    ensures EndsHealed(parse, Init(file), true, actions) ==>
              var s := Final(parse, Init(file), actions);
              && (s.accepted != Some(s.file) ==> WillRead(s) || s.worker == Loading(s.file))
              && (AtRest(s) ==> Identities(parse, Text(s.file)) == Some(s.cache))
              && (AtRest(s) && (s.file.Missing? || s.file.text == "") ==> s.cache == {})
              && (AtRest(s) && s.file.Content? && s.file.text != "" ==>
                    parse(s.file.text).Some? && s.cache == set i | i in parse(s.file.text).value)
    ensures AtRest(Final(parse, Init(file), actions)) ==>
              (EndsHealed(parse, Init(file), true, actions) <==>
               Final(parse, Init(file), actions).accepted == Some(Final(parse, Init(file), actions).file))
  {
    AlwaysUpToDateIff(parse, Init(file), actions);
    EndsUpToDateIff(parse, Init(file), actions);
  }

  /** A change between the first read and the watch is missed: the loop rests on stale identities. */
  lemma BlindChangeIsMissed(parse: Parser, before: string, after: File)
    requires before != "" && Identities(parse, before).Some? && after != Content(before)
    ensures var actions := [Get, Stat, Read, Load, Finish, Done, Change(after), AddWatch];
            && IsRun(parse, Init(Content(before)), actions)
            && var s := Final(parse, Init(Content(before)), actions);
            AtRest(s) && s.accepted == Some(Content(before)) && s.file == after
  {
    var s0 := Init(Content(before));
    var s1 := Next(parse, s0, Get);
    var s2 := Next(parse, s1, Stat);
    var s3 := Next(parse, s2, Read);
    var s4 := Next(parse, s3, Load);
    var s5 := Next(parse, s4, Finish);
    var s6 := Next(parse, s5, Done);
    var s7 := Next(parse, s6, Change(after));
    var s8 := Next(parse, s7, AddWatch);
    Prepend(parse, s7, AddWatch, []);
    Prepend(parse, s6, Change(after), [AddWatch]);
    Prepend(parse, s5, Done, [Change(after), AddWatch]);
    Prepend(parse, s4, Finish, [Done, Change(after), AddWatch]);
    Prepend(parse, s3, Load, [Finish, Done, Change(after), AddWatch]);
    Prepend(parse, s2, Read, [Load, Finish, Done, Change(after), AddWatch]);
    Prepend(parse, s1, Stat, [Read, Load, Finish, Done, Change(after), AddWatch]);
    Prepend(parse, s0, Get, [Stat, Read, Load, Finish, Done, Change(after), AddWatch]);
  }

  /** The next event for the path, or the next change once the directory is watched, makes up for it. */
  lemma NextEventHeals(parse: Parser, s: State, a: Action)
    requires Sound(parse, s) && s.watching && (a.Spurious? || a.Change?)
    ensures Inv(parse, Next(parse, s, a))
  {
    StepUpToDateIff(parse, s, a);
  }

  lemma Prepend(parse: Parser, s: State, a: Action, rest: seq<Action>)
    requires Enabled(s, a) && IsRun(parse, Next(parse, s, a), rest)
    ensures IsRun(parse, s, [a] + rest)
    ensures Final(parse, s, [a] + rest) == Final(parse, Next(parse, s, a), rest)
  {
    assert ([a] + rest)[1..] == rest;
  }

  // ---------------------------------------------------------------- the loop comes to rest

  /** Steps of the loop itself, with a file that can be read. */
  predicate Settling(a: Action) {
    !a.Change? && !a.Spurious? && !a.ReadFails?
  }

  /** The worker is about to fail: it holds a content that does not load, or reads a file that has gone. */
  predicate WillFail(parse: Parser, s: State) {
    || (s.worker.Loading? && Identities(parse, Text(s.worker.read)).None?)
    || (s.worker.Reading? && s.file.Missing?)
  }

  function Rank(parse: Parser, s: State): nat {
    if WillFail(parse, s) then 11
    else
      match s.worker
      case Idle => 0
      case Finishing => 1
      case Succeeded => 2
      case Loading(_) => 3
      case Reading => 4
      case Statting => 5
      case Failed => 10
  }

  /** Bound on the steps left: every event or scheduled addition costs one round of the worker. */
  function Work(parse: Parser, s: State): nat {
    8 * s.events + 8 * s.queue.delayed + (if s.queue.dirty then 6 else 0) + Rank(parse, s)
    + (if s.watching then 0 else 1)
  }

  lemma StepUsesWork(parse: Parser, s: State, a: Action)
    requires Inv(parse, s) && Enabled(s, a) && Settling(a) && Identities(parse, Text(s.file)).Some?
    ensures Work(parse, Next(parse, s, a)) < Work(parse, s)
    ensures Next(parse, s, a).file == s.file
  {
  }

  /**
   Once the file stops changing and parses, the loop comes to rest, whatever the worker holds - also an
   older content that does not parse: no run of it is longer than the work at hand, and a run that
   cannot go on ends with the cache equal to the file's identities.
   */
  lemma {:induction false} Converges(parse: Parser, s: State, actions: seq<Action>)
    requires Inv(parse, s) && Identities(parse, Text(s.file)).Some? && IsRun(parse, s, actions)
    requires forall i | 0 <= i < |actions| :: Settling(actions[i])
    ensures var f := Final(parse, s, actions);
            && |actions| + Work(parse, f) <= Work(parse, s) && f.file == s.file
            && ((forall a | Settling(a) :: !Enabled(f, a)) ==>
                  AtRest(f) && Identities(parse, Text(s.file)) == Some(f.cache))
    decreases |actions|
  {
    if actions == [] {
      if forall a | Settling(a) :: !Enabled(s, a) {
        assert !Enabled(s, Deliver) && !Enabled(s, Fire) && !Enabled(s, Get) && !Enabled(s, Stat) && !Enabled(s, Read);
        assert !Enabled(s, Load) && !Enabled(s, Finish) && !Enabled(s, Done);
      }
    } else {
      StepUpToDateIff(parse, s, actions[0]);
      StepUsesWork(parse, s, actions[0]);
      Converges(parse, Next(parse, s, actions[0]), actions[1..]);
    }
  }
}
