/**
  The executor as a system of activities. Every read, write, CAS and queue access of
  Submit, Cancel, Complete, Fail, OnFinished, the workers and the timer thread is one step.
  An activity is one pending piece of some thread's work; any of them may run next, which
  allows every interleaving of the threads.
*/
module Executor {
  import opened Common

  type Task = nat
  type Id = nat

  datatype TaskState = Created | Submitted | Enqueued | Completed | Failed | Canceled
  {
    predicate Finished() { Completed? || Failed? || Canceled? }
  }

  /** One call of x.AddDependency(d); n tells repeated calls apart. */
  datatype Edge = Edge(x: Task, d: Task, n: nat)

  datatype Act =
    | SetState(x: Task, target: TaskState)
    | Notify(x: Task)
    | Decrement(e: Edge)
    | Fire(x: Task, cause: Task)
    | SubmitCas(x: Task)
    | ReadState(x: Task)
    | ReadTrigger(x: Task)
    | ReadCount(x: Task)
    | EnqueCas(x: Task)
    | PushCheck(x: Task)
    | PushIn(x: Task)
    | CheckRun(x: Task)
    | Body(x: Task)
    | TimerCheck(x: Task)
    | TimerPush(x: Task)
    | TimerWake(x: Task)
  {
    /** Between a successful CAS to Enqueued and the end of the body. */
    predicate Carrier() { PushCheck? || PushIn? || CheckRun? || Body? }
  }

  /** Where a dependency that still counts is: in the dependee's list, or with an activity. */
  datatype EdgePlace = Listed | Flying(id: Id)

  /** Where the right to run a task's body is. */
  datatype Ticket = With(id: Id) | Queued | Spent

  /**
    Auxiliary: edges places every dependency still counted, ticket the right to run a body;
    called and submitted hold what was passed to Submit and what its CAS accepted; runs
    counts body executions.
  */
  datatype Exec = Exec(
    state: map<Task, TaskState>, deps: map<Task, set<Task>>, count: map<Task, int>, depended: map<Task, seq<Edge>>,
    trigs: map<Task, set<Task>>, triggered: map<Task, seq<Task>>, flag: set<Task>,
    start: map<Task, int>, now: int, closed: bool, timersClosed: bool, queue: seq<Task>, timers: seq<Task>,
    pool: map<Id, Act>,
    edges: map<Edge, EdgePlace>, ticket: map<Task, Ticket>, called: set<Task>, submitted: set<Task>, runs: map<Task, nat>)

  const START_EXEC: Exec :=
    Exec(map[], map[], map[], map[], map[], map[], {}, map[], 0, false, false, [], [], map[], map[], map[], {}, {}, map[])

  function St(s: Exec, x: Task): TaskState { if x in s.state then s.state[x] else Created }
  function Deps(s: Exec, x: Task): set<Task> { if x in s.deps then s.deps[x] else {} }
  function Count(s: Exec, x: Task): int { if x in s.count then s.count[x] else 0 }
  function Depended(s: Exec, d: Task): seq<Edge> { if d in s.depended then s.depended[d] else [] }
  function Trigs(s: Exec, x: Task): set<Task> { if x in s.trigs then s.trigs[x] else {} }
  function Triggered(s: Exec, r: Task): seq<Task> { if r in s.triggered then s.triggered[r] else [] }
  function Runs(s: Exec, x: Task): nat { if x in s.runs then s.runs[x] else 0 }

  /** The three ways IsReadyToEnque answers yes. */
  predicate TriggerReady(s: Exec, x: Task) { Trigs(s, x) != {} && x in s.flag }
  predicate NoConditions(s: Exec, x: Task) { Trigs(s, x) == {} && Deps(s, x) == {} && x !in s.start }
  predicate CountReady(s: Exec, x: Task) { (Deps(s, x) != {} && Count(s, x) == 0) || NoConditions(s, x) }

  // ---------------------------------------------------------------------------
  // Steps of an activity
  // ---------------------------------------------------------------------------

  /** All that the activity a does to the state and the runs of x. */
  ghost predicate Tame(s: Exec, a: Act, s': Exec, x: Task) {
    && (St(s', x) == St(s, x) || (a.SetState? && a.x == x && St(s', x) == a.target)
        || (a == SubmitCas(x) && St(s, x).Created? && St(s', x).Submitted?)
        || (a == EnqueCas(x) && St(s, x).Submitted? && St(s', x).Enqueued?))
    && (Runs(s', x) == Runs(s, x) || a == Body(x))
    && (forall j :: j in s'.pool && s'.pool[j] == Body(x) ==>
          (j in s.pool && s.pool[j] == Body(x)) || (a == CheckRun(x) && !St(s, x).Canceled?))
  }

  /** The timers and what they are about stay. */
  predicate Untimed(s: Exec, s': Exec) {
    s'.start == s.start && s'.called == s.called && s'.timers == s.timers
  }

  /** The clock and the two closed flags stay. */
  predicate Unclocked(s: Exec, s': Exec) {
    s'.now == s.now && s'.closed == s.closed && s'.timersClosed == s.timersClosed
  }

  function Becomes(s: Exec, id: Id, a: Act): Exec { s.(pool := s.pool[id := a]) }

  function Ends(s: Exec, id: Id): Exec { s.(pool := s.pool - {id}) }

  function DoNotify(s: Exec, id: Id, x: Task, spawned: Id): (r: Exec)
    ensures (forall y :: Tame(s, Notify(x), r, y)) && Untimed(s, r) && Unclocked(s, r)
  {
    if Depended(s, x) != [] then
      var e := Depended(s, x)[0];
      s.(depended := s.depended[x := Depended(s, x)[1..]], edges := s.edges[e := Flying(spawned)],
         pool := s.pool[spawned := Decrement(e)])
    else if Triggered(s, x) != [] then
      s.(triggered := s.triggered[x := Triggered(s, x)[1..]], pool := s.pool[spawned := Fire(Triggered(s, x)[0], x)])
    else Ends(s, id)
  }

  function DoDecrement(s: Exec, id: Id, e: Edge): (r: Exec)
    ensures (forall y :: Tame(s, Decrement(e), r, y)) && Untimed(s, r) && Unclocked(s, r)
  {
    Becomes(s, id, ReadState(e.x)).(count := s.count[e.x := Count(s, e.x) - 1], edges := s.edges - {e})
  }

  function DoSubmitCas(s: Exec, id: Id, x: Task): (r: Exec)
    ensures (forall y :: Tame(s, SubmitCas(x), r, y)) && Untimed(s, r) && Unclocked(s, r)
  {
    if St(s, x).Created? then
      Becomes(s, id, ReadState(x)).(state := s.state[x := Submitted], submitted := s.submitted + {x})
    else Ends(s, id)
  }

  function DoEnqueCas(s: Exec, id: Id, x: Task): (r: Exec)
    ensures (forall y :: Tame(s, EnqueCas(x), r, y)) && Untimed(s, r) && Unclocked(s, r)
  {
    if St(s, x).Submitted? then
      Becomes(s, id, PushCheck(x)).(state := s.state[x := Enqueued], ticket := s.ticket[x := With(id)])
    else Ends(s, id)
  }

  function DoPushCheck(s: Exec, id: Id, x: Task): (r: Exec)
    ensures (forall y :: Tame(s, PushCheck(x), r, y)) && Untimed(s, r) && Unclocked(s, r)
  {
    if s.closed then Becomes(s, id, SetState(x, Canceled)).(ticket := s.ticket[x := Spent]) else Becomes(s, id, PushIn(x))
  }

  function DoCheckRun(s: Exec, id: Id, x: Task): (r: Exec)
    ensures (forall y :: Tame(s, CheckRun(x), r, y)) && Untimed(s, r) && Unclocked(s, r)
  {
    if St(s, x).Canceled? then Ends(s, id).(ticket := s.ticket[x := Spent]) else Becomes(s, id, Body(x))
  }

  function DoBody(s: Exec, id: Id, x: Task, throws: bool): (r: Exec)
    ensures (forall y :: Tame(s, Body(x), r, y)) && Untimed(s, r) && Unclocked(s, r)
  {
    Becomes(s, id, SetState(x, if throws then Failed else Completed))
      .(runs := s.runs[x := Runs(s, x) + 1], ticket := s.ticket[x := Spent])
  }

  function DoTimerPush(s: Exec, id: Id, x: Task): (r: Exec)
    ensures (forall y :: Tame(s, TimerPush(x), r, y)) && Unclocked(s, r)
  {
    if s.timersClosed then Becomes(s, id, SetState(x, Canceled)) else Ends(s, id).(timers := s.timers + [x])
  }

  /** What the environment chooses: an unused id for a spawned activity, whether the body throws. */
  datatype Choice = Choice(spawned: Id, throws: bool)

  /** Submit looks at the time trigger after its CAS on the state, so the task is not Created any more. */
  predicate CanGo(s: Exec, id: Id, c: Choice) {
    id in s.pool && c.spawned !in s.pool && (s.pool[id].TimerCheck? ==> !St(s, s.pool[id].x).Created?)
  }

  predicate SubmitAct(a: Act) { a.SubmitCas? || a.ReadState? || a.ReadTrigger? || a.ReadCount? || a.EnqueCas? }

  predicate FinishAct(a: Act) { a.SetState? || a.Notify? || a.Decrement? || a.Fire? }

  function GoSubmit(s: Exec, id: Id, a: Act): (r: Exec)
    requires SubmitAct(a)
    ensures (forall y :: Tame(s, a, r, y)) && Untimed(s, r) && Unclocked(s, r)
  {
    match a
    case SubmitCas(x) => DoSubmitCas(s, id, x)
    case ReadState(x) => if St(s, x).Submitted? then Becomes(s, id, ReadTrigger(x)) else Ends(s, id)
    case ReadTrigger(x) => Becomes(s, id, if TriggerReady(s, x) then EnqueCas(x) else ReadCount(x))
    case ReadCount(x) => if CountReady(s, x) then Becomes(s, id, EnqueCas(x)) else Ends(s, id)
    case EnqueCas(x) => DoEnqueCas(s, id, x)
  }

  function GoFinish(s: Exec, id: Id, a: Act, spawned: Id): (r: Exec)
    requires FinishAct(a)
    ensures (forall y :: Tame(s, a, r, y)) && Untimed(s, r) && Unclocked(s, r)
  {
    match a
    case SetState(x, target) => Becomes(s, id, Notify(x)).(state := s.state[x := target])
    case Notify(x) => DoNotify(s, id, x, spawned)
    case Decrement(e) => DoDecrement(s, id, e)
    case Fire(x, _) => Becomes(s, id, ReadState(x)).(flag := s.flag + {x})
  }

  function GoCarrier(s: Exec, id: Id, a: Act, throws: bool): (r: Exec)
    requires a.Carrier()
    ensures (forall y :: Tame(s, a, r, y)) && Untimed(s, r) && Unclocked(s, r)
  {
    match a
    case PushCheck(x) => DoPushCheck(s, id, x)
    case PushIn(x) => Ends(s, id).(queue := s.queue + [x], ticket := s.ticket[x := Queued])
    case CheckRun(x) => DoCheckRun(s, id, x)
    case Body(x) => DoBody(s, id, x, throws)
  }

  function GoTimer(s: Exec, id: Id, a: Act): (r: Exec)
    requires a.TimerCheck? || a.TimerPush? || a.TimerWake?
    ensures (forall y :: Tame(s, a, r, y)) && Unclocked(s, r)
  {
    match a
    case TimerCheck(x) =>
      if St(s, x).Enqueued? || St(s, x).Finished() || x !in s.start then Ends(s, id) else Becomes(s, id, TimerPush(x))
    case TimerPush(x) => DoTimerPush(s, id, x)
    case TimerWake(x) => if St(s, x).Canceled? then Ends(s, id) else Becomes(s, id, EnqueCas(x))
  }

  function Go(s: Exec, id: Id, c: Choice): (r: Exec)
    requires CanGo(s, id, c)
    ensures (forall y :: Tame(s, s.pool[id], r, y)) && Unclocked(s, r)
  {
    var a := s.pool[id];
    if SubmitAct(a) then GoSubmit(s, id, a)
    else if FinishAct(a) then GoFinish(s, id, a, c.spawned)
    else if a.Carrier() then GoCarrier(s, id, a, c.throws)
    else GoTimer(s, id, a)
  }

  // ---------------------------------------------------------------------------
  // Steps from outside
  // ---------------------------------------------------------------------------

  datatype Step =
    | AddDependency(x: Task, d: Task, n: nat)
    | AddTrigger(x: Task, r: Task)
    | SetTimeTrigger(x: Task, at: int)
    | Submit(x: Task, id: Id, id2: Id)
    | Cancel(x: Task, id: Id)
    | Pop(id: Id)
    | TimerPop(i: nat, id: Id)
    | Close
    | CloseTimers
    | Tick(later: int)
    | Run(id: Id, c: Choice)

  /** Dependencies and triggers are attached before Submit. */
  predicate Enabled(s: Exec, step: Step) {
    match step
    case AddDependency(x, d, n) => x !in s.called && Edge(x, d, n) !in s.edges
    case AddTrigger(x, _) => x !in s.called
    case SetTimeTrigger(x, _) => x !in s.called
    case Submit(_, id, id2) => id !in s.pool && id2 !in s.pool && id != id2
    case Cancel(_, id) => id !in s.pool
    case Pop(id) => id !in s.pool && s.queue != []
    case TimerPop(i, id) => id !in s.pool && i < |s.timers| && s.timers[i] in s.start && s.start[s.timers[i]] <= s.now
    case Close => true
    case CloseTimers => true
    case Tick(later) => later >= s.now
    case Run(id, c) => CanGo(s, id, c)
  }

  function DoAddDependency(s: Exec, x: Task, d: Task, n: nat): Exec {
    var open := !St(s, d).Finished();
    s.(deps := s.deps[x := Deps(s, x) + {d}],
       count := if open then s.count[x := Count(s, x) + 1] else s.count,
       depended := if open then s.depended[d := Depended(s, d) + [Edge(x, d, n)]] else s.depended,
       edges := if open then s.edges[Edge(x, d, n) := Listed] else s.edges)
  }

  function DoAddTrigger(s: Exec, x: Task, r: Task): Exec {
    var open := !St(s, r).Finished();
    s.(trigs := s.trigs[x := Trigs(s, x) + {r}],
       flag := if open then s.flag else s.flag + {x},
       triggered := if open then s.triggered[r := Triggered(s, r) + [x]] else s.triggered)
  }

  function DoPop(s: Exec, id: Id): Exec
    requires s.queue != []
  {
    var x := s.queue[0];
    Becomes(s, id, CheckRun(x)).(queue := s.queue[1..], ticket := s.ticket[x := With(id)])
  }

  function Next(s: Exec, step: Step): Exec
    requires Enabled(s, step)
  {
    match step
    case AddDependency(x, d, n) => DoAddDependency(s, x, d, n)
    case AddTrigger(x, r) => DoAddTrigger(s, x, r)
    case SetTimeTrigger(x, at) => s.(start := s.start[x := at])
    case Submit(x, id, id2) => Becomes(Becomes(s, id, SubmitCas(x)), id2, TimerCheck(x)).(called := s.called + {x})
    case Cancel(x, id) => Becomes(s, id, SetState(x, Canceled))
    case Pop(id) => DoPop(s, id)
    case TimerPop(i, id) => Becomes(s, id, TimerWake(s.timers[i])).(timers := s.timers[..i] + s.timers[i + 1..])
    case Close => s.(closed := true)
    case CloseTimers => s.(timersClosed := true)
    case Tick(later) => s.(now := later)
    case Run(id, c) => Go(s, id, c)
  }

  // ---------------------------------------------------------------------------
  // The invariants
  // ---------------------------------------------------------------------------

  ghost predicate NoRepeats<T>(q: seq<T>) {
    forall i, j :: 0 <= i < j < |q| ==> q[i] != q[j]
  }

  ghost function EdgesOf(edges: map<Edge, EdgePlace>, x: Task): set<Edge> {
    set e | e in edges && e.x == x
  }

  predicate EdgePlaced(s: Exec, e: Edge) {
    && e in s.edges
    && (s.edges[e].Listed? ==> e in Depended(s, e.d))
    && (s.edges[e].Flying? ==> s.edges[e].id in s.pool && s.pool[s.edges[e].id] == Decrement(e))
  }

  predicate ListPlaced(s: Exec, d: Task, e: Edge) {
    e.d == d && e in s.edges && s.edges[e].Listed?
  }

  /** Every dependency still counted is in one list or with one activity. */
  ghost predicate EdgesInv(s: Exec) {
    && (forall e :: e in s.edges ==> EdgePlaced(s, e))
    && (forall d, e :: e in Depended(s, d) ==> ListPlaced(s, d, e))
    && (forall d :: NoRepeats(Depended(s, d)))
    && (forall id :: id in s.pool && s.pool[id].Decrement? ==>
          s.pool[id].e in s.edges && s.edges[s.pool[id].e] == Flying(id))
  }

  /** The counter is the number of dependencies still counted. */
  ghost predicate CountInv(s: Exec) {
    forall x :: Count(s, x) == |EdgesOf(s.edges, x)|
  }

  ghost predicate Blocked(s: Exec, x: Task, d: Task) {
    exists e :: e in s.edges && e.x == x && e.d == d
  }

  /** An unfinished dependency is counted. */
  ghost predicate DepsInv(s: Exec) {
    && (forall x, d :: d in Deps(s, x) && !St(s, d).Finished() ==> Blocked(s, x, d))
    && (forall e :: e in s.edges && s.edges[e].Flying? ==> St(s, e.d).Finished())
  }

  ghost predicate EdgeDeclared(s: Exec) {
    forall e :: e in s.edges ==> e.d in Deps(s, e.x)
  }

  ghost predicate Firing(s: Exec, x: Task, r: Task) {
    exists id :: id in s.pool && s.pool[id] == Fire(x, r)
  }

  ghost predicate TriggerDone(s: Exec, x: Task) {
    exists r :: r in Trigs(s, x) && St(s, r).Finished()
  }

  /** A trigger has fired, will be told, or is being told; the flag is up only if one has finished. */
  ghost predicate TrigsInv(s: Exec) {
    && (forall x, r :: r in Trigs(s, x) ==> x in s.flag || x in Triggered(s, r) || Firing(s, x, r))
    && (forall x, r :: x in Triggered(s, r) ==> r in Trigs(s, x))
    && (forall id :: id in s.pool && s.pool[id].Fire? ==>
          s.pool[id].cause in Trigs(s, s.pool[id].x) && St(s, s.pool[id].cause).Finished())
    && (forall x :: x in s.flag ==> TriggerDone(s, x))
  }

  ghost predicate Notifying(s: Exec, d: Task) {
    exists id :: id in s.pool && s.pool[id] == Notify(d)
  }

  /** A finished task has told everyone, or an activity is doing so. */
  ghost predicate NotifyInv(s: Exec) {
    && (forall d :: St(s, d).Finished() ==> Told(s, d) || Notifying(s, d))
    && (forall id :: id in s.pool && s.pool[id].Notify? ==> St(s, s.pool[id].x).Finished())
  }

  predicate Told(s: Exec, d: Task) {
    Depended(s, d) == [] && Triggered(s, d) == []
  }

  predicate Helpful(a: Act, x: Task, countReady: bool) {
    a == ReadState(x) || a == ReadTrigger(x) || a == EnqueCas(x) || (a == ReadCount(x) && countReady)
  }

  ghost predicate Helped(s: Exec, x: Task) {
    exists id :: id in s.pool && Helpful(s.pool[id], x, CountReady(s, x))
  }

  predicate Waiting(s: Exec, x: Task) {
    St(s, x).Submitted? && (TriggerReady(s, x) || CountReady(s, x))
  }

  /** A submitted task that is ready has an activity that will find out. */
  ghost predicate HelpInv(s: Exec) {
    forall x :: Waiting(s, x) ==> Helped(s, x)
  }

  predicate CarrierOk(s: Exec, id: Id) {
    id in s.pool && s.pool[id].Carrier() ==> s.pool[id].x in s.ticket && s.ticket[s.pool[id].x] == With(id)
  }

  predicate TicketOk(s: Exec, x: Task) {
    && (x in s.ticket ==> St(s, x).Enqueued? || St(s, x).Finished())
    && Runs(s, x) <= 1 && (Runs(s, x) == 1 ==> x in s.ticket && s.ticket[x].Spent?)
  }

  predicate SetOk(s: Exec, id: Id) {
    id in s.pool && s.pool[id].SetState? ==>
      s.pool[id].target.Finished() && (!s.pool[id].target.Canceled? ==> Runs(s, s.pool[id].x) == 1)
  }

  /** One right to run per task, created by the CAS to Enqueued and used up by the body. */
  ghost predicate TicketInv(s: Exec) {
    && (forall id :: CarrierOk(s, id)) && (forall id :: SetOk(s, id)) && (forall x :: TicketOk(s, x))
    && NoRepeats(s.queue) && (forall x :: x in s.queue ==> x in s.ticket && s.ticket[x].Queued?)
  }

  ghost predicate DepsDone(s: Exec, x: Task) {
    Deps(s, x) != {} && forall d :: d in Deps(s, x) ==> St(s, d).Finished()
  }

  predicate TimeCame(s: Exec, x: Task) {
    x in s.start && s.start[x] <= s.now
  }

  /** The condition for running a task holds. */
  ghost predicate Justified(s: Exec, x: Task) {
    TriggerDone(s, x) || DepsDone(s, x) || NoConditions(s, x) || TimeCame(s, x)
  }

  predicate Past(a: Act) {
    a.SubmitCas? || a.ReadTrigger? || a.ReadCount? || a.EnqueCas? || a.TimerCheck? || a.TimerPush? || a.TimerWake?
  }

  ghost predicate ActOk(s: Exec, id: Id) {
    id in s.pool ==>
      var a := s.pool[id];
      (Past(a) ==> a.x in s.called) && (a.EnqueCas? ==> Justified(s, a.x)) && (a.TimerWake? ==> TimeCame(s, a.x))
  }

  /** Only submitted tasks get past the first check, and only with their condition met. */
  ghost predicate JustInv(s: Exec) {
    && (forall id :: ActOk(s, id))
    && (forall x :: x in s.ticket ==> Justified(s, x) && x in s.submitted)
    && (forall x :: x in s.submitted ==> x in s.called)
    && (forall x :: St(s, x).Submitted? || St(s, x).Enqueued? ==> x in s.submitted)
    && (forall i :: 0 <= i < |s.timers| ==> s.timers[i] in s.called)
  }

  ghost predicate Inv(s: Exec) {
    EdgesInv(s) && CountInv(s) && DepsInv(s) && EdgeDeclared(s) && TrigsInv(s) && NotifyInv(s) && HelpInv(s)
    && TicketInv(s) && JustInv(s)
  }

  lemma StartInv()
    ensures Inv(START_EXEC)
  {
    forall x ensures EdgesOf(START_EXEC.edges, x) == {} { }
  }

  // ---------------------------------------------------------------------------
  // Frames: at most the activity id changes
  // ---------------------------------------------------------------------------

  ghost predicate Only(s: Exec, s': Exec, id: Id) {
    && (forall j :: j != id && j in s.pool ==> j in s'.pool && s'.pool[j] == s.pool[j])
    && (forall j :: j != id && j in s'.pool ==> j in s.pool)
  }

  /** Finished tasks stay finished. */
  ghost predicate Lasting(s: Exec, s': Exec) {
    forall x :: St(s, x).Finished() ==> St(s', x).Finished()
  }

  lemma EdgesKept(s: Exec, s': Exec, id: Id)
    requires EdgesInv(s) && Only(s, s', id) && s'.edges == s.edges && s'.depended == s.depended
    requires (id in s.pool ==> !s.pool[id].Decrement?) && (id in s'.pool ==> !s'.pool[id].Decrement?)
    ensures EdgesInv(s')
  {
    forall e | e in s'.edges ensures EdgePlaced(s', e) {
      assert EdgePlaced(s, e);
    }
    forall d, e | e in Depended(s', d) ensures ListPlaced(s', d, e) {
      assert ListPlaced(s, d, e);
    }
    forall d ensures NoRepeats(Depended(s', d)) {
      assert NoRepeats(Depended(s, d));
    }
  }

  lemma CountKept(s: Exec, s': Exec)
    requires CountInv(s) && s'.edges == s.edges && s'.count == s.count
    ensures CountInv(s')
  {
    forall x ensures Count(s', x) == |EdgesOf(s'.edges, x)| {
      assert Count(s, x) == |EdgesOf(s.edges, x)|;
    }
  }

  lemma DepsKept(s: Exec, s': Exec)
    requires DepsInv(s) && EdgeDeclared(s) && s'.edges == s.edges && s'.deps == s.deps && Lasting(s, s')
    ensures DepsInv(s') && EdgeDeclared(s')
  {
    forall x, d | d in Deps(s', x) && !St(s', d).Finished() ensures Blocked(s', x, d) {
      assert Blocked(s, x, d);
    }
  }

  lemma TriggerDoneStays(s: Exec, s': Exec, x: Task)
    requires TriggerDone(s, x) && Trigs(s, x) <= Trigs(s', x) && Lasting(s, s')
    ensures TriggerDone(s', x)
  {
    var r :| r in Trigs(s, x) && St(s, r).Finished();
    assert r in Trigs(s', x) && St(s', r).Finished();
  }

  lemma TrigsKept(s: Exec, s': Exec, id: Id)
    requires TrigsInv(s) && Only(s, s', id) && Lasting(s, s')
    requires s'.trigs == s.trigs && s'.triggered == s.triggered && s'.flag == s.flag
    requires (id in s.pool ==> !s.pool[id].Fire?) && (id in s'.pool ==> !s'.pool[id].Fire?)
    ensures TrigsInv(s')
  {
    forall x, r | r in Trigs(s', x) ensures x in s'.flag || x in Triggered(s', r) || Firing(s', x, r) {
      assert x in s.flag || x in Triggered(s, r) || Firing(s, x, r);
      if j :| j in s.pool && s.pool[j] == Fire(x, r) {
        assert s'.pool[j] == Fire(x, r);
      }
    }
    forall x | x in s'.flag ensures TriggerDone(s', x) {
      TriggerDoneStays(s, s', x);
    }
    forall x, r | x in Triggered(s', r) ensures r in Trigs(s', x) {
      assert x in Triggered(s, r);
      assert r in Trigs(s, x);
    }
  }

  lemma NotifyKept(s: Exec, s': Exec, id: Id)
    requires NotifyInv(s) && Only(s, s', id) && s'.depended == s.depended && s'.triggered == s.triggered
    requires (id in s.pool ==> !s.pool[id].Notify?) && (id in s'.pool ==> !s'.pool[id].Notify?)
    requires forall x :: St(s', x).Finished() <==> St(s, x).Finished()
    ensures NotifyInv(s')
  {
    forall d | St(s', d).Finished() ensures Told(s', d) || Notifying(s', d) {
      assert Told(s, d) || Notifying(s, d);
      if j :| j in s.pool && s.pool[j] == Notify(d) {
        assert s'.pool[j] == Notify(d);
      }
    }
  }

  /** Only task y may become ready or lose a helper, and it has one. */
  lemma HelpKept(s: Exec, s': Exec, id: Id, y: Task)
    requires HelpInv(s) && Only(s, s', id)
    requires forall x :: x != y && Waiting(s', x) ==> Waiting(s, x) && CountReady(s', x) == CountReady(s, x)
    requires id in s.pool ==> forall x :: x != y ==> !Helpful(s.pool[id], x, true)
    requires Waiting(s', y) ==> Helped(s', y)
    ensures HelpInv(s')
  {
    forall x | Waiting(s', x) ensures Helped(s', x) {
      if x != y {
        assert Helped(s, x);
        var j :| j in s.pool && Helpful(s.pool[j], x, CountReady(s, x));
        assert Helpful(s.pool[j], x, true);
        assert j != id;
        assert j in s'.pool && Helpful(s'.pool[j], x, CountReady(s', x));
      }
    }
  }

  /** Helpers of y other than the running activity keep helping. */
  lemma HelpOther(s: Exec, s': Exec, id: Id, y: Task)
    requires Helped(s, y) && Only(s, s', id) && CountReady(s', y) == CountReady(s, y)
    requires id in s.pool ==> !Helpful(s.pool[id], y, CountReady(s, y))
    ensures Helped(s', y)
  {
    var j :| j in s.pool && Helpful(s.pool[j], y, CountReady(s, y));
    assert j in s'.pool && Helpful(s'.pool[j], y, CountReady(s', y));
  }

  lemma TicketKept(s: Exec, s': Exec, id: Id)
    requires TicketInv(s) && Only(s, s', id) && s'.ticket == s.ticket && s'.runs == s.runs && s'.queue == s.queue
    requires CarrierOk(s', id) && SetOk(s', id) && forall x :: x in s.ticket ==> St(s', x).Enqueued? || St(s', x).Finished()
    ensures TicketInv(s')
  {
    forall j ensures CarrierOk(s', j) && SetOk(s', j) {
      assert CarrierOk(s, j) && SetOk(s, j);
    }
    forall x ensures TicketOk(s', x) {
      assert TicketOk(s, x);
    }
  }

  lemma JustifiedStays(s: Exec, s': Exec, x: Task)
    requires Justified(s, x) && Lasting(s, s') && s.now <= s'.now
    requires Trigs(s', x) == Trigs(s, x) && Deps(s', x) == Deps(s, x)
    requires (x in s.start <==> x in s'.start) && (x in s.start ==> s'.start[x] == s.start[x])
    ensures Justified(s', x)
  {
    if TriggerDone(s, x) {
      TriggerDoneStays(s, s', x);
    }
  }

  lemma JustKept(s: Exec, s': Exec, id: Id)
    requires JustInv(s) && Only(s, s', id) && Lasting(s, s') && s.now <= s'.now
    requires s'.trigs == s.trigs && s'.deps == s.deps && s'.start == s.start
    requires s.called <= s'.called && s.submitted <= s'.submitted <= s'.called
    requires forall x :: x in s'.ticket ==> x in s.ticket || (Justified(s, x) && x in s'.submitted)
    requires forall i :: 0 <= i < |s'.timers| ==> s'.timers[i] in s'.called
    requires ActOk(s', id)
    requires forall x :: St(s', x).Submitted? || St(s', x).Enqueued? ==> x in s'.submitted
    ensures JustInv(s')
  {
    forall j ensures ActOk(s', j) {
      assert ActOk(s, j);
      if j != id && j in s.pool && s.pool[j].EnqueCas? {
        JustifiedStays(s, s', s.pool[j].x);
      }
    }
    forall x | x in s'.ticket ensures Justified(s', x) && x in s'.submitted {
      JustifiedStays(s, s', x);
    }
  }

  // ---------------------------------------------------------------------------
  // Steps that only move an activity on
  // ---------------------------------------------------------------------------

  predicate Plain(a: Act) {
    !a.Decrement? && !a.Fire? && !a.Notify? && !a.Carrier() && (a.SetState? ==> a.target.Canceled?)
  }

  lemma MoveInv(s: Exec, s': Exec, id: Id)
    requires Inv(s) && Only(s, s', id) && s' == s.(pool := s'.pool)
    requires (id in s.pool ==> Plain(s.pool[id])) && (id in s'.pool ==> Plain(s'.pool[id]))
    requires ActOk(s', id) && HelpInv(s')
    ensures Inv(s')
  {
    EdgesKept(s, s', id);
    CountKept(s, s');
    DepsKept(s, s');
    TrigsKept(s, s', id);
    NotifyKept(s, s', id);
    TicketKept(s, s', id) by {
      forall x | x in s.ticket ensures St(s', x).Enqueued? || St(s', x).Finished() {
        assert TicketOk(s, x);
      }
    }
    JustKept(s, s', id);
  }

  lemma EndHelp(s: Exec, id: Id, s': Exec)
    requires HelpInv(s) && id in s.pool && s' == Ends(s, id)
    requires forall x :: Helpful(s.pool[id], x, CountReady(s, x)) ==> !Waiting(s, x)
    ensures HelpInv(s')
  {
    forall x | Waiting(s', x) ensures Helped(s', x) {
      HelpOther(s, s', id, x);
    }
  }

  lemma EndInv(s: Exec, id: Id)
    requires Inv(s) && id in s.pool && Plain(s.pool[id])
    requires forall x :: Helpful(s.pool[id], x, CountReady(s, x)) ==> !Waiting(s, x)
    ensures Inv(Ends(s, id))
  {
    var s' := Ends(s, id);
    EndHelp(s, id, s');
    MoveInv(s, s', id);
  }

  lemma BecomeHelp(s: Exec, id: Id, a: Act, s': Exec)
    requires HelpInv(s) && s' == Becomes(s, id, a)
    requires id in s.pool ==> forall x :: Waiting(s, x) && Helpful(s.pool[id], x, CountReady(s, x)) ==> Helpful(a, x, CountReady(s, x))
    ensures HelpInv(s')
  {
    forall x | Waiting(s', x) ensures Helped(s', x) {
      if id in s.pool && Helpful(s.pool[id], x, CountReady(s, x)) {
        assert Helpful(s'.pool[id], x, CountReady(s', x));
      } else {
        HelpOther(s, s', id, x);
      }
    }
  }

  lemma BecomeInv(s: Exec, id: Id, a: Act)
    requires Inv(s) && (id in s.pool ==> Plain(s.pool[id])) && Plain(a) && ActOk(Becomes(s, id, a), id)
    requires id in s.pool ==> forall x :: Waiting(s, x) && Helpful(s.pool[id], x, CountReady(s, x)) ==> Helpful(a, x, CountReady(s, x))
    ensures Inv(Becomes(s, id, a))
  {
    var s' := Becomes(s, id, a);
    BecomeHelp(s, id, a, s');
    MoveInv(s, s', id);
  }

  // ---------------------------------------------------------------------------
  // Submitting
  // ---------------------------------------------------------------------------

  lemma ReadStateInv(s: Exec, id: Id, x: Task, s': Exec)
    requires Inv(s) && id in s.pool && s.pool[id] == ReadState(x)
    requires s' == if St(s, x).Submitted? then Becomes(s, id, ReadTrigger(x)) else Ends(s, id)
    ensures Inv(s')
  {
    if St(s, x).Submitted? { BecomeInv(s, id, ReadTrigger(x)); } else { EndInv(s, id); }
  }

  lemma ReadTriggerInv(s: Exec, id: Id, x: Task, s': Exec)
    requires Inv(s) && id in s.pool && s.pool[id] == ReadTrigger(x)
    requires s' == Becomes(s, id, if TriggerReady(s, x) then EnqueCas(x) else ReadCount(x))
    ensures Inv(s')
  {
    assert ActOk(s, id);
    if TriggerReady(s, x) {
      assert TriggerDone(s', x) by { TriggerDoneStays(s, s', x); }
      BecomeInv(s, id, EnqueCas(x));
    } else {
      BecomeInv(s, id, ReadCount(x));
    }
  }

  /** A counter at zero means that every dependency has finished. */
  lemma ZeroMeansDone(s: Exec, x: Task)
    requires CountInv(s) && DepsInv(s) && Deps(s, x) != {} && Count(s, x) == 0
    ensures DepsDone(s, x)
  {
    assert Count(s, x) == |EdgesOf(s.edges, x)|;
    forall d | d in Deps(s, x) ensures St(s, d).Finished() {
      if !St(s, d).Finished() {
        BlockedCounts(s, x, d);
      }
    }
  }

  lemma BlockedCounts(s: Exec, x: Task, d: Task)
    requires CountInv(s) && Blocked(s, x, d)
    ensures Count(s, x) > 0
  {
    var e :| e in s.edges && e.x == x && e.d == d;
    assert e in EdgesOf(s.edges, x);
    assert Count(s, x) == |EdgesOf(s.edges, x)|;
  }

  lemma CountJustifies(s: Exec, x: Task)
    requires Inv(s) && CountReady(s, x)
    ensures Justified(s, x)
  {
    if Deps(s, x) != {} && Count(s, x) == 0 {
      ZeroMeansDone(s, x);
    }
  }

  lemma ReadCountInv(s: Exec, id: Id, x: Task, s': Exec)
    requires Inv(s) && id in s.pool && s.pool[id] == ReadCount(x)
    requires s' == if CountReady(s, x) then Becomes(s, id, EnqueCas(x)) else Ends(s, id)
    ensures Inv(s')
  {
    if CountReady(s, x) {
      assert ActOk(s, id);
      CountJustifies(s, x);
      JustifiedStays(s, s', x);
      BecomeInv(s, id, EnqueCas(x));
    } else {
      EndInv(s, id);
    }
  }

  /** A state change of x that is not a finish. */
  lemma AdvanceInv(s: Exec, s': Exec, id: Id, x: Task)
    requires EdgesInv(s) && CountInv(s) && DepsInv(s) && EdgeDeclared(s) && TrigsInv(s) && NotifyInv(s)
    requires Only(s, s', id) && id in s.pool && Plain(s.pool[id])
    requires id in s'.pool && !s'.pool[id].Decrement? && !s'.pool[id].Fire? && !s'.pool[id].Notify?
    requires s'.edges == s.edges && s'.depended == s.depended && s'.count == s.count && s'.deps == s.deps
    requires s'.trigs == s.trigs && s'.triggered == s.triggered && s'.flag == s.flag
    requires !St(s, x).Finished() && !St(s', x).Finished() && forall y :: y != x ==> St(s', y) == St(s, y)
    ensures EdgesInv(s') && CountInv(s') && DepsInv(s') && EdgeDeclared(s') && TrigsInv(s') && NotifyInv(s')
  {
    EdgesKept(s, s', id);
    CountKept(s, s');
    DepsKept(s, s');
    TrigsKept(s, s', id);
    NotifyKept(s, s', id);
  }

  lemma SubmitCasHelp(s: Exec, s': Exec, id: Id, x: Task)
    requires HelpInv(s) && id in s.pool && s.pool[id] == SubmitCas(x) && St(s, x).Created? && s' == DoSubmitCas(s, id, x)
    ensures HelpInv(s')
  {
    assert Helpful(s'.pool[id], x, CountReady(s', x));
    HelpKept(s, s', id, x);
  }

  lemma SubmitCasTickets(s: Exec, s': Exec, id: Id, x: Task)
    requires TicketInv(s) && id in s.pool && s.pool[id] == SubmitCas(x) && St(s, x).Created? && s' == DoSubmitCas(s, id, x)
    ensures TicketInv(s')
  {
    forall y | y in s.ticket ensures St(s', y).Enqueued? || St(s', y).Finished() {
      assert TicketOk(s, y) && TicketOk(s, x);
    }
    TicketKept(s, s', id);
  }

  lemma SubmitCasJust(s: Exec, s': Exec, id: Id, x: Task)
    requires JustInv(s) && id in s.pool && s.pool[id] == SubmitCas(x) && St(s, x).Created? && s' == DoSubmitCas(s, id, x)
    ensures JustInv(s')
  {
    assert ActOk(s, id);
    JustKept(s, s', id);
  }

  lemma SubmitCasInv(s: Exec, id: Id, x: Task, s': Exec)
    requires Inv(s) && id in s.pool && s.pool[id] == SubmitCas(x) && s' == DoSubmitCas(s, id, x)
    ensures Inv(s')
  {
    if St(s, x).Created? {
      AdvanceInv(s, s', id, x);
      SubmitCasHelp(s, s', id, x);
      SubmitCasTickets(s, s', id, x);
      SubmitCasJust(s, s', id, x);
    } else {
      EndInv(s, id);
    }
  }

  lemma EnqueCasTickets(s: Exec, s': Exec, id: Id, x: Task)
    requires TicketInv(s) && JustInv(s) && id in s.pool && s.pool[id] == EnqueCas(x) && St(s, x).Submitted?
    requires s' == DoEnqueCas(s, id, x)
    ensures TicketInv(s')
  {
    assert TicketOk(s, x);
    forall j ensures CarrierOk(s', j) && SetOk(s', j) {
      assert CarrierOk(s, j) && SetOk(s, j);
    }
    forall y ensures TicketOk(s', y) {
      assert TicketOk(s, y);
    }
  }

  lemma EnqueCasJust(s: Exec, s': Exec, id: Id, x: Task)
    requires JustInv(s) && id in s.pool && s.pool[id] == EnqueCas(x) && St(s, x).Submitted? && s' == DoEnqueCas(s, id, x)
    ensures JustInv(s')
  {
    assert ActOk(s, id);
    JustKept(s, s', id);
  }

  lemma EnqueCasHelp(s: Exec, s': Exec, id: Id, x: Task)
    requires HelpInv(s) && id in s.pool && s.pool[id] == EnqueCas(x) && St(s, x).Submitted? && s' == DoEnqueCas(s, id, x)
    ensures HelpInv(s')
  {
    HelpKept(s, s', id, x);
  }

  /** The CAS that decides who enqueues. */
  lemma EnqueCasInv(s: Exec, id: Id, x: Task, s': Exec)
    requires Inv(s) && id in s.pool && s.pool[id] == EnqueCas(x) && s' == DoEnqueCas(s, id, x)
    ensures Inv(s')
  {
    if St(s, x).Submitted? {
      AdvanceInv(s, s', id, x);
      EnqueCasTickets(s, s', id, x);
      EnqueCasJust(s, s', id, x);
      EnqueCasHelp(s, s', id, x);
    } else {
      EndInv(s, id);
    }
  }

  // ---------------------------------------------------------------------------
  // Finishing
  // ---------------------------------------------------------------------------

  lemma SetStateNotify(s: Exec, s': Exec, id: Id, x: Task)
    requires NotifyInv(s) && Only(s, s', id) && s'.depended == s.depended && s'.triggered == s.triggered
    requires id in s.pool && s.pool[id].SetState? && id in s'.pool && s'.pool[id] == Notify(x) && St(s', x).Finished()
    requires forall y :: y != x ==> St(s', y) == St(s, y)
    ensures NotifyInv(s')
  {
    forall d | St(s', d).Finished() ensures Told(s', d) || Notifying(s', d) {
      if d == x {
        assert s'.pool[id] == Notify(d);
      } else {
        assert Told(s, d) || Notifying(s, d);
        if j :| j in s.pool && s.pool[j] == Notify(d) {
          assert s'.pool[j] == Notify(d);
        }
      }
    }
  }

  lemma SetStateHelp(s: Exec, s': Exec, id: Id, x: Task)
    requires HelpInv(s) && id in s.pool && s.pool[id].SetState? && s.pool[id].x == x
    requires s' == Becomes(s, id, Notify(x)).(state := s.state[x := s.pool[id].target]) && St(s', x).Finished()
    ensures HelpInv(s')
  {
    HelpKept(s, s', id, x);
  }

  lemma SetStateTickets(s: Exec, s': Exec, id: Id, x: Task)
    requires TicketInv(s) && JustInv(s) && id in s.pool && s.pool[id].SetState? && s.pool[id].x == x
    requires s' == Becomes(s, id, Notify(x)).(state := s.state[x := s.pool[id].target]) && St(s', x).Finished()
    ensures TicketInv(s') && JustInv(s')
  {
    forall y | y in s.ticket ensures St(s', y).Enqueued? || St(s', y).Finished() {
      assert TicketOk(s, y);
    }
    TicketKept(s, s', id);
    JustKept(s, s', id);
  }

  /** Complete, Fail and Cancel write the state, then start to notify. */
  lemma SetStateInv(s: Exec, id: Id, x: Task, s': Exec)
    requires Inv(s) && id in s.pool && s.pool[id].SetState? && s.pool[id].x == x
    requires s' == Becomes(s, id, Notify(x)).(state := s.state[x := s.pool[id].target])
    ensures Inv(s')
  {
    assert SetOk(s, id);
    EdgesKept(s, s', id);
    CountKept(s, s');
    DepsKept(s, s');
    TrigsKept(s, s', id);
    SetStateNotify(s, s', id, x);
    SetStateHelp(s, s', id, x);
    SetStateTickets(s, s', id, x);
  }

  /** A new activity that helps nobody yet. */
  lemma SpawnRest(s: Exec, s': Exec, id: Id)
    requires HelpInv(s) && TicketInv(s) && JustInv(s) && Only(s, s', id) && id !in s.pool
    requires s'.state == s.state && s'.deps == s.deps && s'.count == s.count && s'.trigs == s.trigs && s'.flag == s.flag
    requires s'.start == s.start && s'.now == s.now && s'.ticket == s.ticket && s'.runs == s.runs && s'.queue == s.queue
    requires s'.called == s.called && s'.submitted == s.submitted && s'.timers == s.timers
    requires id in s'.pool && (s'.pool[id].Decrement? || s'.pool[id].Fire?)
    ensures HelpInv(s') && TicketInv(s') && JustInv(s')
  {
    forall x | Waiting(s', x) ensures Helped(s', x) {
      assert Waiting(s, x);
      HelpOther(s, s', id, x);
    }
    forall y | y in s.ticket ensures St(s', y).Enqueued? || St(s', y).Finished() {
      assert TicketOk(s, y);
    }
    TicketKept(s, s', id);
    JustKept(s, s', id);
  }

  lemma RestOfList<T>(q: seq<T>)
    requires q != [] && NoRepeats(q)
    ensures NoRepeats(q[1..]) && q[0] in q && forall x :: x in q[1..] <==> x in q && x != q[0]
  {
    assert q == [q[0]] + q[1..];
  }

  /** The first dependency leaves the list and flies. */
  lemma TakeEdgeEdges(s: Exec, s': Exec, id: Id, x: Task, spawned: Id)
    requires EdgesInv(s) && Depended(s, x) != [] && spawned !in s.pool && s' == DoNotify(s, id, x, spawned)
    ensures EdgesInv(s')
  {
    var q, e0 := Depended(s, x), Depended(s, x)[0];
    assert NoRepeats(q);
    RestOfList(q);
    assert ListPlaced(s, x, e0);
    forall e | e in s'.edges ensures EdgePlaced(s', e) {
      assert EdgePlaced(s, e);
    }
    forall d, e | e in Depended(s', d) ensures ListPlaced(s', d, e) {
      assert e in Depended(s, d);
      assert ListPlaced(s, d, e);
    }
    forall d ensures NoRepeats(Depended(s', d)) {
      assert NoRepeats(Depended(s, d));
    }
  }

  lemma TakeEdgeDeps(s: Exec, s': Exec, id: Id, x: Task, spawned: Id)
    requires EdgesInv(s) && DepsInv(s) && EdgeDeclared(s) && CountInv(s) && Depended(s, x) != [] && St(s, x).Finished()
    requires s' == DoNotify(s, id, x, spawned)
    ensures DepsInv(s') && EdgeDeclared(s') && CountInv(s')
  {
    var e0 := Depended(s, x)[0];
    assert e0 in Depended(s, x);
    assert ListPlaced(s, x, e0);
    forall y, d | d in Deps(s', y) && !St(s', d).Finished() ensures Blocked(s', y, d) {
      assert Blocked(s, y, d);
      var e :| e in s.edges && e.x == y && e.d == d;
      assert e in s'.edges;
    }
    forall y ensures Count(s', y) == |EdgesOf(s'.edges, y)| {
      assert EdgesOf(s'.edges, y) == EdgesOf(s.edges, y);
      assert Count(s, y) == |EdgesOf(s.edges, y)|;
    }
  }

  lemma TakeNotify(s: Exec, s': Exec, id: Id, x: Task, spawned: Id)
    requires NotifyInv(s) && Only(s, s', spawned) && id in s.pool && s.pool[id] == Notify(x) && spawned !in s.pool
    requires s'.state == s.state && (forall d :: d != x && Told(s, d) ==> Told(s', d)) && spawned in s'.pool && !s'.pool[spawned].Notify?
    ensures NotifyInv(s')
  {
    forall d | St(s', d).Finished() ensures Told(s', d) || Notifying(s', d) {
      if d == x {
        assert s'.pool[id] == Notify(d);
      } else {
        assert Told(s, d) || Notifying(s, d);
        if j :| j in s.pool && s.pool[j] == Notify(d) {
          assert s'.pool[j] == Notify(d);
        }
      }
    }
  }

  lemma TakeTrigs(s: Exec, s': Exec, id: Id, x: Task, spawned: Id)
    requires TrigsInv(s) && id in s.pool && spawned !in s.pool && St(s, x).Finished()
    requires Depended(s, x) == [] && Triggered(s, x) != [] && s' == DoNotify(s, id, x, spawned)
    ensures TrigsInv(s')
  {
    var q, y0 := Triggered(s, x), Triggered(s, x)[0];
    assert q == [y0] + q[1..];
    assert y0 in Triggered(s, x);
    assert x in Trigs(s, y0);
    assert s'.pool[spawned] == Fire(y0, x);
    forall y, r | r in Trigs(s', y) ensures y in s'.flag || y in Triggered(s', r) || Firing(s', y, r) {
      assert y in s.flag || y in Triggered(s, r) || Firing(s, y, r);
      if j :| j in s.pool && s.pool[j] == Fire(y, r) {
        assert s'.pool[j] == Fire(y, r);
      }
      if r == x && y in Triggered(s, x) && y !in Triggered(s', x) {
        assert y == y0;
        assert s'.pool[spawned] == Fire(y, r);
      }
    }
    forall y, r | y in Triggered(s', r) ensures r in Trigs(s', y) {
      assert y in Triggered(s, r);
      assert r in Trigs(s, y);
    }
    forall y | y in s'.flag ensures TriggerDone(s', y) {
      TriggerDoneStays(s, s', y);
    }
  }

  lemma NotifyEnds(s: Exec, s': Exec, id: Id, x: Task)
    requires NotifyInv(s) && id in s.pool && s.pool[id] == Notify(x) && Told(s, x) && s' == Ends(s, id)
    ensures NotifyInv(s')
  {
    forall d | St(s', d).Finished() ensures Told(s', d) || Notifying(s', d) {
      assert Told(s, d) || Notifying(s, d);
      if d != x {
        if j :| j in s.pool && s.pool[j] == Notify(d) {
          assert s'.pool[j] == Notify(d);
        }
      }
    }
  }

  lemma NotifyDoneInv(s: Exec, s': Exec, id: Id, x: Task)
    requires Inv(s) && id in s.pool && s.pool[id] == Notify(x) && Told(s, x) && s' == Ends(s, id)
    ensures Inv(s')
  {
    EdgesKept(s, s', id);
    CountKept(s, s');
    DepsKept(s, s');
    TrigsKept(s, s', id);
    NotifyEnds(s, s', id, x);
    NotifyDoneRest(s, s', id, x);
  }

  lemma NotifyDoneRest(s: Exec, s': Exec, id: Id, x: Task)
    requires HelpInv(s) && TicketInv(s) && JustInv(s) && id in s.pool && s.pool[id] == Notify(x) && s' == Ends(s, id)
    ensures HelpInv(s') && TicketInv(s') && JustInv(s')
  {
    forall y | Waiting(s', y) ensures Helped(s', y) {
      assert Waiting(s, y);
      HelpOther(s, s', id, y);
    }
    forall y | y in s.ticket ensures St(s', y).Enqueued? || St(s', y).Finished() {
      assert TicketOk(s, y);
    }
    TicketKept(s, s', id);
    JustKept(s, s', id);
  }

  lemma NotifyStepInv(s: Exec, id: Id, x: Task, spawned: Id, s': Exec)
    requires Inv(s) && id in s.pool && s.pool[id] == Notify(x) && spawned !in s.pool && s' == DoNotify(s, id, x, spawned)
    ensures Inv(s')
  {
    if Depended(s, x) != [] {
      TakeEdgeInv(s, id, x, spawned, s');
    } else if Triggered(s, x) != [] {
      TakeTriggerInv(s, id, x, spawned, s');
    } else {
      NotifyDoneInv(s, s', id, x);
    }
  }

  lemma TakeEdgeInv(s: Exec, id: Id, x: Task, spawned: Id, s': Exec)
    requires Inv(s) && id in s.pool && s.pool[id] == Notify(x) && spawned !in s.pool && Depended(s, x) != []
    requires s' == DoNotify(s, id, x, spawned)
    ensures Inv(s')
  {
    TakeEdgeEdges(s, s', id, x, spawned);
    TakeEdgeDeps(s, s', id, x, spawned);
    TrigsKept(s, s', spawned);
    TakeNotify(s, s', id, x, spawned);
    SpawnRest(s, s', spawned);
  }

  lemma TakeTriggerInv(s: Exec, id: Id, x: Task, spawned: Id, s': Exec)
    requires Inv(s) && id in s.pool && s.pool[id] == Notify(x) && spawned !in s.pool
    requires Depended(s, x) == [] && Triggered(s, x) != [] && s' == DoNotify(s, id, x, spawned)
    ensures Inv(s')
  {
    EdgesKept(s, s', spawned);
    CountKept(s, s');
    DepsKept(s, s');
    TakeTrigs(s, s', id, x, spawned);
    TakeNotify(s, s', id, x, spawned);
    SpawnRest(s, s', spawned);
  }

  lemma DecrementEdges(s: Exec, s': Exec, id: Id, e0: Edge)
    requires EdgesInv(s) && id in s.pool && s.pool[id] == Decrement(e0) && s' == DoDecrement(s, id, e0)
    ensures EdgesInv(s')
  {
    forall e | e in s'.edges ensures EdgePlaced(s', e) {
      assert EdgePlaced(s, e);
    }
    forall d, e | e in Depended(s', d) ensures ListPlaced(s', d, e) {
      assert e in Depended(s, d);
      assert ListPlaced(s, d, e);
    }
    forall d ensures NoRepeats(Depended(s', d)) {
      assert NoRepeats(Depended(s, d));
    }
  }

  /** The counter is positive when it is decremented. */
  lemma CountPositive(s: Exec, id: Id, e: Edge)
    requires EdgesInv(s) && CountInv(s) && id in s.pool && s.pool[id] == Decrement(e)
    ensures Count(s, e.x) > 0
  {
    assert e in EdgesOf(s.edges, e.x);
    assert Count(s, e.x) == |EdgesOf(s.edges, e.x)|;
  }

  lemma DecrementCount(s: Exec, s': Exec, id: Id, e: Edge)
    requires CountInv(s) && e in s.edges && s' == DoDecrement(s, id, e)
    ensures CountInv(s')
  {
    forall y ensures Count(s', y) == |EdgesOf(s'.edges, y)| {
      assert Count(s, y) == |EdgesOf(s.edges, y)|;
      if y == e.x {
        assert EdgesOf(s'.edges, y) == EdgesOf(s.edges, y) - {e};
        assert e in EdgesOf(s.edges, y);
      } else {
        assert EdgesOf(s'.edges, y) == EdgesOf(s.edges, y);
      }
    }
  }

  lemma DecrementDeps(s: Exec, s': Exec, id: Id, e0: Edge)
    requires DepsInv(s) && EdgeDeclared(s) && e0 in s.edges && s.edges[e0].Flying? && s' == DoDecrement(s, id, e0)
    ensures DepsInv(s') && EdgeDeclared(s')
  {
    forall x, d | d in Deps(s', x) && !St(s', d).Finished() ensures Blocked(s', x, d) {
      assert Blocked(s, x, d);
      var e :| e in s.edges && e.x == x && e.d == d;
      assert e in s'.edges;
    }
  }

  /** A step that ends in TryToEnque of y. */
  lemma WakeRest(s: Exec, s': Exec, id: Id, y: Task)
    requires HelpInv(s) && TicketInv(s) && JustInv(s) && Only(s, s', id) && id in s.pool
    requires s.pool[id].Decrement? || s.pool[id].Fire?
    requires id in s'.pool && s'.pool[id] == ReadState(y)
    requires s'.state == s.state && s'.deps == s.deps && s'.trigs == s.trigs && s'.start == s.start && s'.now == s.now
    requires forall x :: x != y ==> Count(s', x) == Count(s, x) && (x in s'.flag <==> x in s.flag)
    requires s'.ticket == s.ticket && s'.runs == s.runs && s'.queue == s.queue
    requires s'.called == s.called && s'.submitted == s.submitted && s'.timers == s.timers
    ensures HelpInv(s') && TicketInv(s') && JustInv(s')
  {
    assert Helpful(s'.pool[id], y, CountReady(s', y));
    HelpKept(s, s', id, y);
    forall x | x in s.ticket ensures St(s', x).Enqueued? || St(s', x).Finished() {
      assert TicketOk(s, x);
    }
    TicketKept(s, s', id);
    JustKept(s, s', id);
  }

  lemma DecrementCounts(s: Exec, s': Exec, id: Id, e: Edge)
    requires EdgesInv(s) && CountInv(s) && DepsInv(s) && EdgeDeclared(s)
    requires id in s.pool && s.pool[id] == Decrement(e) && s' == DoDecrement(s, id, e)
    ensures EdgesInv(s') && CountInv(s') && DepsInv(s') && EdgeDeclared(s')
  {
    DecrementEdges(s, s', id, e);
    DecrementCount(s, s', id, e);
    DecrementDeps(s, s', id, e);
  }

  lemma DecrementRest(s: Exec, s': Exec, id: Id, e: Edge)
    requires TrigsInv(s) && NotifyInv(s) && HelpInv(s) && TicketInv(s) && JustInv(s)
    requires id in s.pool && s.pool[id] == Decrement(e) && s' == DoDecrement(s, id, e)
    ensures TrigsInv(s') && NotifyInv(s') && HelpInv(s') && TicketInv(s') && JustInv(s')
  {
    TrigsKept(s, s', id);
    NotifyKept(s, s', id);
    WakeRest(s, s', id, e.x);
  }

  lemma DecrementInv(s: Exec, id: Id, e: Edge, s': Exec)
    requires Inv(s) && id in s.pool && s.pool[id] == Decrement(e) && s' == DoDecrement(s, id, e)
    ensures Inv(s')
  {
    DecrementCounts(s, s', id, e);
    DecrementRest(s, s', id, e);
  }

  lemma FireTrigs(s: Exec, s': Exec, id: Id, x: Task)
    requires TrigsInv(s) && id in s.pool && s.pool[id].Fire? && s.pool[id].x == x
    requires s' == Becomes(s, id, ReadState(x)).(flag := s.flag + {x})
    ensures TrigsInv(s')
  {
    var r0 := s.pool[id].cause;
    assert r0 in Trigs(s, x) && St(s, r0).Finished();
    assert TriggerDone(s, x);
    forall y, r | r in Trigs(s', y) ensures y in s'.flag || y in Triggered(s', r) || Firing(s', y, r) {
      assert y in s.flag || y in Triggered(s, r) || Firing(s, y, r);
      if y != x {
        if j :| j in s.pool && s.pool[j] == Fire(y, r) {
          assert s'.pool[j] == Fire(y, r);
        }
      }
    }
    forall y | y in s'.flag ensures TriggerDone(s', y) {
      TriggerDoneStays(s, s', y);
    }
    forall y, r | y in Triggered(s', r) ensures r in Trigs(s', y) {
      assert y in Triggered(s, r);
      assert r in Trigs(s, y);
    }
  }

  lemma FireInv(s: Exec, id: Id, x: Task, s': Exec)
    requires Inv(s) && id in s.pool && s.pool[id].Fire? && s.pool[id].x == x
    requires s' == Becomes(s, id, ReadState(x)).(flag := s.flag + {x})
    ensures Inv(s')
  {
    EdgesKept(s, s', id);
    CountKept(s, s');
    DepsKept(s, s');
    FireTrigs(s, s', id, x);
    NotifyKept(s, s', id);
    WakeRest(s, s', id, x);
  }

  // ---------------------------------------------------------------------------
  // From the queue to the body
  // ---------------------------------------------------------------------------

  /** A step on the way from Enqueued to the body: only the ticket moves. */
  lemma CarryInv(s: Exec, s': Exec, id: Id)
    requires Inv(s) && Only(s, s', id) && TicketInv(s')
    requires s' == s.(pool := s'.pool, ticket := s'.ticket, runs := s'.runs, queue := s'.queue)
    requires s'.ticket.Keys <= s.ticket.Keys && (id in s.pool ==> s.pool[id].Carrier())
    requires id in s'.pool ==> s'.pool[id].Carrier() || s'.pool[id].SetState?
    ensures Inv(s')
  {
    EdgesKept(s, s', id);
    CountKept(s, s');
    DepsKept(s, s');
    TrigsKept(s, s', id);
    NotifyKept(s, s', id);
    CarryRest(s, s', id);
  }

  lemma CarryRest(s: Exec, s': Exec, id: Id)
    requires HelpInv(s) && JustInv(s) && Only(s, s', id)
    requires s' == s.(pool := s'.pool, ticket := s'.ticket, runs := s'.runs, queue := s'.queue)
    requires s'.ticket.Keys <= s.ticket.Keys && (id in s.pool ==> s.pool[id].Carrier())
    requires id in s'.pool ==> s'.pool[id].Carrier() || s'.pool[id].SetState?
    ensures HelpInv(s') && JustInv(s')
  {
    forall x | Waiting(s', x) ensures Helped(s', x) {
      assert Waiting(s, x);
      HelpOther(s, s', id, x);
    }
    JustKept(s, s', id);
  }

  /** The activity keeps, hands over or uses up the ticket of x. */
  lemma TicketMoves(s: Exec, s': Exec, id: Id, x: Task)
    requires TicketInv(s) && Only(s, s', id) && s'.state == s.state && x in s.ticket && x in s'.ticket
    requires s'.ticket == s.ticket[x := s'.ticket[x]] && CarrierOk(s', id) && SetOk(s', id) && TicketOk(s', x)
    requires forall y :: y != x ==> Runs(s', y) == Runs(s, y)
    requires Runs(s, x) <= Runs(s', x)
    requires s.ticket[x] == With(id) || s.ticket[x].Queued?
    requires NoRepeats(s'.queue) && forall y :: y in s'.queue ==> y in s'.ticket && s'.ticket[y].Queued?
    ensures TicketInv(s')
  {
    forall j ensures CarrierOk(s', j) && SetOk(s', j) {
      assert CarrierOk(s, j) && SetOk(s, j);
      assert TicketOk(s, x);
    }
    forall y ensures TicketOk(s', y) {
      assert TicketOk(s, y);
    }
  }

  lemma PushCheckInv(s: Exec, id: Id, x: Task, s': Exec)
    requires Inv(s) && id in s.pool && s.pool[id] == PushCheck(x) && s' == DoPushCheck(s, id, x)
    ensures Inv(s')
  {
    if s.closed { CarrierCancels(s, id, x, s'); } else { CarrierMoves(s, id, x, PushIn(x)); }
  }

  lemma PushInInv(s: Exec, id: Id, x: Task, s': Exec)
    requires Inv(s) && id in s.pool && s.pool[id] == PushIn(x)
    requires s' == Ends(s, id).(queue := s.queue + [x], ticket := s.ticket[x := Queued])
    ensures Inv(s')
  {
    assert CarrierOk(s, id) && TicketOk(s, x);
    assert x !in s.queue;
    TicketMoves(s, s', id, x);
    CarryInv(s, s', id);
  }

  /** The carrier goes on with the ticket in hand. */
  lemma CarrierMoves(s: Exec, id: Id, x: Task, a: Act)
    requires Inv(s) && id in s.pool && s.pool[id].Carrier() && s.pool[id].x == x && a.Carrier() && a.x == x
    ensures Inv(Becomes(s, id, a))
  {
    var s' := Becomes(s, id, a);
    assert CarrierOk(s, id);
    forall y | y in s.ticket ensures St(s', y).Enqueued? || St(s', y).Finished() {
      assert TicketOk(s, y);
    }
    TicketKept(s, s', id);
    CarryInv(s, s', id);
  }

  /** The carrier gives the ticket up. */
  lemma CarrierStops(s: Exec, id: Id, x: Task, s': Exec)
    requires Inv(s) && id in s.pool && s.pool[id].Carrier() && s.pool[id].x == x
    requires s' == Ends(s, id).(ticket := s.ticket[x := Spent])
    ensures Inv(s')
  {
    assert CarrierOk(s, id) && TicketOk(s, x);
    TicketMoves(s, s', id, x);
    CarryInv(s, s', id);
  }

  lemma CarrierCancels(s: Exec, id: Id, x: Task, s': Exec)
    requires Inv(s) && id in s.pool && s.pool[id].Carrier() && s.pool[id].x == x
    requires s' == Becomes(s, id, SetState(x, Canceled)).(ticket := s.ticket[x := Spent])
    ensures Inv(s')
  {
    assert CarrierOk(s, id) && TicketOk(s, x);
    TicketMoves(s, s', id, x);
    CarryInv(s, s', id);
  }

  lemma CheckRunInv(s: Exec, id: Id, x: Task, s': Exec)
    requires Inv(s) && id in s.pool && s.pool[id] == CheckRun(x) && s' == DoCheckRun(s, id, x)
    ensures Inv(s')
  {
    if St(s, x).Canceled? { CarrierStops(s, id, x, s'); } else { CarrierMoves(s, id, x, Body(x)); }
  }

  lemma BodyInv(s: Exec, id: Id, x: Task, throws: bool, s': Exec)
    requires Inv(s) && id in s.pool && s.pool[id] == Body(x) && s' == DoBody(s, id, x, throws)
    ensures Inv(s') && Runs(s, x) == 0
  {
    assert CarrierOk(s, id) && TicketOk(s, x);
    TicketMoves(s, s', id, x);
    CarryInv(s, s', id);
  }

  lemma PopInv(s: Exec, id: Id, s': Exec)
    requires Inv(s) && id !in s.pool && s.queue != [] && s' == DoPop(s, id)
    ensures Inv(s')
  {
    var x := s.queue[0];
    RestOfList(s.queue);
    assert TicketOk(s, x);
    TicketMoves(s, s', id, x);
    CarryInv(s, s', id);
  }

  // ---------------------------------------------------------------------------
  // Timers, flags and the setup of tasks
  // ---------------------------------------------------------------------------

  /** Timers, clock and the set of called tasks matter only to the justification. */
  lemma OutsideInv(s: Exec, s': Exec)
    requires Inv(s) && s.now <= s'.now && s.called <= s'.called
    requires s' == s.(timers := s'.timers, now := s'.now, called := s'.called, closed := s'.closed, timersClosed := s'.timersClosed)
    requires forall i :: 0 <= i < |s'.timers| ==> s'.timers[i] in s'.called
    ensures Inv(s')
  {
    OutsideLists(s, s');
    OutsideTickets(s, s');
    forall j ensures ActOk(s', j) {
      assert ActOk(s, j);
      if j in s.pool && s.pool[j].EnqueCas? { JustifiedStays(s, s', s.pool[j].x); }
    }
    forall x | x in s'.ticket ensures Justified(s', x) && x in s'.submitted {
      JustifiedStays(s, s', x);
    }
  }

  lemma OutsideLists(s: Exec, s': Exec)
    requires EdgesInv(s) && CountInv(s) && DepsInv(s) && EdgeDeclared(s) && TrigsInv(s) && NotifyInv(s)
    requires s' == s.(timers := s'.timers, now := s'.now, called := s'.called, closed := s'.closed, timersClosed := s'.timersClosed)
    ensures EdgesInv(s') && CountInv(s') && DepsInv(s') && EdgeDeclared(s') && TrigsInv(s') && NotifyInv(s')
  {
    var id := FreshId(s);
    EdgesKept(s, s', id);
    CountKept(s, s');
    DepsKept(s, s');
    TrigsKept(s, s', id);
    NotifyKept(s, s', id);
  }

  lemma OutsideTickets(s: Exec, s': Exec)
    requires HelpInv(s) && TicketInv(s)
    requires s' == s.(timers := s'.timers, now := s'.now, called := s'.called, closed := s'.closed, timersClosed := s'.timersClosed)
    ensures HelpInv(s') && TicketInv(s')
  {
    var id := FreshId(s);
    forall x | Waiting(s', x) ensures Helped(s', x) {
      assert Waiting(s, x);
      HelpOther(s, s', id, x);
    }
    forall y | y in s.ticket ensures St(s', y).Enqueued? || St(s', y).Finished() {
      assert TicketOk(s, y);
    }
    TicketKept(s, s', id);
  }

  lemma FreshId(s: Exec) returns (id: Id)
    ensures id !in s.pool
  {
    id := NotIn(s.pool.Keys);
    assert id !in s.pool.Keys;
  }

  lemma {:induction false} NotIn(ids: set<Id>) returns (id: Id)
    ensures forall j :: j in ids ==> j < id
    decreases |ids|
  {
    if ids == {} {
      id := 0;
    } else {
      var j :| j in ids;
      var k := NotIn(ids - {j});
      id := if j < k then k else j + 1;
      forall i | i in ids ensures i < id {
        assert i == j || i in ids - {j};
      }
    }
  }

  lemma TimerPushInv(s: Exec, id: Id, x: Task, s': Exec)
    requires Inv(s) && id in s.pool && s.pool[id] == TimerPush(x) && s' == DoTimerPush(s, id, x)
    ensures Inv(s')
  {
    assert ActOk(s, id);
    if s.timersClosed {
      BecomeInv(s, id, SetState(x, Canceled));
    } else {
      EndInv(s, id);
      OutsideInv(Ends(s, id), s');
    }
  }

  lemma TimerCheckInv(s: Exec, id: Id, x: Task, s': Exec)
    requires Inv(s) && id in s.pool && s.pool[id] == TimerCheck(x)
    requires s' == if St(s, x).Enqueued? || St(s, x).Finished() || x !in s.start then Ends(s, id) else Becomes(s, id, TimerPush(x))
    ensures Inv(s')
  {
    assert ActOk(s, id);
    if St(s, x).Enqueued? || St(s, x).Finished() || x !in s.start { EndInv(s, id); } else { BecomeInv(s, id, TimerPush(x)); }
  }

  lemma TimerWakeInv(s: Exec, id: Id, x: Task, s': Exec)
    requires Inv(s) && id in s.pool && s.pool[id] == TimerWake(x)
    requires s' == if St(s, x).Canceled? then Ends(s, id) else Becomes(s, id, EnqueCas(x))
    ensures Inv(s')
  {
    assert ActOk(s, id);
    if St(s, x).Canceled? { EndInv(s, id); } else { BecomeInv(s, id, EnqueCas(x)); }
  }

  lemma TimerPopInv(s: Exec, i: nat, id: Id, s': Exec)
    requires Inv(s) && Enabled(s, TimerPop(i, id)) && s' == Next(s, TimerPop(i, id))
    ensures Inv(s')
  {
    var s1 := s.(timers := s.timers[..i] + s.timers[i + 1..]);
    OutsideInv(s, s1);
    BecomeInv(s1, id, TimerWake(s.timers[i]));
  }

  /** A call starts a new activity. */
  lemma StartsInv(s: Exec, id: Id, a: Act, s': Exec)
    requires Inv(s) && id !in s.pool && s' == Becomes(s, id, a)
    requires (a.SetState? && a.target.Canceled?) || ((a.SubmitCas? || a.TimerCheck?) && a.x in s.called)
    ensures Inv(s')
  {
    BecomeInv(s, id, a);
  }

  lemma SubmitInv(s: Exec, x: Task, id: Id, id2: Id, s': Exec)
    requires Inv(s) && id !in s.pool && id2 !in s.pool && id != id2
    requires s' == Becomes(Becomes(s, id, SubmitCas(x)), id2, TimerCheck(x)).(called := s.called + {x})
    ensures Inv(s')
  {
    var s1 := s.(called := s.called + {x});
    OutsideInv(s, s1);
    var s2 := Becomes(s1, id, SubmitCas(x));
    StartsInv(s1, id, SubmitCas(x), s2);
    StartsInv(s2, id2, TimerCheck(x), s');
  }

  lemma CancelInv(s: Exec, x: Task, id: Id, s': Exec)
    requires Inv(s) && id !in s.pool && s' == Becomes(s, id, SetState(x, Canceled))
    ensures Inv(s')
  {
    StartsInv(s, id, SetState(x, Canceled), s');
  }

  /** Before Submit a task is not ready for anyone: it has no ticket and no one is past its first check. */
  lemma NotCalled(s: Exec, x: Task)
    requires TicketInv(s) && JustInv(s) && x !in s.called
    ensures x !in s.ticket && !Waiting(s, x)
    ensures forall id :: id in s.pool && s.pool[id].EnqueCas? ==> s.pool[id].x != x
    ensures forall id :: id in s.pool && s.pool[id].TimerWake? ==> s.pool[id].x != x
  {
    forall id | id in s.pool && (s.pool[id].EnqueCas? || s.pool[id].TimerWake?) ensures s.pool[id].x != x {
      assert ActOk(s, id);
    }
  }

  /** Attaching a condition to x leaves all other tasks alone. */
  lemma SetupRest(s: Exec, s': Exec, x: Task)
    requires HelpInv(s) && TicketInv(s) && JustInv(s) && x !in s.called
    requires s'.state == s.state && s'.pool == s.pool && s'.now == s.now && s'.ticket == s.ticket && s'.runs == s.runs
    requires s'.queue == s.queue && s'.called == s.called && s'.submitted == s.submitted && s'.timers == s.timers
    requires forall y :: y != x ==> SameConditions(s, s', y)
    ensures HelpInv(s') && TicketInv(s') && JustInv(s')
  {
    NotCalled(s, x);
    SetupHelp(s, s', x);
    var id := FreshId(s);
    forall y | y in s.ticket ensures St(s', y).Enqueued? || St(s', y).Finished() {
      assert TicketOk(s, y);
    }
    TicketKept(s, s', id);
    SetupJust(s, s', x);
  }

  predicate SameConditions(s: Exec, s': Exec, y: Task) {
    && Deps(s', y) == Deps(s, y) && Trigs(s', y) == Trigs(s, y) && Count(s', y) == Count(s, y)
    && (y in s'.flag <==> y in s.flag)
    && (y in s'.start <==> y in s.start) && (y in s.start ==> s'.start[y] == s.start[y])
  }

  lemma SetupHelp(s: Exec, s': Exec, x: Task)
    requires HelpInv(s) && !Waiting(s, x) && !St(s, x).Submitted? && s'.state == s.state && s'.pool == s.pool
    requires forall y :: y != x ==> SameConditions(s, s', y)
    ensures HelpInv(s')
  {
    var id := FreshId(s);
    forall y | Waiting(s', y) ensures Helped(s', y) {
      assert SameConditions(s, s', y);
      assert Waiting(s, y);
      HelpOther(s, s', id, y);
    }
  }

  lemma SetupJust(s: Exec, s': Exec, x: Task)
    requires JustInv(s) && x !in s.called && x !in s.ticket
    requires forall id :: id in s.pool && s.pool[id].EnqueCas? ==> s.pool[id].x != x
    requires forall id :: id in s.pool && s.pool[id].TimerWake? ==> s.pool[id].x != x
    requires s'.state == s.state && s'.pool == s.pool && s'.now == s.now && s'.ticket == s.ticket
    requires s'.called == s.called && s'.submitted == s.submitted && s'.timers == s.timers
    requires forall y :: y != x ==> SameConditions(s, s', y)
    ensures JustInv(s')
  {
    forall j ensures ActOk(s', j) {
      assert ActOk(s, j);
      if j in s.pool && (s.pool[j].EnqueCas? || s.pool[j].TimerWake?) {
        assert SameConditions(s, s', s.pool[j].x);
        if s.pool[j].EnqueCas? { JustifiedStays(s, s', s.pool[j].x); }
      }
    }
    forall y | y in s'.ticket ensures Justified(s', y) && y in s'.submitted {
      assert SameConditions(s, s', y);
      JustifiedStays(s, s', y);
    }
  }

  lemma SetTimeInv(s: Exec, x: Task, at: int, s': Exec)
    requires Inv(s) && x !in s.called && s' == s.(start := s.start[x := at])
    ensures Inv(s')
  {
    SetTimeLists(s, s');
    SetupRest(s, s', x);
  }

  lemma SetTimeLists(s: Exec, s': Exec)
    requires EdgesInv(s) && CountInv(s) && DepsInv(s) && EdgeDeclared(s) && TrigsInv(s) && NotifyInv(s)
    requires s' == s.(start := s'.start)
    ensures EdgesInv(s') && CountInv(s') && DepsInv(s') && EdgeDeclared(s') && TrigsInv(s') && NotifyInv(s')
  {
    var id := FreshId(s);
    EdgesKept(s, s', id);
    CountKept(s, s');
    DepsKept(s, s');
    TrigsKept(s, s', id);
    NotifyKept(s, s', id);
  }

  /** Effect of AddTrigger on the lists, read through their accessors. */
  ghost predicate TriggerAdded(s: Exec, s': Exec, x: Task, r: Task) {
    && s'.state == s.state && s'.pool == s.pool && s'.depended == s.depended
    && (forall y :: y != x ==> Trigs(s', y) == Trigs(s, y)) && Trigs(s', x) == Trigs(s, x) + {r}
    && (forall d :: d != r ==> Triggered(s', d) == Triggered(s, d))
    && (forall y :: y != x ==> (y in s'.flag <==> y in s.flag))
    && if St(s, r).Finished() then Triggered(s', r) == Triggered(s, r) && x in s'.flag
       else Triggered(s', r) == Triggered(s, r) + [x] && (x in s'.flag <==> x in s.flag)
  }

  /** The fields AddTrigger writes. */
  ghost predicate TriggerFields(s: Exec, s': Exec, x: Task, r: Task) {
    && s'.trigs == s.trigs[x := Trigs(s, x) + {r}]
    && s'.flag == (if St(s, r).Finished() then s.flag + {x} else s.flag)
    && s'.triggered == (if St(s, r).Finished() then s.triggered else s.triggered[r := Triggered(s, r) + [x]])
  }

  lemma AddTriggerFields(s: Exec, s': Exec, x: Task, r: Task)
    requires s' == DoAddTrigger(s, x, r)
    ensures TriggerFields(s, s', x, r)
    ensures s'.state == s.state && s'.pool == s.pool && s'.depended == s.depended
    ensures s'.edges == s.edges && s'.count == s.count && s'.deps == s.deps
    ensures s'.now == s.now && s'.ticket == s.ticket && s'.runs == s.runs && s'.start == s.start
    ensures s'.queue == s.queue && s'.called == s.called && s'.submitted == s.submitted && s'.timers == s.timers
  {
  }

  lemma AddTriggerEffect(s: Exec, s': Exec, x: Task, r: Task)
    requires TriggerFields(s, s', x, r) && s'.state == s.state && s'.pool == s.pool && s'.depended == s.depended
    ensures TriggerAdded(s, s', x, r)
  {
  }

  lemma AddTriggerTold(s: Exec, s': Exec, x: Task, r0: Task, y: Task, r: Task)
    requires TrigsInv(s) && TriggerAdded(s, s', x, r0) && r in Trigs(s', y)
    ensures y in s'.flag || y in Triggered(s', r) || Firing(s', y, r)
  {
    if y != x || r != r0 {
      assert r in Trigs(s, y);
      assert y in s.flag || y in Triggered(s, r) || Firing(s, y, r);
      if j :| j in s.pool && s.pool[j] == Fire(y, r) {
        assert s'.pool[j] == Fire(y, r);
      }
    }
  }

  lemma AddTriggerDone(s: Exec, s': Exec, x: Task, r0: Task, y: Task)
    requires TrigsInv(s) && TriggerAdded(s, s', x, r0) && y in s'.flag
    ensures TriggerDone(s', y)
  {
    if y in s.flag {
      TriggerDoneStays(s, s', y);
    } else {
      assert r0 in Trigs(s', y) && St(s', r0).Finished();
    }
  }

  lemma AddTriggerDeclared(s: Exec, s': Exec, x: Task, r0: Task, y: Task, r: Task)
    requires TrigsInv(s) && TriggerAdded(s, s', x, r0) && y in Triggered(s', r)
    ensures r in Trigs(s', y)
  {
    if y in Triggered(s, r) {
      assert r in Trigs(s, y);
    }
  }

  lemma AddTriggerTrigs(s: Exec, s': Exec, x: Task, r0: Task)
    requires TrigsInv(s) && TriggerAdded(s, s', x, r0)
    ensures TrigsInv(s')
  {
    forall y, r | r in Trigs(s', y) ensures y in s'.flag || y in Triggered(s', r) || Firing(s', y, r) {
      AddTriggerTold(s, s', x, r0, y, r);
    }
    forall y | y in s'.flag ensures TriggerDone(s', y) {
      AddTriggerDone(s, s', x, r0, y);
    }
    forall y, r | y in Triggered(s', r) ensures r in Trigs(s', y) {
      AddTriggerDeclared(s, s', x, r0, y, r);
    }
    forall id | id in s'.pool && s'.pool[id].Fire?
      ensures s'.pool[id].cause in Trigs(s', s'.pool[id].x) && St(s', s'.pool[id].cause).Finished()
    {
      assert s.pool[id].Fire?;
    }
  }

  lemma ListsNotify(s: Exec, s': Exec)
    requires NotifyInv(s) && s'.state == s.state && s'.pool == s.pool
    requires forall d :: St(s, d).Finished() && Told(s, d) ==> Told(s', d)
    ensures NotifyInv(s')
  {
    forall d | St(s', d).Finished() ensures Told(s', d) || Notifying(s', d) {
      assert Told(s, d) || Notifying(s, d);
      if j :| j in s.pool && s.pool[j] == Notify(d) {
        assert s'.pool[j] == Notify(d);
      }
    }
  }

  lemma AddTriggerLists(s: Exec, s': Exec, x: Task, r: Task)
    requires EdgesInv(s) && CountInv(s) && DepsInv(s) && EdgeDeclared(s) && TrigsInv(s) && NotifyInv(s)
    requires TriggerAdded(s, s', x, r) && s'.edges == s.edges && s'.count == s.count && s'.deps == s.deps
    ensures EdgesInv(s') && CountInv(s') && DepsInv(s') && EdgeDeclared(s') && TrigsInv(s') && NotifyInv(s')
  {
    var id := FreshId(s);
    EdgesKept(s, s', id);
    CountKept(s, s');
    DepsKept(s, s');
    AddTriggerTrigs(s, s', x, r);
    ListsNotify(s, s');
  }

  lemma AddTriggerInv(s: Exec, x: Task, r: Task, s': Exec)
    requires Inv(s) && x !in s.called && s' == DoAddTrigger(s, x, r)
    ensures Inv(s')
  {
    AddTriggerFields(s, s', x, r);
    AddTriggerEffect(s, s', x, r);
    AddTriggerLists(s, s', x, r);
    forall y | y != x ensures SameConditions(s, s', y) { }
    SetupRest(s, s', x);
  }

  /** Effect of AddDependency, read through the accessors. */
  ghost predicate DependencyAdded(s: Exec, s': Exec, x: Task, d: Task, e: Edge) {
    && s'.state == s.state && s'.pool == s.pool && s'.triggered == s.triggered && e.x == x && e.d == d && e !in s.edges
    && (forall y :: y != x ==> Deps(s', y) == Deps(s, y)) && Deps(s', x) == Deps(s, x) + {d}
    && (forall y :: y != x ==> Count(s', y) == Count(s, y))
    && (forall c :: c != d ==> Depended(s', c) == Depended(s, c))
    && if St(s, d).Finished() then s'.edges == s.edges && Count(s', x) == Count(s, x) && Depended(s', d) == Depended(s, d)
       else s'.edges == s.edges[e := Listed] && Count(s', x) == Count(s, x) + 1 && Depended(s', d) == Depended(s, d) + [e]
  }

  /** The fields AddDependency writes. */
  ghost predicate DependencyFields(s: Exec, s': Exec, x: Task, d: Task, e: Edge) {
    && s'.deps == s.deps[x := Deps(s, x) + {d}]
    && if St(s, d).Finished() then s'.count == s.count && s'.depended == s.depended && s'.edges == s.edges
       else s'.count == s.count[x := Count(s, x) + 1] && s'.depended == s.depended[d := Depended(s, d) + [e]]
            && s'.edges == s.edges[e := Listed]
  }

  lemma AddDependencyFields(s: Exec, s': Exec, x: Task, d: Task, n: nat)
    requires s' == DoAddDependency(s, x, d, n)
    ensures DependencyFields(s, s', x, d, Edge(x, d, n))
    ensures s'.state == s.state && s'.pool == s.pool && s'.triggered == s.triggered
    ensures s'.trigs == s.trigs && s'.flag == s.flag
    ensures s'.now == s.now && s'.ticket == s.ticket && s'.runs == s.runs && s'.start == s.start
    ensures s'.queue == s.queue && s'.called == s.called && s'.submitted == s.submitted && s'.timers == s.timers
  {
  }

  lemma AddDependencyEffect(s: Exec, s': Exec, x: Task, d: Task, e: Edge)
    requires DependencyFields(s, s', x, d, e) && e.x == x && e.d == d && e !in s.edges
    requires s'.state == s.state && s'.pool == s.pool && s'.triggered == s.triggered
    ensures DependencyAdded(s, s', x, d, e)
  {
  }

  lemma AddEdgePlaced(s: Exec, s': Exec, x: Task, d: Task, e0: Edge, e: Edge)
    requires EdgesInv(s) && DependencyAdded(s, s', x, d, e0) && e in s'.edges
    ensures EdgePlaced(s', e)
  {
    if e != e0 { assert EdgePlaced(s, e); }
  }

  lemma AddListPlaced(s: Exec, s': Exec, x: Task, d: Task, e0: Edge, c: Task, e: Edge)
    requires EdgesInv(s) && DependencyAdded(s, s', x, d, e0) && e in Depended(s', c)
    ensures ListPlaced(s', c, e)
  {
    if e in Depended(s, c) { assert ListPlaced(s, c, e); }
  }

  lemma AddListDistinct(s: Exec, s': Exec, x: Task, d: Task, e0: Edge, c: Task)
    requires EdgesInv(s) && DependencyAdded(s, s', x, d, e0)
    ensures NoRepeats(Depended(s', c))
  {
    assert NoRepeats(Depended(s, c));
    assert e0 in Depended(s, c) ==> ListPlaced(s, c, e0);
  }

  lemma AddDependencyEdges(s: Exec, s': Exec, x: Task, d: Task, e0: Edge)
    requires EdgesInv(s) && DependencyAdded(s, s', x, d, e0)
    ensures EdgesInv(s')
  {
    forall e | e in s'.edges ensures EdgePlaced(s', e) { AddEdgePlaced(s, s', x, d, e0, e); }
    forall c, e | e in Depended(s', c) ensures ListPlaced(s', c, e) { AddListPlaced(s, s', x, d, e0, c, e); }
    forall c ensures NoRepeats(Depended(s', c)) { AddListDistinct(s, s', x, d, e0, c); }
    forall id | id in s'.pool && s'.pool[id].Decrement?
      ensures s'.pool[id].e in s'.edges && s'.edges[s'.pool[id].e] == Flying(id)
    {
      assert s.pool[id].Decrement?;
    }
  }

  lemma AddEdgeCount(s: Exec, s': Exec, x: Task, d: Task, e: Edge, y: Task)
    requires CountInv(s) && DependencyAdded(s, s', x, d, e)
    ensures Count(s', y) == |EdgesOf(s'.edges, y)|
  {
    assert Count(s, y) == |EdgesOf(s.edges, y)|;
    if !St(s, d).Finished() {
      EdgeJoins(s.edges, e, y);
    }
  }

  lemma EdgeJoins(edges: map<Edge, EdgePlace>, e: Edge, y: Task)
    requires e !in edges
    ensures |EdgesOf(edges[e := Listed], y)| == |EdgesOf(edges, y)| + if e.x == y then 1 else 0
  {
    if e.x == y {
      assert EdgesOf(edges[e := Listed], y) == EdgesOf(edges, y) + {e};
    } else {
      assert EdgesOf(edges[e := Listed], y) == EdgesOf(edges, y);
    }
  }

  lemma AddBlocked(s: Exec, s': Exec, x: Task, d0: Task, e0: Edge, y: Task, d: Task)
    requires DepsInv(s) && DependencyAdded(s, s', x, d0, e0) && d in Deps(s', y) && !St(s', d).Finished()
    ensures Blocked(s', y, d)
  {
    if y == x && d == d0 {
      assert e0 in s'.edges;
    } else {
      assert d in Deps(s, y);
      assert Blocked(s, y, d);
      var e :| e in s.edges && e.x == y && e.d == d;
      assert e in s'.edges;
    }
  }

  lemma AddDependencyDeps(s: Exec, s': Exec, x: Task, d0: Task, e0: Edge)
    requires DepsInv(s) && EdgeDeclared(s) && CountInv(s) && DependencyAdded(s, s', x, d0, e0)
    ensures DepsInv(s') && EdgeDeclared(s') && CountInv(s')
  {
    forall y, d | d in Deps(s', y) && !St(s', d).Finished() ensures Blocked(s', y, d) {
      AddBlocked(s, s', x, d0, e0, y, d);
    }
    forall y ensures Count(s', y) == |EdgesOf(s'.edges, y)| {
      AddEdgeCount(s, s', x, d0, e0, y);
    }
    forall e | e in s'.edges ensures e.d in Deps(s', e.x) {
      if e != e0 {
        assert e in s.edges;
      }
    }
  }

  lemma AddDependencyInv(s: Exec, x: Task, d: Task, n: nat, s': Exec)
    requires Inv(s) && x !in s.called && Edge(x, d, n) !in s.edges && s' == DoAddDependency(s, x, d, n)
    ensures Inv(s')
  {
    AddDependencyFields(s, s', x, d, n);
    AddDependencyEffect(s, s', x, d, Edge(x, d, n));
    AddDependencyLists(s, s', x, d, Edge(x, d, n));
    forall y | y != x ensures SameConditions(s, s', y) { }
    SetupRest(s, s', x);
  }

  lemma AddDependencyLists(s: Exec, s': Exec, x: Task, d: Task, e: Edge)
    requires EdgesInv(s) && CountInv(s) && DepsInv(s) && EdgeDeclared(s) && TrigsInv(s) && NotifyInv(s)
    requires DependencyAdded(s, s', x, d, e) && s'.trigs == s.trigs && s'.flag == s.flag
    ensures EdgesInv(s') && CountInv(s') && DepsInv(s') && EdgeDeclared(s') && TrigsInv(s') && NotifyInv(s')
  {
    AddDependencyEdges(s, s', x, d, e);
    AddDependencyDeps(s, s', x, d, e);
    var id := FreshId(s);
    TrigsKept(s, s', id);
    ListsNotify(s, s');
  }

  // ---------------------------------------------------------------------------
  // Every step
  // ---------------------------------------------------------------------------

  lemma SubmitStep(s: Exec, id: Id, a: Act, s': Exec)
    requires Inv(s) && id in s.pool && s.pool[id] == a && SubmitAct(a) && s' == GoSubmit(s, id, a)
    ensures Inv(s')
  {
    match a {
      case SubmitCas(x) => SubmitCasInv(s, id, x, s');
      case ReadState(x) => ReadStateInv(s, id, x, s');
      case ReadTrigger(x) => ReadTriggerInv(s, id, x, s');
      case ReadCount(x) => ReadCountInv(s, id, x, s');
      case EnqueCas(x) => EnqueCasInv(s, id, x, s');
    }
  }

  lemma FinishStep(s: Exec, id: Id, a: Act, spawned: Id, s': Exec)
    requires Inv(s) && id in s.pool && s.pool[id] == a && FinishAct(a) && spawned !in s.pool
    requires s' == GoFinish(s, id, a, spawned)
    ensures Inv(s')
  {
    match a {
      case SetState(x, _) => SetStateInv(s, id, x, s');
      case Notify(x) => NotifyStepInv(s, id, x, spawned, s');
      case Decrement(e) => DecrementInv(s, id, e, s');
      case Fire(x, _) => FireInv(s, id, x, s');
    }
  }

  lemma CarrierStep(s: Exec, id: Id, a: Act, throws: bool, s': Exec)
    requires Inv(s) && id in s.pool && s.pool[id] == a && a.Carrier() && s' == GoCarrier(s, id, a, throws)
    ensures Inv(s')
  {
    match a {
      case PushCheck(x) => PushCheckInv(s, id, x, s');
      case PushIn(x) => PushInInv(s, id, x, s');
      case CheckRun(x) => CheckRunInv(s, id, x, s');
      case Body(x) => BodyInv(s, id, x, throws, s');
    }
  }

  lemma TimerStep(s: Exec, id: Id, a: Act, s': Exec)
    requires Inv(s) && id in s.pool && s.pool[id] == a && (a.TimerCheck? || a.TimerPush? || a.TimerWake?)
    requires s' == GoTimer(s, id, a)
    ensures Inv(s')
  {
    match a {
      case TimerCheck(x) => TimerCheckInv(s, id, x, s');
      case TimerPush(x) => TimerPushInv(s, id, x, s');
      case TimerWake(x) => TimerWakeInv(s, id, x, s');
    }
  }

  lemma RunInv(s: Exec, id: Id, c: Choice, s': Exec)
    requires Inv(s) && CanGo(s, id, c) && s' == Go(s, id, c)
    ensures Inv(s')
  {
    var a := s.pool[id];
    if SubmitAct(a) {
      SubmitStep(s, id, a, s');
    } else if FinishAct(a) {
      FinishStep(s, id, a, c.spawned, s');
    } else if a.Carrier() {
      CarrierStep(s, id, a, c.throws, s');
    } else {
      TimerStep(s, id, a, s');
    }
  }

  lemma SetupStep(s: Exec, step: Step, s': Exec)
    requires Inv(s) && Enabled(s, step) && s' == Next(s, step)
    requires step.AddDependency? || step.AddTrigger? || step.SetTimeTrigger? || step.Submit?
    ensures Inv(s')
  {
    match step {
      case AddDependency(x, d, n) => AddDependencyInv(s, x, d, n, s');
      case AddTrigger(x, r) => AddTriggerInv(s, x, r, s');
      case SetTimeTrigger(x, at) => SetTimeInv(s, x, at, s');
      case Submit(x, id, id2) => SubmitInv(s, x, id, id2, s');
    }
  }

  lemma ClockStep(s: Exec, step: Step, s': Exec)
    requires Inv(s) && Enabled(s, step) && s' == Next(s, step) && (step.Close? || step.CloseTimers? || step.Tick?)
    ensures Inv(s')
  {
    OutsideInv(s, s');
  }

  lemma StepInv(s: Exec, step: Step, s': Exec)
    requires Inv(s) && Enabled(s, step) && s' == Next(s, step)
    ensures Inv(s')
  {
    if step.Run? {
      RunInv(s, step.id, step.c, s');
    } else if step.Cancel? {
      CancelInv(s, step.x, step.id, s');
    } else if step.Pop? {
      PopInv(s, step.id, s');
    } else if step.TimerPop? {
      TimerPopInv(s, step.i, step.id, s');
    } else if step.Close? || step.CloseTimers? || step.Tick? {
      ClockStep(s, step, s');
    } else {
      SetupStep(s, step, s');
    }
  }

  predicate Trace(s: Exec, steps: seq<Step>, s': Exec)
    decreases |steps|
  {
    if steps == [] then s == s' else Enabled(s, steps[0]) && Trace(Next(s, steps[0]), steps[1..], s')
  }

  lemma {:induction false} TraceInv(s: Exec, steps: seq<Step>, s': Exec)
    requires Inv(s) && Trace(s, steps, s')
    ensures Inv(s')
    decreases |steps|
  {
    if steps != [] {
      StepInv(s, steps[0], Next(s, steps[0]));
      TraceInv(Next(s, steps[0]), steps[1..], s');
    }
  }

  // ---------------------------------------------------------------------------
  // Main results
  // ---------------------------------------------------------------------------

  /** No thread is midway through Submit, Complete, Fail or Cancel; bodies and timers may be running. */
  ghost predicate Settled(s: Exec) {
    forall id :: id in s.pool ==> !SubmitAct(s.pool[id]) && !FinishAct(s.pool[id])
  }

  lemma ToldAll(s: Exec, d: Task)
    requires NotifyInv(s) && Settled(s) && St(s, d).Finished()
    ensures Told(s, d)
  {
    assert Told(s, d) || Notifying(s, d);
  }

  lemma DoneMeansZero(s: Exec, x: Task)
    requires EdgesInv(s) && CountInv(s) && EdgeDeclared(s) && NotifyInv(s) && Settled(s) && DepsDone(s, x)
    ensures Count(s, x) == 0
  {
    forall e ensures e !in EdgesOf(s.edges, x) {
      if e in EdgesOf(s.edges, x) {
        ListedOpen(s, e);
      }
    }
    assert EdgesOf(s.edges, x) == {};
    assert Count(s, x) == |EdgesOf(s.edges, x)|;
  }

  lemma ListedOpen(s: Exec, e: Edge)
    requires EdgesInv(s) && EdgeDeclared(s) && NotifyInv(s) && Settled(s) && e in s.edges
    ensures !St(s, e.d).Finished() && e.d in Deps(s, e.x)
  {
    assert EdgePlaced(s, e);
    if St(s, e.d).Finished() {
      ToldAll(s, e.d);
    }
  }

  lemma DoneMeansFlag(s: Exec, x: Task)
    requires TrigsInv(s) && NotifyInv(s) && Settled(s) && TriggerDone(s, x)
    ensures x in s.flag && Trigs(s, x) != {}
  {
    var r :| r in Trigs(s, x) && St(s, r).Finished();
    ToldAll(s, r);
    assert x in s.flag || x in Triggered(s, r) || Firing(s, x, r);
  }

  /**
    With no thread midway through Submit, Complete, Fail or Cancel, no task is left Submitted
    although its dependencies have all finished, one of its triggers has finished, or it has
    no condition at all.
  */
  lemma NoTaskStuck(steps: seq<Step>, s: Exec, x: Task)
    requires Trace(START_EXEC, steps, s) && Settled(s) && St(s, x).Submitted?
    ensures !DepsDone(s, x) && !TriggerDone(s, x) && !NoConditions(s, x)
  {
    StartInv();
    TraceInv(START_EXEC, steps, s);
    SettledNotWaiting(s, x);
    if DepsDone(s, x) {
      DoneMeansZero(s, x);
    } else if TriggerDone(s, x) {
      DoneMeansFlag(s, x);
    }
  }

  lemma SettledNotWaiting(s: Exec, x: Task)
    requires HelpInv(s) && Settled(s)
    ensures !Waiting(s, x)
  {
    assert Waiting(s, x) ==> Helped(s, x);
  }

  /** However often a dependency is finished, the counter is decremented only while positive. */
  lemma CounterNeverUnderflows(steps: seq<Step>, s: Exec, x: Task)
    requires Trace(START_EXEC, steps, s)
    ensures Count(s, x) >= 0
    ensures forall id :: id in s.pool && s.pool[id].Decrement? ==> Count(s, s.pool[id].e.x) > 0
  {
    StartInv();
    TraceInv(START_EXEC, steps, s);
    assert Count(s, x) == |EdgesOf(s.edges, x)|;
    forall id | id in s.pool && s.pool[id].Decrement? ensures Count(s, s.pool[id].e.x) > 0 {
      CountPositive(s, id, s.pool[id].e);
    }
  }

  /** A body runs at most once, only after Submit, and only with its condition met. */
  lemma BodyRunsRightly(steps: seq<Step>, s: Exec, id: Id, x: Task)
    requires Trace(START_EXEC, steps, s) && id in s.pool && s.pool[id] == Body(x)
    ensures Runs(s, x) == 0 && x in s.submitted && Justified(s, x)
  {
    StartInv();
    TraceInv(START_EXEC, steps, s);
    assert CarrierOk(s, id) && TicketOk(s, x);
  }

  lemma AtMostOnce(steps: seq<Step>, s: Exec, x: Task)
    requires Trace(START_EXEC, steps, s)
    ensures Runs(s, x) <= 1
  {
    StartInv();
    TraceInv(START_EXEC, steps, s);
    assert TicketOk(s, x);
  }

  /** A finished state is never left for an unfinished one. */
  lemma FinishedLasts(s: Exec, step: Step, s': Exec, x: Task)
    requires Inv(s) && Enabled(s, step) && s' == Next(s, step) && St(s, x).Finished()
    ensures St(s', x).Finished()
  {
    if step.Run? {
      assert SetOk(s, step.id);
      assert Tame(s, s.pool[step.id], s', x);
    }
  }

  lemma {:induction false} StaysFinished(s: Exec, steps: seq<Step>, s': Exec, x: Task)
    requires Inv(s) && Trace(s, steps, s') && St(s, x).Finished()
    ensures St(s', x).Finished()
    decreases |steps|
  {
    if steps != [] {
      StepInv(s, steps[0], Next(s, steps[0]));
      FinishedLasts(s, steps[0], Next(s, steps[0]), x);
      StaysFinished(Next(s, steps[0]), steps[1..], s', x);
    }
  }

  /** In every run a finished task stays finished. */
  lemma FinishedForever(earlier: seq<Step>, s: Exec, steps: seq<Step>, s': Exec, x: Task)
    requires Trace(START_EXEC, earlier, s) && Trace(s, steps, s') && St(s, x).Finished()
    ensures St(s', x).Finished()
  {
    StartInv();
    TraceInv(START_EXEC, earlier, s);
    StaysFinished(s, steps, s', x);
  }

  /** Cancelled before a worker's check let it through. */
  ghost predicate Doomed(s: Exec, x: Task) {
    St(s, x).Canceled? && Runs(s, x) == 0 && forall id :: id in s.pool ==> s.pool[id] != Body(x)
  }

  lemma RunDoomed(s: Exec, id: Id, s': Exec, x: Task)
    requires id in s.pool && SetOk(s, id) && Tame(s, s.pool[id], s', x) && Doomed(s, x)
    ensures Doomed(s', x)
  {
  }

  lemma OutsideDoomed(s: Exec, step: Step, s': Exec, x: Task)
    requires Enabled(s, step) && !step.Run? && s' == Next(s, step) && Doomed(s, x)
    ensures Doomed(s', x)
  {
  }

  lemma StepDoomed(s: Exec, step: Step, s': Exec, x: Task)
    requires Inv(s) && Enabled(s, step) && s' == Next(s, step) && Doomed(s, x)
    ensures Doomed(s', x)
  {
    if step.Run? {
      assert SetOk(s, step.id);
      assert Tame(s, s.pool[step.id], s', x);
      RunDoomed(s, step.id, s', x);
    } else {
      OutsideDoomed(s, step, s', x);
    }
  }

  lemma {:induction false} StaysDoomed(s: Exec, steps: seq<Step>, s': Exec, x: Task)
    requires Inv(s) && Trace(s, steps, s') && Doomed(s, x)
    ensures Runs(s', x) == 0
    decreases |steps|
  {
    if steps != [] {
      StepInv(s, steps[0], Next(s, steps[0]));
      StepDoomed(s, steps[0], Next(s, steps[0]), x);
      StaysDoomed(Next(s, steps[0]), steps[1..], s', x);
    }
  }

  /** In every run a task cancelled before the worker's check never runs. */
  lemma CanceledNeverRuns(earlier: seq<Step>, s: Exec, steps: seq<Step>, s': Exec, x: Task)
    requires Trace(START_EXEC, earlier, s) && Trace(s, steps, s') && Doomed(s, x)
    ensures Runs(s', x) == 0
  {
    StartInv();
    TraceInv(START_EXEC, earlier, s);
    StaysDoomed(s, steps, s', x);
  }

  // ---------------------------------------------------------------------------
  // Tasks left behind at shutdown
  // ---------------------------------------------------------------------------

  /** The activities that bring an enqueued task x to the queue, through a worker, or to its end. */
  predicate Stage(a: Act, x: Task) {
    a == PushCheck(x) || a == PushIn(x) || a == CheckRun(x) || a == Body(x) || (a.SetState? && a.x == x)
  }

  ghost predicate Staged(s: Exec, x: Task) {
    exists id :: id in s.pool && Stage(s.pool[id], x)
  }

  /** What a step of activity a makes of the state, the queue and the pool, as far as shutdown goes. */
  ghost predicate Steady(s: Exec, id: Id, a: Act, s': Exec) {
    && (forall x :: x in s.queue ==> x in s'.queue)
    && (forall x :: x in s'.queue ==> x in s.queue || a == PushIn(x))
    && (forall x :: St(s', x).Enqueued? ==>
          St(s, x).Enqueued? || (a == EnqueCas(x) && id in s'.pool && s'.pool[id] == PushCheck(x)))
    && (forall j :: j != id && j in s.pool ==> j in s'.pool && s'.pool[j] == s.pool[j])
    && (forall j :: j in s'.pool ==> (j in s.pool && s'.pool[j] == s.pool[j]) || Born(s, a, s'.pool[j]))
    && s'.closed == s.closed
  }

  /** Which activity gives rise to which, where it matters here. */
  predicate Born(s: Exec, a: Act, b: Act) {
    && (b.SetState? ==>
          if b.target.Canceled? then (a == PushCheck(b.x) && s.closed) || (a == TimerPush(b.x) && s.timersClosed) else a == Body(b.x))
    && (b.TimerPush? ==> a == TimerCheck(b.x) && !St(s, b.x).Enqueued?)
    && (b.PushIn? ==> a == PushCheck(b.x) && !s.closed)
    && !b.CheckRun? && (b.PushCheck? ==> a == EnqueCas(b.x)) && (b.Body? ==> a == CheckRun(b.x))
  }

  /** The activity becomes another one, and at most task x changes its state, not to Enqueued. */
  lemma BecomesSteady(s: Exec, id: Id, a: Act, b: Act, x: Task, s': Exec)
    requires id in s.pool && s.pool[id] == a && s'.pool == s.pool[id := b] && Born(s, a, b)
    requires s'.queue == s.queue && s'.closed == s.closed
    requires s'.state == s.state || (x in s'.state && s'.state == s.state[x := s'.state[x]] && !s'.state[x].Enqueued?)
    ensures Steady(s, id, a, s')
  {
    forall y | St(s', y).Enqueued? ensures St(s, y).Enqueued? { }
  }

  lemma EndsSteady(s: Exec, id: Id, a: Act, s': Exec)
    requires id in s.pool && s.pool[id] == a && s'.pool == s.pool - {id} && s'.closed == s.closed && s'.state == s.state
    requires s'.queue == s.queue || (a.PushIn? && s'.queue == s.queue + [a.x])
    ensures Steady(s, id, a, s')
  {
    forall y | St(s', y).Enqueued? ensures St(s, y).Enqueued? { }
  }

  lemma EnqueSteady(s: Exec, id: Id, x: Task, s': Exec)
    requires id in s.pool && s.pool[id] == EnqueCas(x) && s' == DoEnqueCas(s, id, x)
    ensures Steady(s, id, EnqueCas(x), s')
  {
    if St(s, x).Submitted? {
      forall y | St(s', y).Enqueued? ensures St(s, y).Enqueued? || y == x { }
    } else {
      EndsSteady(s, id, EnqueCas(x), s');
    }
  }

  lemma EitherSteady(s: Exec, id: Id, a: Act, goesOn: bool, b: Act, s': Exec)
    requires id in s.pool && s.pool[id] == a && (goesOn ==> Born(s, a, b))
    requires s' == if goesOn then Becomes(s, id, b) else Ends(s, id)
    ensures Steady(s, id, a, s')
  {
    if goesOn { BecomesSteady(s, id, a, b, 0, s'); } else { EndsSteady(s, id, a, s'); }
  }

  lemma SubmitCasSteady(s: Exec, id: Id, x: Task, s': Exec)
    requires id in s.pool && s.pool[id] == SubmitCas(x) && s' == DoSubmitCas(s, id, x)
    ensures Steady(s, id, SubmitCas(x), s')
  {
    if St(s, x).Created? {
      BecomesSteady(s, id, SubmitCas(x), ReadState(x), x, s');
    } else {
      EndsSteady(s, id, SubmitCas(x), s');
    }
  }

  lemma CheckRunSteady(s: Exec, id: Id, x: Task, s': Exec)
    requires id in s.pool && s.pool[id] == CheckRun(x) && s' == DoCheckRun(s, id, x)
    ensures Steady(s, id, CheckRun(x), s')
    ensures St(s', x).Enqueued? ==> id in s'.pool && s'.pool[id] == Body(x)
  {
    if St(s, x).Canceled? {
      EndsSteady(s, id, CheckRun(x), s');
    } else {
      BecomesSteady(s, id, CheckRun(x), Body(x), x, s');
    }
  }

  lemma PushCheckSteady(s: Exec, id: Id, x: Task, s': Exec)
    requires id in s.pool && s.pool[id] == PushCheck(x) && s' == DoPushCheck(s, id, x)
    ensures Steady(s, id, PushCheck(x), s')
    ensures id in s'.pool && Stage(s'.pool[id], x)
  {
    if s.closed {
      BecomesSteady(s, id, PushCheck(x), SetState(x, Canceled), x, s');
    } else {
      BecomesSteady(s, id, PushCheck(x), PushIn(x), x, s');
    }
  }

  lemma BodySteady(s: Exec, id: Id, x: Task, throws: bool, s': Exec)
    requires id in s.pool && s.pool[id] == Body(x) && s' == DoBody(s, id, x, throws)
    ensures Steady(s, id, Body(x), s')
    ensures id in s'.pool && Stage(s'.pool[id], x)
  {
    BecomesSteady(s, id, Body(x), SetState(x, if throws then Failed else Completed), x, s');
  }

  lemma PushInSteady(s: Exec, id: Id, x: Task, s': Exec)
    requires id in s.pool && s.pool[id] == PushIn(x)
    requires s' == Ends(s, id).(queue := s.queue + [x], ticket := s.ticket[x := Queued])
    ensures Steady(s, id, PushIn(x), s')
    ensures x in s'.queue
  {
    EndsSteady(s, id, PushIn(x), s');
  }

  lemma TimerPushSteady(s: Exec, id: Id, x: Task, s': Exec)
    requires id in s.pool && s.pool[id] == TimerPush(x) && s' == DoTimerPush(s, id, x)
    ensures Steady(s, id, TimerPush(x), s')
  {
    if s.timersClosed {
      BecomesSteady(s, id, TimerPush(x), SetState(x, Canceled), x, s');
    } else {
      EndsSteady(s, id, TimerPush(x), s');
    }
  }

  lemma SubmitSteady(s: Exec, id: Id, a: Act, s': Exec)
    requires id in s.pool && s.pool[id] == a && SubmitAct(a) && s' == GoSubmit(s, id, a)
    ensures Steady(s, id, a, s')
  {
    match a {
      case SubmitCas(x) => SubmitCasSteady(s, id, x, s');
      case ReadState(x) => EitherSteady(s, id, a, St(s, x).Submitted?, ReadTrigger(x), s');
      case ReadTrigger(x) => EitherSteady(s, id, a, true, if TriggerReady(s, x) then EnqueCas(x) else ReadCount(x), s');
      case ReadCount(x) => EitherSteady(s, id, a, CountReady(s, x), EnqueCas(x), s');
      case EnqueCas(x) => EnqueSteady(s, id, x, s');
    }
  }

  lemma SpawnSteady(s: Exec, id: Id, a: Act, spawned: Id, b: Act, s': Exec)
    requires id in s.pool && s.pool[id] == a && spawned !in s.pool && s'.pool == s.pool[spawned := b] && Born(s, a, b)
    requires s'.queue == s.queue && s'.closed == s.closed && s'.state == s.state
    ensures Steady(s, id, a, s')
  {
    forall y | St(s', y).Enqueued? ensures St(s, y).Enqueued? { }
  }

  lemma NotifySteady(s: Exec, id: Id, x: Task, spawned: Id, s': Exec)
    requires id in s.pool && s.pool[id] == Notify(x) && spawned !in s.pool && s' == DoNotify(s, id, x, spawned)
    ensures Steady(s, id, Notify(x), s')
  {
    if Depended(s, x) != [] || Triggered(s, x) != [] {
      SpawnSteady(s, id, Notify(x), spawned, s'.pool[spawned], s');
    } else {
      EndsSteady(s, id, Notify(x), s');
    }
  }

  lemma FinishSteady(s: Exec, id: Id, a: Act, spawned: Id, s': Exec)
    requires id in s.pool && s.pool[id] == a && FinishAct(a) && spawned !in s.pool && s' == GoFinish(s, id, a, spawned)
    requires SetOk(s, id)
    ensures Steady(s, id, a, s')
  {
    if a.Notify? {
      NotifySteady(s, id, a.x, spawned, s');
    } else {
      BecomesSteady(s, id, a, s'.pool[id], if a.Decrement? then a.e.x else a.x, s');
    }
  }

  lemma CarrierSteady(s: Exec, id: Id, a: Act, throws: bool, s': Exec)
    requires id in s.pool && s.pool[id] == a && a.Carrier() && s' == GoCarrier(s, id, a, throws)
    ensures Steady(s, id, a, s')
    ensures a.PushIn? ==> a.x in s'.queue
    ensures !a.PushIn? && St(s', a.x).Enqueued? ==> id in s'.pool && Stage(s'.pool[id], a.x)
  {
    match a {
      case PushCheck(x) => PushCheckSteady(s, id, x, s');
      case PushIn(x) => PushInSteady(s, id, x, s');
      case CheckRun(x) => CheckRunSteady(s, id, x, s');
      case Body(x) => BodySteady(s, id, x, throws, s');
    }
  }

  lemma TimerSteady(s: Exec, id: Id, a: Act, s': Exec)
    requires id in s.pool && s.pool[id] == a && (a.TimerCheck? || a.TimerPush? || a.TimerWake?) && s' == GoTimer(s, id, a)
    ensures Steady(s, id, a, s')
  {
    match a {
      case TimerCheck(x) =>
        EitherSteady(s, id, a, !(St(s, x).Enqueued? || St(s, x).Finished() || x !in s.start), TimerPush(x), s');
      case TimerPush(x) => TimerPushSteady(s, id, x, s');
      case TimerWake(x) => EitherSteady(s, id, a, !St(s, x).Canceled?, EnqueCas(x), s');
    }
  }

  lemma GoSteady(s: Exec, id: Id, c: Choice, s': Exec)
    requires CanGo(s, id, c) && SetOk(s, id) && s' == Go(s, id, c)
    ensures Steady(s, id, s.pool[id], s')
  {
    var a := s.pool[id];
    if SubmitAct(a) {
      SubmitSteady(s, id, a, s');
    } else if FinishAct(a) {
      FinishSteady(s, id, a, c.spawned, s');
    } else if a.Carrier() {
      CarrierSteady(s, id, a, c.throws, s');
    } else {
      TimerSteady(s, id, a, s');
    }
  }

  /** The activity that has an enqueued task hands it to the queue or to its own next stage. */
  lemma StageGoesOn(s: Exec, id: Id, c: Choice, s': Exec, x: Task)
    requires CanGo(s, id, c) && SetOk(s, id) && Stage(s.pool[id], x) && s' == Go(s, id, c) && St(s', x).Enqueued?
    ensures (s.pool[id] == PushIn(x) && x in s'.queue) || (id in s'.pool && Stage(s'.pool[id], x))
  {
    var a := s.pool[id];
    if a.SetState? {
      SetStateEnds(s, id, a, s');
    } else {
      CarrierSteady(s, id, a, c.throws, s');
    }
  }

  lemma SetStateEnds(s: Exec, id: Id, a: Act, s': Exec)
    requires id in s.pool && s.pool[id] == a && a.SetState? && SetOk(s, id) && s'.state == s.state[a.x := a.target]
    ensures !St(s', a.x).Enqueued?
  {
  }

  /** An enqueued task is in the queue or with an activity. */
  ghost predicate EnqInv(s: Exec) {
    forall x :: St(s, x).Enqueued? ==> x in s.queue || Staged(s, x)
  }

  lemma RunEnq(s: Exec, id: Id, c: Choice, s': Exec)
    requires CanGo(s, id, c) && SetOk(s, id) && EnqInv(s) && s' == Go(s, id, c)
    ensures EnqInv(s')
  {
    GoSteady(s, id, c, s');
    forall x | St(s', x).Enqueued? ensures x in s'.queue || Staged(s', x) {
      if !St(s, x).Enqueued? {
        assert Stage(s'.pool[id], x);
      } else if x !in s.queue {
        var j :| j in s.pool && Stage(s.pool[j], x);
        if j == id {
          StageGoesOn(s, id, c, s', x);
        } else {
          assert Stage(s'.pool[j], x);
        }
      }
    }
  }

  /** Apart from Pop, a step from outside takes nothing out of the queue or the pool. */
  lemma OutsideEnq(s: Exec, step: Step, s': Exec)
    requires Enabled(s, step) && !step.Run? && EnqInv(s) && s' == Next(s, step)
    ensures EnqInv(s')
  {
    forall x | St(s', x).Enqueued? ensures x in s'.queue || Staged(s', x) {
      assert St(s, x).Enqueued?;
      if x in s.queue && step.Pop? {
        assert s.queue == [s.queue[0]] + s.queue[1..];
        assert x == s.queue[0] ==> Stage(s'.pool[step.id], x);
      } else if x !in s.queue {
        var j :| j in s.pool && Stage(s.pool[j], x);
        assert j in s'.pool && Stage(s'.pool[j], x);
      }
    }
  }

  lemma {:induction false} TraceEnq(s: Exec, steps: seq<Step>, s': Exec)
    requires Inv(s) && EnqInv(s) && Trace(s, steps, s')
    ensures EnqInv(s')
    decreases |steps|
  {
    if steps != [] {
      var step, s1 := steps[0], Next(s, steps[0]);
      StepInv(s, step, s1);
      if step.Run? {
        assert SetOk(s, step.id);
        RunEnq(s, step.id, step.c, s1);
      } else {
        OutsideEnq(s, step, s1);
      }
      TraceEnq(s1, steps[1..], s');
    }
  }

  /** No worker takes a task any more, and nobody cancels x. */
  predicate WorkersGone(steps: seq<Step>, x: Task) {
    forall i :: 0 <= i < |steps| ==> !steps[i].Pop? && !(steps[i].Cancel? && steps[i].x == x)
  }

  /** Nothing but its way through the queue is about to finish x. */
  ghost predicate Undisturbed(s: Exec, x: Task) {
    forall id :: id in s.pool ==> s.pool[id] != TimerPush(x) && !(s.pool[id].SetState? && s.pool[id].x == x)
  }

  ghost predicate PassedTest(s: Exec, x: Task) {
    exists id :: id in s.pool && s.pool[id] == PushIn(x)
  }

  /** x is queued, or will be. */
  ghost predicate Lingers(s: Exec, x: Task) {
    St(s, x).Enqueued? && Undisturbed(s, x) && (x in s.queue || PassedTest(s, x))
  }

  /** While a task is queued or being pushed, no activity tests, runs or ends it. */
  lemma OneHolder(s: Exec, x: Task, j: Id)
    requires TicketInv(s) && j in s.pool && (x in s.queue || PassedTest(s, x))
    ensures s.pool[j] != PushCheck(x) && s.pool[j] != CheckRun(x) && s.pool[j] != Body(x)
  {
    assert CarrierOk(s, j);
    if x !in s.queue {
      var id :| id in s.pool && s.pool[id] == PushIn(x);
      assert CarrierOk(s, id);
    }
  }

  lemma RunLingers(s: Exec, id: Id, c: Choice, s': Exec, x: Task)
    requires TicketInv(s) && CanGo(s, id, c) && Lingers(s, x) && s' == Go(s, id, c)
    ensures Lingers(s', x)
  {
    assert SetOk(s, id);
    GoSteady(s, id, c, s');
    OneHolder(s, x, id);
    assert Tame(s, s.pool[id], s', x);
    if x !in s.queue {
      var j :| j in s.pool && s.pool[j] == PushIn(x);
      if j == id {
        assert x in s'.queue by { assert s' == GoCarrier(s, id, s.pool[id], c.throws); }
      } else {
        assert s'.pool[j] == PushIn(x);
      }
    }
  }

  /** Steps from outside other than Pop add activities, among them no Push. */
  lemma OutsideShape(s: Exec, step: Step, s': Exec)
    requires Enabled(s, step) && !step.Run? && !step.Pop? && s' == Next(s, step)
    ensures s'.state == s.state && s'.runs == s.runs && s'.queue == s.queue && (s.closed ==> s'.closed)
    ensures forall j :: j in s.pool ==> j in s'.pool && s'.pool[j] == s.pool[j]
    ensures forall j :: j in s'.pool ==> (j in s.pool && s'.pool[j] == s.pool[j]) || Outer(step, s'.pool[j])
  {
  }

  predicate Outer(step: Step, a: Act) {
    a.SubmitCas? || a.TimerCheck? || a.TimerWake? || (step.Cancel? && a == SetState(step.x, Canceled))
  }

  lemma ShapeLingers(s: Exec, step: Step, s': Exec, x: Task)
    requires s'.state == s.state && s'.queue == s.queue && Lingers(s, x) && !(step.Cancel? && step.x == x)
    requires forall j :: j in s.pool ==> j in s'.pool && s'.pool[j] == s.pool[j]
    requires forall j :: j in s'.pool ==> (j in s.pool && s'.pool[j] == s.pool[j]) || Outer(step, s'.pool[j])
    ensures Lingers(s', x)
  {
    if x !in s.queue {
      var j :| j in s.pool && s.pool[j] == PushIn(x);
      assert s'.pool[j] == PushIn(x);
    }
  }

  lemma OutsideLingers(s: Exec, step: Step, s': Exec, x: Task)
    requires Enabled(s, step) && !step.Run? && !step.Pop? && !(step.Cancel? && step.x == x)
    requires Lingers(s, x) && s' == Next(s, step)
    ensures Lingers(s', x)
  {
    OutsideShape(s, step, s');
    ShapeLingers(s, step, s', x);
  }

  lemma {:induction false} LingersOn(s: Exec, steps: seq<Step>, s': Exec, x: Task)
    requires Inv(s) && Trace(s, steps, s') && WorkersGone(steps, x) && Lingers(s, x)
    ensures Lingers(s', x)
    decreases |steps|
  {
    if steps != [] {
      var step, s1 := steps[0], Next(s, steps[0]);
      StepInv(s, step, s1);
      if step.Run? {
        RunLingers(s, step.id, step.c, s1, x);
      } else {
        OutsideLingers(s, step, s1, x);
      }
      LingersOn(s1, steps[1..], s', x);
    }
  }

  /** Once the queue is closed nobody is at its emplace_back who was not there before. */
  ghost predicate NeverQueued(s: Exec, x: Task) {
    s.closed && x !in s.queue && !PassedTest(s, x)
  }

  lemma StepNeverQueued(s: Exec, step: Step, s': Exec, x: Task)
    requires TicketInv(s) && Enabled(s, step) && NeverQueued(s, x) && s' == Next(s, step)
    ensures NeverQueued(s', x)
  {
    if step.Run? {
      assert SetOk(s, step.id);
      GoSteady(s, step.id, step.c, s');
    } else if step.Pop? {
      assert s.queue == [s.queue[0]] + s.queue[1..];
    } else {
      OutsideShape(s, step, s');
    }
    forall id | id in s'.pool ensures s'.pool[id] != PushIn(x) { }
  }

  lemma {:induction false} QueueRefuses(s: Exec, steps: seq<Step>, s': Exec, x: Task)
    requires Inv(s) && Trace(s, steps, s') && NeverQueued(s, x)
    ensures NeverQueued(s', x)
    decreases |steps|
  {
    if steps != [] {
      StepInv(s, steps[0], Next(s, steps[0]));
      StepNeverQueued(s, steps[0], Next(s, steps[0]), x);
      QueueRefuses(Next(s, steps[0]), steps[1..], s', x);
    }
  }

  lemma StartEnq()
    ensures EnqInv(START_EXEC)
  {
  }

  /**
    Shutdown: the queue is closed, what was in it has been cancelled, the workers are gone and
    every other piece of work has come to its end. A task that was enqueued is left so for ever
    exactly when its Push had passed the test for a closed queue and not yet entered it.
  */
  lemma ShutdownLoss(earlier: seq<Step>, s: Exec, steps: seq<Step>, s': Exec, x: Task)
    requires Trace(START_EXEC, earlier, s) && s.closed && forall y :: y in s.queue ==> St(s, y).Finished()
    requires St(s, x).Enqueued? && Undisturbed(s, x)
    requires Trace(s, steps, s') && WorkersGone(steps, x) && s'.pool == map[]
    ensures St(s', x).Enqueued? <==> PassedTest(s, x)
  {
    StartInv();
    StartEnq();
    TraceInv(START_EXEC, earlier, s);
    TraceEnq(START_EXEC, earlier, s);
    if PassedTest(s, x) {
      LingersOn(s, steps, s', x);
    } else {
      QueueRefuses(s, steps, s', x);
      TraceEnq(s, steps, s');
    }
  }

  lemma {:induction false} OneMore(s: Exec, steps: seq<Step>, m: Exec, step: Step, s': Exec) returns (longer: seq<Step>)
    requires Trace(s, steps, m) && Enabled(m, step) && s' == Next(m, step)
    ensures Trace(s, longer, s')
    decreases |steps|
  {
    if steps == [] {
      longer := [step];
      assert longer[1..] == [] && Trace(s', [], s');
    } else {
      var rest := OneMore(Next(s, steps[0]), steps[1..], m, step, s');
      longer := [steps[0]] + rest;
      assert longer[1..] == rest;
    }
  }

  const GOES: Choice := Choice(2, false)

  /** One of the reads in TryToEnque, for a task without conditions. */
  lemma ReadGoes(s: Exec, x: Task, a: Act, b: Act, s': Exec)
    requires 0 in s.pool && s.pool[0] == a && 2 !in s.pool && St(s, x).Submitted? && NoConditions(s, x)
    requires (a == ReadState(x) && b == ReadTrigger(x)) || (a == ReadTrigger(x) && b == ReadCount(x))
             || (a == ReadCount(x) && b == EnqueCas(x))
    requires s' == s.(pool := s.pool[0 := b])
    ensures Enabled(s, Run(0, GOES)) && Next(s, Run(0, GOES)) == s'
  {
    assert GoSubmit(s, 0, a) == s';
  }

  lemma SubmitGoes(s: Exec, x: Task, s': Exec)
    requires 0 in s.pool && s.pool[0] == SubmitCas(x) && 2 !in s.pool && s' == DoSubmitCas(s, 0, x)
    ensures Enabled(s, Run(0, GOES)) && Next(s, Run(0, GOES)) == s'
  {
  }

  lemma EnqueGoes(s: Exec, x: Task, s': Exec)
    requires 0 in s.pool && s.pool[0] == EnqueCas(x) && 2 !in s.pool && s' == DoEnqueCas(s, 0, x)
    ensures Enabled(s, Run(0, GOES)) && Next(s, Run(0, GOES)) == s'
  {
  }

  lemma PushGoes(s: Exec, x: Task, s': Exec)
    requires 0 in s.pool && s.pool[0] == PushCheck(x) && 2 !in s.pool && s' == DoPushCheck(s, 0, x)
    ensures Enabled(s, Run(0, GOES)) && Next(s, Run(0, GOES)) == s'
  {
  }

  lemma TimerGoes(s: Exec, x: Task, s': Exec)
    requires 1 in s.pool && s.pool[1] == TimerCheck(x) && 2 !in s.pool && St(s, x).Enqueued? && s' == Ends(s, 1)
    ensures Enabled(s, Run(1, GOES)) && Next(s, Run(1, GOES)) == s'
  {
  }

  lemma PushInGoes(s: Exec, x: Task, s': Exec)
    requires s.pool == map[0 := PushIn(x)] && s' == s.(pool := map[], queue := s.queue + [x], ticket := s.ticket[x := Queued])
    ensures Enabled(s, Run(0, GOES)) && Next(s, Run(0, GOES)) == s'
  {
    assert map[0 := PushIn(x)] - {0} == map[];
  }

  /** The state of such a run while Submit is under way. */
  function Submitting(x: Task, a: Act): Exec {
    START_EXEC.(pool := map[0 := a, 1 := TimerCheck(x)], called := {x}, submitted := {x}, state := map[x := Submitted])
  }

  function Pushing(x: Task, pool: map<Id, Act>, closed: bool): Exec {
    START_EXEC.(pool := pool, called := {x}, submitted := {x}, state := map[x := Enqueued], ticket := map[x := With(0)],
                closed := closed)
  }

  lemma SubmitStarts(x: Task) returns (steps: seq<Step>)
    ensures Trace(START_EXEC, steps, Submitting(x, ReadState(x)))
  {
    var s1 := START_EXEC.(pool := map[0 := SubmitCas(x), 1 := TimerCheck(x)], called := {x});
    assert Next(START_EXEC, Submit(x, 0, 1)) == s1;
    assert DoSubmitCas(s1, 0, x) == Submitting(x, ReadState(x));
    SubmitGoes(s1, x, Submitting(x, ReadState(x)));
    steps := OneMore(START_EXEC, [], START_EXEC, Submit(x, 0, 1), s1);
    steps := OneMore(START_EXEC, steps, s1, Run(0, GOES), Submitting(x, ReadState(x)));
  }

  lemma ReadRuns(x: Task, s4: Exec) returns (steps: seq<Step>)
    requires s4 == Submitting(x, ReadCount(x))
    ensures Trace(START_EXEC, steps, s4)
  {
    var s2, s3 := Submitting(x, ReadState(x)), Submitting(x, ReadTrigger(x));
    ReadGoes(s2, x, ReadState(x), ReadTrigger(x), s3);
    ReadGoes(s3, x, ReadTrigger(x), ReadCount(x), s4);
    steps := SubmitStarts(x);
    steps := OneMore(START_EXEC, steps, s2, Run(0, GOES), s3);
    steps := OneMore(START_EXEC, steps, s3, Run(0, GOES), s4);
  }

  /** Submit up to the CAS to Enqueued, for a task without conditions. */
  lemma SubmitRuns(x: Task) returns (steps: seq<Step>)
    ensures Trace(START_EXEC, steps, Submitting(x, EnqueCas(x)))
  {
    var s4, s5 := Submitting(x, ReadCount(x)), Submitting(x, EnqueCas(x));
    ReadGoes(s4, x, ReadCount(x), EnqueCas(x), s5);
    steps := ReadRuns(x, s4);
    steps := OneMore(START_EXEC, steps, s4, Run(0, GOES), s5);
  }

  lemma Enqueuing(x: Task, s6: Exec) returns (steps: seq<Step>)
    requires s6 == Pushing(x, map[0 := PushCheck(x), 1 := TimerCheck(x)], false)
    ensures Trace(START_EXEC, steps, s6)
  {
    var s5 := Submitting(x, EnqueCas(x));
    assert s6 == DoEnqueCas(s5, 0, x);
    EnqueGoes(s5, x, s6);
    steps := SubmitRuns(x);
    steps := OneMore(START_EXEC, steps, s5, Run(0, GOES), s6);
  }

  lemma PushTested(x: Task, s7: Exec) returns (steps: seq<Step>)
    requires s7 == Pushing(x, map[0 := PushIn(x), 1 := TimerCheck(x)], false)
    ensures Trace(START_EXEC, steps, s7)
  {
    var s6 := Pushing(x, map[0 := PushCheck(x), 1 := TimerCheck(x)], false);
    assert s7 == DoPushCheck(s6, 0, x);
    PushGoes(s6, x, s7);
    steps := Enqueuing(x, s6);
    steps := OneMore(START_EXEC, steps, s6, Run(0, GOES), s7);
  }

  /** Its Push passes the test before the queue is closed. */
  lemma PushStarts(x: Task, s9: Exec) returns (steps: seq<Step>)
    requires s9 == Pushing(x, map[0 := PushIn(x)], true)
    ensures Trace(START_EXEC, steps, s9)
  {
    var s7, s8 := Pushing(x, map[0 := PushIn(x), 1 := TimerCheck(x)], false), Pushing(x, map[0 := PushIn(x)], false);
    assert s8 == Ends(s7, 1);
    TimerGoes(s7, x, s8);
    steps := PushTested(x, s7);
    steps := OneMore(START_EXEC, steps, s7, Run(1, GOES), s8);
    steps := OneMore(START_EXEC, steps, s8, Close, s9);
  }

  /** Such a run: the Push passes the test, the queue is closed, and only then x enters it. */
  lemma TaskLeftBehind(x: Task) returns (earlier: seq<Step>, s: Exec, steps: seq<Step>, s': Exec)
    ensures Trace(START_EXEC, earlier, s) && s.closed && s.queue == [] && PassedTest(s, x)
    ensures Trace(s, steps, s') && WorkersGone(steps, x) && s'.pool == map[] && St(s', x).Enqueued? && s'.queue == [x]
  {
    s := Pushing(x, map[0 := PushIn(x)], true);
    s' := s.(pool := map[], queue := s.queue + [x], ticket := s.ticket[x := Queued]);
    earlier := PushStarts(x, s);
    PushInGoes(s, x, s');
    steps := [Run(0, GOES)];
    assert s.pool[0] == PushIn(x) && s.queue + [x] == [x];
    assert steps[1..] == [] && Trace(s', [], s');
  }

  // ---------------------------------------------------------------------------
  // How tasks end
  // ---------------------------------------------------------------------------

  /**
    The step makes x end in this way: its body runs and returns, runs and throws, or somebody
    cancels x or finds a queue closed to it.
  */
  predicate Causes(s: Exec, step: Step, x: Task, target: TaskState)
    requires Enabled(s, step)
  {
    match target
    case Completed => step.Run? && s.pool[step.id] == Body(x) && !step.c.throws
    case Failed => step.Run? && s.pool[step.id] == Body(x) && step.c.throws
    case Canceled =>
      || (step.Cancel? && step.x == x)
      || (step.Run? && s.pool[step.id] == PushCheck(x) && s.closed)
      || (step.Run? && s.pool[step.id] == TimerPush(x) && s.timersClosed)
    case _ => false
  }

  /** Some step of the run makes x end in this way. */
  predicate Caused(s: Exec, steps: seq<Step>, x: Task, target: TaskState)
    decreases |steps|
  {
    steps != [] && Enabled(s, steps[0])
    && (Causes(s, steps[0], x, target) || Caused(Next(s, steps[0]), steps[1..], x, target))
  }

  /** x has ended in this way, or an activity is about to say so. */
  ghost predicate Claims(s: Exec, x: Task, target: TaskState) {
    St(s, x) == target || exists id :: id in s.pool && s.pool[id] == SetState(x, target)
  }

  lemma BodyTarget(s: Exec, id: Id, c: Choice, x: Task, s': Exec)
    requires CanGo(s, id, c) && s.pool[id] == Body(x) && s' == Go(s, id, c)
    ensures forall j, target :: j in s'.pool && s'.pool[j] == SetState(x, target) ==>
              (j in s.pool && s.pool[j] == SetState(x, target)) || target == if c.throws then Failed else Completed
  {
    assert s' == DoBody(s, id, x, c.throws);
  }

  /** Where the claim comes from, apart from the body itself. */
  lemma SteadyClaims(s: Exec, id: Id, a: Act, s': Exec, x: Task, target: TaskState)
    requires id in s.pool && s.pool[id] == a && Steady(s, id, a, s') && Tame(s, a, s', x)
    requires target.Finished() && Claims(s', x, target) && a != Body(x)
    ensures || Claims(s, x, target)
            || (target.Canceled? && ((a == PushCheck(x) && s.closed) || (a == TimerPush(x) && s.timersClosed)))
  {
    if St(s', x) == target {
      if St(s, x) != target {
        assert s.pool[id] == SetState(x, target);
      }
    } else {
      var j :| j in s'.pool && s'.pool[j] == SetState(x, target);
      assert (j in s.pool && s'.pool[j] == s.pool[j]) || Born(s, a, s'.pool[j]);
    }
  }

  lemma BodyClaims(s: Exec, id: Id, c: Choice, s': Exec, x: Task, target: TaskState)
    requires CanGo(s, id, c) && s.pool[id] == Body(x) && s' == Go(s, id, c) && target.Finished() && Claims(s', x, target)
    ensures Claims(s, x, target) || target == if c.throws then Failed else Completed
  {
    BodyTarget(s, id, c, x, s');
    assert Tame(s, Body(x), s', x);
  }

  lemma RunClaims(s: Exec, id: Id, c: Choice, s': Exec, x: Task, target: TaskState)
    requires CanGo(s, id, c) && SetOk(s, id) && s' == Go(s, id, c) && target.Finished() && Claims(s', x, target)
    ensures Claims(s, x, target) || Causes(s, Run(id, c), x, target)
  {
    if s.pool[id] == Body(x) {
      BodyClaims(s, id, c, s', x, target);
    } else {
      GoSteady(s, id, c, s');
      assert Tame(s, s.pool[id], s', x);
      SteadyClaims(s, id, s.pool[id], s', x, target);
    }
  }

  predicate Ending(a: Act, x: Task) {
    a.SetState? && a.x == x
  }

  lemma PopShape(s: Exec, id: Id, s': Exec)
    requires id !in s.pool && s.queue != [] && s' == DoPop(s, id)
    ensures s'.state == s.state && s'.runs == s.runs
    ensures forall j :: j in s.pool ==> j in s'.pool && s'.pool[j] == s.pool[j]
    ensures forall j :: j in s'.pool ==> (j in s.pool && s'.pool[j] == s.pool[j]) || s'.pool[j].CheckRun?
  {
  }

  /** Steps from outside leave states and bodies alone and end x only by cancelling it. */
  lemma OutsideEnding(s: Exec, step: Step, s': Exec, x: Task)
    requires Enabled(s, step) && !step.Run? && s' == Next(s, step) && !Causes(s, step, x, Canceled)
    ensures s'.state == s.state && s'.runs == s.runs
    ensures forall j :: j in s'.pool && Ending(s'.pool[j], x) ==> j in s.pool && s.pool[j] == s'.pool[j]
    ensures forall j :: j in s.pool ==> j in s'.pool && s'.pool[j] == s.pool[j]
  {
    if step.Pop? {
      PopShape(s, step.id, s');
    } else {
      OutsideShape(s, step, s');
    }
  }

  lemma CancelClaims(s: Exec, step: Step, s': Exec, x: Task, target: TaskState)
    requires Enabled(s, step) && step.Cancel? && step.x == x && s' == Next(s, step) && Claims(s', x, target)
    ensures Claims(s, x, target) || target == Canceled
  {
    if j :| j in s'.pool && s'.pool[j] == SetState(x, target) {
      assert j == step.id || s.pool[j] == SetState(x, target);
    }
  }

  lemma OutsideClaims(s: Exec, step: Step, s': Exec, x: Task, target: TaskState)
    requires Enabled(s, step) && !step.Run? && s' == Next(s, step) && target.Finished() && Claims(s', x, target)
    ensures Claims(s, x, target) || Causes(s, step, x, target)
  {
    if !Causes(s, step, x, Canceled) {
      OutsideEnding(s, step, s', x);
      if j :| j in s'.pool && s'.pool[j] == SetState(x, target) {
        assert Ending(s'.pool[j], x) && s.pool[j] == SetState(x, target);
      }
    } else {
      CancelClaims(s, step, s', x, target);
    }
  }

  lemma {:induction false} ClaimsCaused(s: Exec, steps: seq<Step>, s': Exec, x: Task, target: TaskState)
    requires Inv(s) && Trace(s, steps, s') && target.Finished() && Claims(s', x, target)
    ensures Claims(s, x, target) || Caused(s, steps, x, target)
    decreases |steps|
  {
    if steps != [] {
      var step, s1 := steps[0], Next(s, steps[0]);
      StepInv(s, step, s1);
      ClaimsCaused(s1, steps[1..], s', x, target);
      if Claims(s1, x, target) {
        if step.Run? {
          assert SetOk(s, step.id);
          RunClaims(s, step.id, step.c, s1, x, target);
        } else {
          OutsideClaims(s, step, s1, x, target);
        }
      }
    }
  }

  /**
    In every run a task is Completed only if its body ran and returned, Failed only if it ran and
    threw, Canceled only if somebody cancelled it or a closed queue turned it away.
  */
  lemma OutcomesRight(steps: seq<Step>, s: Exec, x: Task)
    requires Trace(START_EXEC, steps, s) && St(s, x).Finished()
    ensures Caused(START_EXEC, steps, x, St(s, x))
  {
    StartInv();
    ClaimsCaused(START_EXEC, steps, s, x, St(s, x));
  }

  /** The body of x ran, and nothing but this end is on its way or has come. */
  ghost predicate Resolved(s: Exec, x: Task, target: TaskState) {
    Runs(s, x) == 1 && Claims(s, x, target) && forall id :: id in s.pool && Ending(s.pool[id], x) ==> s.pool[id].target == target
  }

  ghost predicate Unended(s: Exec, x: Task) {
    Runs(s, x) == 0 && forall id :: id in s.pool ==> !Ending(s.pool[id], x)
  }

  /** A body that ran is not about to run. */
  lemma RanOnce(s: Exec, x: Task, id: Id)
    requires TicketInv(s) && Runs(s, x) == 1 && id in s.pool
    ensures s.pool[id] != Body(x)
  {
    assert CarrierOk(s, id) && TicketOk(s, x);
  }

  lemma SteadyEnding(s: Exec, id: Id, a: Act, s': Exec, x: Task, j: Id)
    requires id in s.pool && s.pool[id] == a && Steady(s, id, a, s') && j in s'.pool && Ending(s'.pool[j], x) && a != Body(x)
    requires !((a == PushCheck(x) && s.closed) || (a == TimerPush(x) && s.timersClosed))
    ensures j in s.pool && s.pool[j] == s'.pool[j]
  {
    assert (j in s.pool && s'.pool[j] == s.pool[j]) || Born(s, a, s'.pool[j]);
  }

  /** A new end of x comes from its body or from a cancellation. */
  lemma EndingBorn(s: Exec, id: Id, c: Choice, s': Exec, x: Task, j: Id)
    requires CanGo(s, id, c) && SetOk(s, id) && s' == Go(s, id, c) && !Causes(s, Run(id, c), x, Canceled)
    requires j in s'.pool && Ending(s'.pool[j], x)
    ensures (j in s.pool && s.pool[j] == s'.pool[j])
            || (s.pool[id] == Body(x) && s'.pool[j].target == if c.throws then Failed else Completed)
  {
    if s.pool[id] == Body(x) {
      BodyTarget(s, id, c, x, s');
    } else {
      GoSteady(s, id, c, s');
      SteadyEnding(s, id, s.pool[id], s', x, j);
    }
  }

  lemma BodyRuns(s: Exec, id: Id, c: Choice, s': Exec, x: Task)
    requires CanGo(s, id, c) && s.pool[id] == Body(x) && s' == Go(s, id, c)
    ensures Runs(s', x) == Runs(s, x) + 1 && id in s'.pool && s'.pool[id] == SetState(x, if c.throws then Failed else Completed)
  {
    assert s' == DoBody(s, id, x, c.throws);
  }

  lemma RunUnended(s: Exec, id: Id, c: Choice, s': Exec, x: Task)
    requires TicketInv(s) && CanGo(s, id, c) && s' == Go(s, id, c) && !Causes(s, Run(id, c), x, Canceled) && Unended(s, x)
    ensures if s.pool[id] == Body(x) then Resolved(s', x, if c.throws then Failed else Completed) else Unended(s', x)
  {
    assert SetOk(s, id);
    assert Tame(s, s.pool[id], s', x);
    forall j | j in s'.pool && Ending(s'.pool[j], x)
      ensures s.pool[id] == Body(x) && s'.pool[j].target == if c.throws then Failed else Completed
    {
      EndingBorn(s, id, c, s', x, j);
    }
    if s.pool[id] == Body(x) {
      BodyRuns(s, id, c, s', x);
    }
  }

  lemma RunResolved(s: Exec, id: Id, c: Choice, s': Exec, x: Task, target: TaskState)
    requires TicketInv(s) && CanGo(s, id, c) && s' == Go(s, id, c) && !Causes(s, Run(id, c), x, Canceled)
    requires target.Finished() && Resolved(s, x, target)
    ensures Resolved(s', x, target) && s.pool[id] != Body(x)
  {
    assert SetOk(s, id);
    RanOnce(s, x, id);
    assert Tame(s, s.pool[id], s', x);
    forall j | j in s'.pool && Ending(s'.pool[j], x) ensures s'.pool[j].target == target {
      EndingBorn(s, id, c, s', x, j);
    }
    ClaimStays(s, id, c, s', x, target);
  }

  lemma ClaimStays(s: Exec, id: Id, c: Choice, s': Exec, x: Task, target: TaskState)
    requires CanGo(s, id, c) && SetOk(s, id) && s' == Go(s, id, c) && target.Finished() && Claims(s, x, target)
    requires Ending(s.pool[id], x) ==> s.pool[id].target == target
    ensures Claims(s', x, target)
  {
    GoSteady(s, id, c, s');
    assert Tame(s, s.pool[id], s', x);
    if St(s, x) != target {
      var j :| j in s.pool && s.pool[j] == SetState(x, target);
      if j != id {
        assert s'.pool[j] == SetState(x, target);
      } else {
        assert s' == GoFinish(s, id, s.pool[id], c.spawned);
      }
    }
  }

  lemma OutsideResolved(s: Exec, step: Step, s': Exec, x: Task, target: TaskState)
    requires Enabled(s, step) && !step.Run? && s' == Next(s, step) && !Causes(s, step, x, Canceled) && Resolved(s, x, target)
    ensures Resolved(s', x, target)
  {
    OutsideEnding(s, step, s', x);
    if j :| j in s.pool && s.pool[j] == SetState(x, target) {
      assert s'.pool[j] == SetState(x, target);
    }
  }

  lemma {:induction false} ResolvedStays(s: Exec, steps: seq<Step>, s': Exec, x: Task, target: TaskState)
    requires Inv(s) && Trace(s, steps, s') && target.Finished() && Resolved(s, x, target) && !Caused(s, steps, x, Canceled)
    ensures Resolved(s', x, target) && !Caused(s, steps, x, Completed) && !Caused(s, steps, x, Failed)
    decreases |steps|
  {
    if steps != [] {
      var step, s1 := steps[0], Next(s, steps[0]);
      StepInv(s, step, s1);
      if step.Run? {
        RunResolved(s, step.id, step.c, s1, x, target);
      } else {
        OutsideResolved(s, step, s1, x, target);
      }
      ResolvedStays(s1, steps[1..], s', x, target);
    }
  }

  lemma {:induction false} BodyResolves(s: Exec, steps: seq<Step>, s': Exec, x: Task, target: TaskState)
    requires Inv(s) && Trace(s, steps, s') && Unended(s, x) && !Caused(s, steps, x, Canceled)
    requires (target.Completed? || target.Failed?) && Caused(s, steps, x, target)
    ensures Resolved(s', x, target)
    decreases |steps|
  {
    var step, s1 := steps[0], Next(s, steps[0]);
    StepInv(s, step, s1);
    if step.Run? {
      RunUnended(s, step.id, step.c, s1, x);
    } else {
      OutsideEnding(s, step, s1, x);
    }
    if step.Run? && s.pool[step.id] == Body(x) {
      ResolvedStays(s1, steps[1..], s', x, if step.c.throws then Failed else Completed);
    } else {
      BodyResolves(s1, steps[1..], s', x, target);
    }
  }

  /**
    In every run a body that returned leaves its task Completed, and one that threw leaves it
    Failed, once the worker has set the state and unless somebody cancelled it.
  */
  lemma BodyDecides(steps: seq<Step>, s: Exec, x: Task, target: TaskState)
    requires Trace(START_EXEC, steps, s) && (target.Completed? || target.Failed?) && Caused(START_EXEC, steps, x, target)
    requires !Caused(START_EXEC, steps, x, Canceled) && forall id :: id in s.pool ==> !Ending(s.pool[id], x)
    ensures St(s, x) == target && Runs(s, x) == 1
  {
    StartInv();
    BodyResolves(START_EXEC, steps, s, x, target);
  }

  // ---------------------------------------------------------------------------
  // Every submitted task whose condition is met
  // ---------------------------------------------------------------------------

  predicate SubmittedIn(steps: seq<Step>, x: Task) {
    exists i :: 0 <= i < |steps| && steps[i].Submit? && steps[i].x == x
  }

  /** Submit has been called and its first CAS is pending or has been made. */
  ghost predicate Begun(s: Exec, x: Task) {
    !St(s, x).Created? || exists id :: id in s.pool && s.pool[id] == SubmitCas(x)
  }

  lemma SubmitCasBegins(s: Exec, id: Id, x: Task, s': Exec)
    requires s' == DoSubmitCas(s, id, x)
    ensures !St(s', x).Created?
  {
  }

  lemma SteadyBegun(s: Exec, id: Id, a: Act, s': Exec, x: Task)
    requires id in s.pool && s.pool[id] == a && SetOk(s, id) && Steady(s, id, a, s') && Tame(s, a, s', x)
    requires a != SubmitCas(x) && Begun(s, x)
    ensures Begun(s', x)
  {
    if St(s, x).Created? {
      var j :| j in s.pool && s.pool[j] == SubmitCas(x);
      assert s'.pool[j] == SubmitCas(x);
    }
  }

  lemma RunBegun(s: Exec, id: Id, c: Choice, s': Exec, x: Task)
    requires CanGo(s, id, c) && SetOk(s, id) && s' == Go(s, id, c) && Begun(s, x)
    ensures Begun(s', x)
  {
    if s.pool[id] == SubmitCas(x) {
      SubmitCasBegins(s, id, x, s');
    } else {
      GoSteady(s, id, c, s');
      assert Tame(s, s.pool[id], s', x);
      SteadyBegun(s, id, s.pool[id], s', x);
    }
  }

  lemma OutsideBegun(s: Exec, step: Step, s': Exec, x: Task)
    requires Enabled(s, step) && !step.Run? && s' == Next(s, step) && (Begun(s, x) || (step.Submit? && step.x == x))
    ensures Begun(s', x)
  {
    if step.Submit? && step.x == x {
      assert s'.pool[step.id] == SubmitCas(x);
    } else if j :| j in s.pool && s.pool[j] == SubmitCas(x) {
      assert s'.pool[j] == SubmitCas(x);
    }
  }

  lemma {:induction false} TraceBegun(s: Exec, steps: seq<Step>, s': Exec, x: Task)
    requires Inv(s) && Trace(s, steps, s') && (Begun(s, x) || SubmittedIn(steps, x))
    ensures Begun(s', x)
    decreases |steps|
  {
    if steps != [] {
      var step, s1 := steps[0], Next(s, steps[0]);
      StepInv(s, step, s1);
      if Begun(s, x) || (step.Submit? && step.x == x) {
        if step.Run? {
          assert SetOk(s, step.id);
          RunBegun(s, step.id, step.c, s1, x);
        } else {
          OutsideBegun(s, step, s1, x);
        }
      } else {
        var i :| 0 <= i < |steps| && steps[i].Submit? && steps[i].x == x;
        assert steps[1..][i - 1] == steps[i];
      }
      TraceBegun(s1, steps[1..], s', x);
    }
  }

  /** The activities that bring a deadline to the timer queue or from it. */
  predicate Clocked(a: Act, x: Task) {
    a == TimerCheck(x) || a == TimerPush(x) || a == TimerWake(x) || a == EnqueCas(x) || Ending(a, x)
  }

  ghost predicate Attended(s: Exec, x: Task) {
    x in s.timers || exists id :: id in s.pool && Clocked(s.pool[id], x)
  }

  ghost predicate Checking(s: Exec, x: Task) {
    exists id :: id in s.pool && s.pool[id] == TimerCheck(x)
  }

  /** A submitted task with a deadline is in the timer queue or on its way; one not yet submitted will be looked at. */
  ghost predicate TimersInv(s: Exec) {
    && (forall x :: x in s.start && St(s, x).Submitted? ==> Attended(s, x))
    && (forall x :: x in s.called && St(s, x).Created? ==> Checking(s, x))
  }

  /** How an activity goes on with a deadline. */
  ghost predicate Punctual(s: Exec, id: Id, a: Act, s': Exec) {
    && s'.start == s.start && s'.called == s.called
    && (forall x :: x in s.timers ==> x in s'.timers)
    && (forall j :: j != id && j in s.pool ==> j in s'.pool && s'.pool[j] == s.pool[j])
    && (forall x :: Clocked(a, x) && x in s.start && St(s, x).Submitted? && St(s', x).Submitted? ==>
          x in s'.timers || (id in s'.pool && Clocked(s'.pool[id], x)))
  }

  lemma NotClocked(s: Exec, id: Id, a: Act, s': Exec)
    requires id in s.pool && s.pool[id] == a && (forall x :: !Clocked(a, x))
    requires Untimed(s, s')
    requires forall j :: j != id && j in s.pool ==> j in s'.pool && s'.pool[j] == s.pool[j]
    ensures Punctual(s, id, a, s')
  {
  }

  lemma SubmitPunctual(s: Exec, id: Id, a: Act, s': Exec)
    requires id in s.pool && s.pool[id] == a && SubmitAct(a) && s' == GoSubmit(s, id, a)
    ensures Punctual(s, id, a, s')
  {
    SubmitSteady(s, id, a, s');
    if a.EnqueCas? {
      EnquePunctual(s, id, a.x, s');
    } else {
      NotClocked(s, id, a, s');
    }
  }

  lemma EnquePunctual(s: Exec, id: Id, x: Task, s': Exec)
    requires id in s.pool && s.pool[id] == EnqueCas(x) && s' == DoEnqueCas(s, id, x)
    ensures Punctual(s, id, EnqueCas(x), s')
  {
    if St(s, x).Submitted? {
      assert s'.pool == s.pool[id := PushCheck(x)] && St(s', x).Enqueued?;
    } else {
      assert s'.pool == s.pool - {id};
    }
  }

  lemma FinishPunctual(s: Exec, id: Id, a: Act, spawned: Id, s': Exec)
    requires id in s.pool && s.pool[id] == a && FinishAct(a) && spawned !in s.pool && s' == GoFinish(s, id, a, spawned)
    requires SetOk(s, id)
    ensures Punctual(s, id, a, s')
  {
    FinishSteady(s, id, a, spawned, s');
    if a.SetState? {
      assert s'.state == s.state[a.x := a.target];
    } else {
      NotClocked(s, id, a, s');
    }
  }

  lemma CarrierPunctual(s: Exec, id: Id, a: Act, throws: bool, s': Exec)
    requires id in s.pool && s.pool[id] == a && a.Carrier() && s' == GoCarrier(s, id, a, throws)
    ensures Punctual(s, id, a, s')
  {
    CarrierSteady(s, id, a, throws, s');
    NotClocked(s, id, a, s');
  }

  lemma TimerCheckPunctual(s: Exec, id: Id, x: Task, s': Exec)
    requires id in s.pool && s.pool[id] == TimerCheck(x)
    requires s' == if St(s, x).Enqueued? || St(s, x).Finished() || x !in s.start then Ends(s, id) else Becomes(s, id, TimerPush(x))
    ensures Punctual(s, id, TimerCheck(x), s')
  {
  }

  lemma TimerPushPunctual(s: Exec, id: Id, x: Task, s': Exec)
    requires id in s.pool && s.pool[id] == TimerPush(x) && s' == DoTimerPush(s, id, x)
    ensures Punctual(s, id, TimerPush(x), s')
  {
  }

  lemma TimerWakePunctual(s: Exec, id: Id, x: Task, s': Exec)
    requires id in s.pool && s.pool[id] == TimerWake(x)
    requires s' == if St(s, x).Canceled? then Ends(s, id) else Becomes(s, id, EnqueCas(x))
    ensures Punctual(s, id, TimerWake(x), s')
  {
  }

  lemma TimerPunctual(s: Exec, id: Id, a: Act, s': Exec)
    requires id in s.pool && s.pool[id] == a && (a.TimerCheck? || a.TimerPush? || a.TimerWake?) && s' == GoTimer(s, id, a)
    ensures Punctual(s, id, a, s')
  {
    match a {
      case TimerCheck(x) => TimerCheckPunctual(s, id, x, s');
      case TimerPush(x) => TimerPushPunctual(s, id, x, s');
      case TimerWake(x) => TimerWakePunctual(s, id, x, s');
    }
  }

  lemma GoPunctual(s: Exec, id: Id, c: Choice, s': Exec)
    requires CanGo(s, id, c) && SetOk(s, id) && s' == Go(s, id, c)
    ensures Punctual(s, id, s.pool[id], s')
  {
    var a := s.pool[id];
    if SubmitAct(a) {
      SubmitPunctual(s, id, a, s');
    } else if FinishAct(a) {
      FinishPunctual(s, id, a, c.spawned, s');
    } else if a.Carrier() {
      CarrierPunctual(s, id, a, c.throws, s');
    } else {
      TimerPunctual(s, id, a, s');
    }
  }

  /** What stays attended to when activity a takes its step. */
  lemma RunTimers(s: Exec, id: Id, a: Act, s': Exec)
    requires id in s.pool && s.pool[id] == a && SetOk(s, id) && Punctual(s, id, a, s') && TimersInv(s)
    requires (forall x :: Tame(s, a, s', x)) && (a.TimerCheck? ==> !St(s, a.x).Created?)
    requires forall x :: St(s, x).Created? && St(s', x).Submitted? && x in s.start ==> x in s.called
    ensures TimersInv(s')
  {
    forall x | x in s'.called && St(s', x).Created? ensures Checking(s', x) {
      assert Tame(s, a, s', x);
      assert Checking(s, x);
      var j :| j in s.pool && s.pool[j] == TimerCheck(x);
      assert s'.pool[j] == TimerCheck(x);
    }
    forall x | x in s'.start && St(s', x).Submitted? ensures Attended(s', x) {
      assert Tame(s, a, s', x);
      if St(s, x).Created? {
        assert Checking(s, x);
        var j :| j in s.pool && s.pool[j] == TimerCheck(x);
        assert j in s'.pool && Clocked(s'.pool[j], x);
      } else if x !in s.timers {
        assert Attended(s, x);
        var j :| j in s.pool && Clocked(s.pool[j], x);
        if j != id {
          assert j in s'.pool && Clocked(s'.pool[j], x);
        }
      }
    }
  }

  /** A step that only adds activities, and drops no timer and no name. */
  lemma MoreTimers(s: Exec, s': Exec)
    requires TimersInv(s) && s'.state == s.state && s'.start == s.start && (forall x :: x in s.timers ==> Attended(s', x))
    requires forall j :: j in s.pool ==> j in s'.pool && s'.pool[j] == s.pool[j]
    requires forall x :: x in s'.called ==> x in s.called || Checking(s', x)
    ensures TimersInv(s')
  {
    forall x | x in s'.called && St(s', x).Created? ensures Checking(s', x) {
      if x in s.called {
        assert Checking(s, x);
        var j :| j in s.pool && s.pool[j] == TimerCheck(x);
        assert s'.pool[j] == TimerCheck(x);
      }
    }
    forall x | x in s'.start && St(s', x).Submitted? ensures Attended(s', x) {
      assert Attended(s, x);
      if x !in s.timers {
        var j :| j in s.pool && Clocked(s.pool[j], x);
        assert j in s'.pool && Clocked(s'.pool[j], x);
      }
    }
  }

  lemma SetTimeTimers(s: Exec, x: Task, at: int, s': Exec)
    requires TimersInv(s) && JustInv(s) && x !in s.called && s' == s.(start := s.start[x := at])
    ensures TimersInv(s')
  {
    forall y | y in s'.called && St(s', y).Created? ensures Checking(s', y) {
      assert Checking(s, y);
      var j :| j in s.pool && s.pool[j] == TimerCheck(y);
      assert s'.pool[j] == TimerCheck(y);
    }
    forall y | y in s'.start && St(s', y).Submitted? ensures Attended(s', y) {
      assert y in s.submitted && y in s.called;
      assert Attended(s, y);
      if y !in s.timers {
        var j :| j in s.pool && Clocked(s.pool[j], y);
        assert j in s'.pool && Clocked(s'.pool[j], y);
      }
    }
  }

  lemma TimerPopTimers(s: Exec, i: nat, id: Id, s': Exec)
    requires TimersInv(s) && id !in s.pool && i < |s.timers|
    requires s' == Becomes(s, id, TimerWake(s.timers[i])).(timers := s.timers[..i] + s.timers[i + 1..])
    ensures TimersInv(s')
  {
    forall x | x in s.timers ensures Attended(s', x) {
      if x == s.timers[i] {
        assert Clocked(s'.pool[id], x);
      } else {
        var k :| 0 <= k < |s.timers| && s.timers[k] == x;
        assert s'.timers[if k < i then k else k - 1] == x;
      }
    }
    MoreTimers(s, s');
  }

  lemma SubmitTimers(s: Exec, x: Task, id: Id, id2: Id, s': Exec)
    requires TimersInv(s) && id !in s.pool && id2 !in s.pool && id != id2
    requires s' == Becomes(Becomes(s, id, SubmitCas(x)), id2, TimerCheck(x)).(called := s.called + {x})
    ensures TimersInv(s')
  {
    assert s'.pool[id2] == TimerCheck(x);
    MoreTimers(s, s');
  }

  lemma OutsideTimers(s: Exec, step: Step, s': Exec)
    requires JustInv(s) && TimersInv(s) && Enabled(s, step) && !step.Run? && s' == Next(s, step)
    ensures TimersInv(s')
  {
    if step.Submit? {
      SubmitTimers(s, step.x, step.id, step.id2, s');
    } else if step.SetTimeTrigger? {
      SetTimeTimers(s, step.x, step.at, s');
    } else if step.TimerPop? {
      TimerPopTimers(s, step.i, step.id, s');
    } else {
      PlainTimers(s, step, s');
    }
  }

  lemma PlainTimers(s: Exec, step: Step, s': Exec)
    requires TimersInv(s) && Enabled(s, step) && s' == Next(s, step)
    requires !step.Run? && !step.Submit? && !step.SetTimeTrigger? && !step.TimerPop?
    ensures TimersInv(s')
  {
    assert s'.state == s.state && Untimed(s, s');
    MoreTimers(s, s');
  }

  lemma RunStepTimers(s: Exec, id: Id, c: Choice, s': Exec)
    requires Inv(s) && TimersInv(s) && CanGo(s, id, c) && s' == Go(s, id, c)
    ensures TimersInv(s')
  {
    var a := s.pool[id];
    assert SetOk(s, id) && ActOk(s, id);
    GoPunctual(s, id, c, s');
    forall x | St(s, x).Created? && St(s', x).Submitted? && x in s.start ensures x in s.called {
      assert Tame(s, a, s', x);
      CreatedCalled(s, id, s', x);
    }
    RunTimers(s, id, a, s');
  }

  lemma CreatedCalled(s: Exec, id: Id, s': Exec, x: Task)
    requires JustInv(s) && id in s.pool && SetOk(s, id) && Tame(s, s.pool[id], s', x)
    requires St(s, x).Created? && St(s', x).Submitted?
    ensures x in s.called
  {
    assert ActOk(s, id);
  }

  lemma {:induction false} TraceTimers(s: Exec, steps: seq<Step>, s': Exec)
    requires Inv(s) && TimersInv(s) && Trace(s, steps, s')
    ensures TimersInv(s')
    decreases |steps|
  {
    if steps != [] {
      var step, s1 := steps[0], Next(s, steps[0]);
      StepInv(s, step, s1);
      if step.Run? {
        RunStepTimers(s, step.id, step.c, s1);
      } else {
        OutsideTimers(s, step, s1);
      }
      TraceTimers(s1, steps[1..], s');
    }
  }

  /** No deadline in the timer queue has passed. */
  predicate NothingDue(s: Exec) {
    forall i :: 0 <= i < |s.timers| ==> !TimeCame(s, s.timers[i])
  }

  lemma DueNotSubmitted(s: Exec, x: Task)
    requires TimersInv(s) && s.pool == map[] && NothingDue(s) && TimeCame(s, x)
    ensures !St(s, x).Submitted?
  {
    assert x in s.start && St(s, x).Submitted? ==> Attended(s, x);
  }

  lemma StartTimers()
    ensures TimersInv(START_EXEC)
  {
  }

  /**
    When all work is done, the queue is empty and no timer is due: every task that was submitted,
    that nobody cancelled, and whose dependencies have all finished, one of whose triggers has
    finished, whose deadline has passed, or that had no condition, has run once and ended as its
    body did.
  */
  lemma ReadyTasksRun(steps: seq<Step>, s: Exec, x: Task)
    requires Trace(START_EXEC, steps, s) && s.pool == map[] && s.queue == [] && NothingDue(s)
    requires SubmittedIn(steps, x) && !Caused(START_EXEC, steps, x, Canceled) && Justified(s, x)
    ensures Runs(s, x) == 1 && (St(s, x).Completed? || St(s, x).Failed?) && Caused(START_EXEC, steps, x, St(s, x))
  {
    StartInv();
    StartEnq();
    StartTimers();
    TraceEnq(START_EXEC, steps, s);
    TraceTimers(START_EXEC, steps, s);
    TraceBegun(START_EXEC, steps, s, x);
    QuietFinished(steps, s, x);
    OutcomesRight(steps, s, x);
    BodyDecides(steps, s, x, St(s, x));
  }

  lemma QuietFinished(steps: seq<Step>, s: Exec, x: Task)
    requires Trace(START_EXEC, steps, s) && s.pool == map[] && s.queue == [] && NothingDue(s) && Justified(s, x)
    requires EnqInv(s) && TimersInv(s) && Begun(s, x)
    ensures St(s, x).Finished()
  {
    if St(s, x).Submitted? {
      NoTaskStuck(steps, s, x);
      DueNotSubmitted(s, x);
    }
  }

  // ---------------------------------------------------------------------------
  // Clock, shutdown and notification
  // ---------------------------------------------------------------------------

  /** The time of the last tick. */
  function LastTick(steps: seq<Step>, before: int): int {
    if steps == [] then before else LastTick(steps[1..], if steps[0].Tick? then steps[0].later else before)
  }

  lemma ClockSteps(s: Exec, step: Step, s': Exec)
    requires Enabled(s, step) && s' == Next(s, step)
    ensures s'.closed <==> s.closed || step == Close
    ensures s'.timersClosed <==> s.timersClosed || step == CloseTimers
    ensures s'.now == if step.Tick? then step.later else s.now
  {
    if step.Run? {
      assert Unclocked(s, s');
    }
  }

  lemma {:induction false} ClockRuns(s: Exec, steps: seq<Step>, s': Exec)
    requires Trace(s, steps, s')
    ensures s'.closed <==> s.closed || Close in steps
    ensures s'.timersClosed <==> s.timersClosed || CloseTimers in steps
    ensures s'.now == LastTick(steps, s.now)
    decreases |steps|
  {
    if steps != [] {
      ClockSteps(s, steps[0], Next(s, steps[0]));
      ClockRuns(Next(s, steps[0]), steps[1..], s');
      assert steps == [steps[0]] + steps[1..];
    }
  }

  /** In every run the queues are closed exactly since StartShutdown closed them, and the time is that of the last tick. */
  lemma ShutdownRecorded(steps: seq<Step>, s: Exec)
    requires Trace(START_EXEC, steps, s)
    ensures s.closed <==> Close in steps
    ensures s.timersClosed <==> CloseTimers in steps
    ensures s.now == LastTick(steps, 0)
  {
    ClockRuns(START_EXEC, steps, s);
  }

  /** Whom a finished task has still to tell. */
  function Untold(s: Exec, x: Task): nat {
    |Depended(s, x)| + |Triggered(s, x)|
  }

  predicate ToldOne(s: Exec, id: Id, x: Task, spawned: Id, s': Exec) {
    Untold(s', x) == Untold(s, x) - 1 && id in s'.pool && s'.pool[id] == Notify(x) && spawned in s'.pool
  }

  lemma TellsDependent(s: Exec, id: Id, x: Task, spawned: Id, s': Exec)
    requires id in s.pool && s.pool[id] == Notify(x) && spawned != id && Depended(s, x) != []
    requires s'.depended == s.depended[x := Depended(s, x)[1..]] && s'.triggered == s.triggered
    requires spawned in s'.pool && s'.pool == s.pool[spawned := s'.pool[spawned]]
    ensures ToldOne(s, id, x, spawned, s')
  {
  }

  lemma TellsTriggered(s: Exec, id: Id, x: Task, spawned: Id, s': Exec)
    requires id in s.pool && s.pool[id] == Notify(x) && spawned != id && Triggered(s, x) != []
    requires s'.triggered == s.triggered[x := Triggered(s, x)[1..]] && s'.depended == s.depended
    requires spawned in s'.pool && s'.pool == s.pool[spawned := s'.pool[spawned]]
    ensures ToldOne(s, id, x, spawned, s')
  {
  }

  lemma TellingDependent(s: Exec, id: Id, x: Task, spawned: Id, s': Exec)
    requires id in s.pool && s.pool[id] == Notify(x) && spawned !in s.pool && Depended(s, x) != []
    requires s' == DoNotify(s, id, x, spawned)
    ensures ToldOne(s, id, x, spawned, s')
  {
    TellsDependent(s, id, x, spawned, s');
  }

  lemma TellingTriggered(s: Exec, id: Id, x: Task, spawned: Id, s': Exec)
    requires id in s.pool && s.pool[id] == Notify(x) && spawned !in s.pool && Depended(s, x) == [] && Triggered(s, x) != []
    requires s' == DoNotify(s, id, x, spawned)
    ensures ToldOne(s, id, x, spawned, s')
  {
    TellsTriggered(s, id, x, spawned, s');
  }

  lemma TellingEnds(s: Exec, id: Id, x: Task, spawned: Id, s': Exec)
    requires Depended(s, x) == [] && Triggered(s, x) == [] && s' == DoNotify(s, id, x, spawned)
    ensures id !in s'.pool
  {
  }

  /** OnFinished tells one task at each step, with one activity for it, and ends when all are told. */
  lemma NotifyAdvances(s: Exec, id: Id, x: Task, spawned: Id, s': Exec)
    requires id in s.pool && s.pool[id] == Notify(x) && spawned !in s.pool && s' == DoNotify(s, id, x, spawned)
    ensures Untold(s, x) == 0 ==> id !in s'.pool
    ensures Untold(s, x) > 0 ==> ToldOne(s, id, x, spawned, s')
  {
    if Depended(s, x) != [] {
      TellingDependent(s, id, x, spawned, s');
    } else if Triggered(s, x) != [] {
      TellingTriggered(s, id, x, spawned, s');
    } else {
      TellingEnds(s, id, x, spawned, s');
    }
  }
}
