/**
  The fiber mutex and condition variable over wait queues. Fibers are cooperative: a fiber runs
  until it parks, so one step is one such run through the library. Cancellation and timeouts may
  arrive at any time; Park turns them into exceptions unless the fiber is cancel-guarded.
*/
module FiberMutex {
  import opened Common

  type Fiber = nat

  datatype Queue = Lockers | Waiters

  /**
    A fiber parked inside WaitQueue::Wait. relock: it is taking the lock again inside
    CondVar::Wait. note (auxiliary): the notification of the condition variable that it carries.
  */
  datatype Parked = Parked(queue: Queue, wakeup: bool, relock: bool, note: Option<nat>)

  /** Where a notification of the condition variable is; InHand only within a step. */
  datatype Place = InHand | Carried(f: Fiber) | Delivered(f: Fiber) | Lost

  /**
    linked: the run queue. Auxiliary: place[n] is where the n-th notification is; inside are the
    fibers back from Lock or Wait that have not unlocked since, failed those whose last Lock or
    Wait ended with an exception.
  */
  datatype State = State(
    locked: bool, lockers: seq<Fiber>, waiters: seq<Fiber>, parked: map<Fiber, Parked>, linked: set<Fiber>,
    canceled: set<Fiber>, timedout: set<Fiber>, guarded: set<Fiber>, place: seq<Place>,
    inside: set<Fiber>, failed: set<Fiber>)

  const START_STATE: State := State(false, [], [], map[], {}, {}, {}, {}, [], {}, {})

  // ---------------------------------------------------------------------------
  // Wait queues
  // ---------------------------------------------------------------------------

  function Without(q: seq<Fiber>, f: Fiber): seq<Fiber> {
    if q == [] then [] else if q[0] == f then Without(q[1..], f) else [q[0]] + Without(q[1..], f)
  }

  ghost predicate Distinct(q: seq<Fiber>) {
    forall i, j :: 0 <= i < j < |q| ==> q[i] != q[j]
  }

  lemma PopFacts(w: seq<Fiber>)
    requires w != [] && Distinct(w)
    ensures Distinct(w[1..]) && w[0] in w && forall x :: x in w[1..] <==> x in w && x != w[0]
  {
    assert w == [w[0]] + w[1..];
  }

  lemma Prepend(x: Fiber, w: seq<Fiber>)
    requires Distinct(w) && x !in w
    ensures Distinct([x] + w)
  {
  }

  lemma {:induction false} WithoutFacts(q: seq<Fiber>, f: Fiber)
    ensures forall x :: x in Without(q, f) <==> x in q && x != f
    ensures Distinct(q) ==> Distinct(Without(q, f))
  {
    if q != [] {
      var rest := Without(q[1..], f);
      WithoutFacts(q[1..], f);
      assert q == [q[0]] + q[1..];
      if Distinct(q) {
        PopFacts(q);
        Prepend(q[0], rest);
      }
    }
  }

  function Waiting(s: State, q: Queue): seq<Fiber> {
    if q.Lockers? then s.lockers else s.waiters
  }

  function SetWaiting(s: State, q: Queue, w: seq<Fiber>): State {
    if q.Lockers? then s.(lockers := w) else s.(waiters := w)
  }

  /** NotifyOne: the first waiter is unlinked, marked and unparked; a notification goes with it. */
  function NotifyOne(s: State, q: Queue, note: Option<nat>): State {
    var w := Waiting(s, q);
    if w == [] then s
    else
      var f := w[0];
      var p := if f in s.parked then s.parked[f] else Parked(q, true, false, None);
      SetWaiting(s, q, w[1..])
        .(parked := s.parked[f := p.(wakeup := true, note := if note.Some? then note else p.note)],
          linked := s.linked + {f}, place := Move(s.place, note, Carried(f)))
  }

  function Move(place: seq<Place>, note: Option<nat>, p: Place): seq<Place> {
    if note.Some? && note.value < |place| then place[note.value := p] else place
  }

  /** A notification of the condition variable goes to the first waiter, or to nobody. */
  function Signal(s: State, n: nat): State {
    if s.waiters == [] then s.(place := Move(s.place, Some(n), Lost)) else NotifyOne(s, Waiters, Some(n))
  }

  /** A new notification. */
  function Issue(s: State): State {
    Signal(s.(place := s.place + [InHand]), |s.place|)
  }

  function NotifyAll(s: State): State
    decreases |s.waiters|
  {
    if s.waiters == [] then s else NotifyAll(Issue(s))
  }

  // ---------------------------------------------------------------------------
  // Park
  // ---------------------------------------------------------------------------

  /** The check before and after the switch. */
  predicate Throws(s: State, f: Fiber) {
    f !in s.guarded && (f in s.canceled || f in s.timedout)
  }

  /** What the check does when it throws: a pending cancellation has precedence over a timeout. */
  function Thrown(s: State, f: Fiber): State {
    s.(linked := s.linked - {f}, timedout := if f in s.canceled then s.timedout else s.timedout - {f},
       failed := s.failed + {f})
  }

  /** An exception leaves CondVar::Wait while it takes the lock: its guard notifies again. */
  function PassNote(s: State, relock: bool, note: Option<nat>): State {
    if !relock then s else if note.Some? then Signal(s, note.value) else Issue(s)
  }

  /** Wait up to the switch: the waiter is linked, and unlinked again if the first check throws. */
  function Enter(s: State, f: Fiber, p: Parked): State {
    if Throws(s, f) then
      var s' := Thrown(s, f);
      if p.queue.Lockers? then PassNote(s', p.relock, p.note) else s'
    else
      SetWaiting(s, p.queue, Waiting(s, p.queue) + [f])
        .(parked := s.parked[f := p], place := Move(s.place, p.note, Carried(f)))
  }

  /** One turn of the loop in Mutex::Lock. */
  function TryLock(s: State, f: Fiber, relock: bool, note: Option<nat>): State {
    if s.locked then Enter(s, f, Parked(Lockers, false, relock, note))
    else s.(locked := true, place := Move(s.place, note, Delivered(f)), inside := s.inside + {f})
  }

  function DoUnlock(s: State, f: Fiber): State {
    NotifyOne(s.(locked := false, inside := s.inside - {f}), Lockers, None)
  }

  /** The waiter object of f goes out of scope. */
  function Leave(s: State, f: Fiber): State {
    if f !in s.parked then s
    else
      var q := s.parked[f].queue;
      SetWaiting(s, q, Without(Waiting(s, q), f))
        .(parked := s.parked - {f}, place := Move(s.place, s.parked[f].note, InHand))
  }

  /** The second check throws: the wakeup is passed on, then the enclosing guards run. */
  function ResumeThrows(s: State, f: Fiber): State
    requires f in s.parked
  {
    var p := s.parked[f];
    var s1 := Thrown(Leave(s, f), f);
    if p.queue.Waiters? then PassNote(s1, p.wakeup, p.note)
    else PassNote(if p.wakeup then NotifyOne(s1, Lockers, None) else s1, p.relock, p.note)
  }

  function ResumeReturns(s: State, f: Fiber): State
    requires f in s.parked
  {
    var p := s.parked[f];
    TryLock(Leave(s, f), f, p.queue.Waiters? || p.relock, p.note)
  }

  function Resume(s: State, f: Fiber): State
    requires f in s.parked
  {
    var s1 := s.(linked := s.linked - {f});
    if Throws(s, f) then ResumeThrows(s1, f) else ResumeReturns(s1, f)
  }

  // ---------------------------------------------------------------------------
  // Steps
  // ---------------------------------------------------------------------------

  datatype Step =
    | LockBy(f: Fiber)
    | UnlockBy(f: Fiber)
    | WaitBy(f: Fiber)
    | Notify
    | NotifyEvery
    | Cancel(f: Fiber)
    | Timeout(f: Fiber)
    | SetGuard(f: Fiber, on: bool)
    | RunOther(f: Fiber)
    | ResumeOf(f: Fiber)

  predicate Enabled(s: State, step: Step) {
    match step
    case LockBy(f) => f !in s.parked
    case UnlockBy(f) => f !in s.parked && s.locked
    case WaitBy(f) => f !in s.parked && s.locked
    case SetGuard(f, _) => f !in s.parked
    case RunOther(f) => f in s.linked && f !in s.parked
    case ResumeOf(f) => f in s.linked && f in s.parked
    case _ => true
  }

  function Unpark(s: State, f: Fiber): State {
    if f in s.guarded then s else s.(linked := s.linked + {f})
  }

  /** A call of f goes on, or a new one begins, without an exception so far. */
  function Begin(s: State, f: Fiber): State {
    s.(failed := s.failed - {f})
  }

  function Next(s: State, step: Step): State
    requires Enabled(s, step)
  {
    match step
    case LockBy(f) => TryLock(Begin(s, f), f, false, None)
    case UnlockBy(f) => DoUnlock(s, f)
    case WaitBy(f) => Enter(DoUnlock(Begin(s, f), f), f, Parked(Waiters, false, false, None))
    case Notify => Issue(s)
    case NotifyEvery => NotifyAll(s)
    case Cancel(f) => Unpark(s.(canceled := s.canceled + {f}), f)
    case Timeout(f) => Unpark(s.(timedout := s.timedout + {f}), f)
    case SetGuard(f, on) => s.(guarded := if on then s.guarded + {f} else s.guarded - {f})
    case RunOther(f) => s.(linked := s.linked - {f})
    case ResumeOf(f) => Resume(Begin(s, f), f)
  }

  // ---------------------------------------------------------------------------
  // Invariants
  // ---------------------------------------------------------------------------

  predicate WaitsIn(s: State, q: Queue, f: Fiber) {
    f in s.parked && s.parked[f].queue == q && !s.parked[f].wakeup
  }

  /** A linked waiter is the one of a fiber parked in that queue, hence alive. */
  ghost predicate QueueInv(s: State, q: Queue) {
    Distinct(Waiting(s, q)) && forall f :: f in Waiting(s, q) <==> WaitsIn(s, q, f)
  }

  /** A woken fiber will run. */
  ghost predicate WokenRun(s: State) {
    forall f :: f in s.parked && s.parked[f].wakeup ==> f in s.linked
  }

  ghost predicate Core(s: State) {
    QueueInv(s, Lockers) && QueueInv(s, Waiters) && WokenRun(s)
  }

  ghost predicate WokenLocker(s: State, f: Fiber) {
    f in s.parked && s.parked[f].queue == Lockers && s.parked[f].wakeup
  }

  /** A free mutex with waiting lockers has a woken locker that has not run yet. */
  ghost predicate NoLostWakeup(s: State) {
    !s.locked && s.lockers != [] ==> exists f :: WokenLocker(s, f)
  }

  /** A woken waiter carries a notification, a locker only on the way back into CondVar::Wait. */
  predicate NoteOk(place: seq<Place>, f: Fiber, p: Parked) {
    && (p.note.Some? ==> p.note.value < |place| && place[p.note.value] == Carried(f))
    && (if p.queue.Waiters? then !p.relock && (p.wakeup <==> p.note.Some?) else p.note.Some? ==> p.relock)
  }

  predicate PlaceOk(parked: map<Fiber, Parked>, hand: Option<nat>, n: nat, p: Place) {
    && (p.InHand? <==> hand == Some(n))
    && (p.Carried? ==> p.f in parked && parked[p.f].note == Some(n))
  }

  /** Fibers and notifications agree on who carries what, apart from the one in hand. */
  ghost predicate Notes(s: State, hand: Option<nat>) {
    && (forall f :: f in s.parked ==> NoteOk(s.place, f, s.parked[f]))
    && (forall n :: 0 <= n < |s.place| ==> PlaceOk(s.parked, hand, n, s.place[n]))
    && (hand.Some? ==> hand.value < |s.place|)
  }

  ghost predicate Inv(s: State) {
    Core(s) && NoLostWakeup(s) && Notes(s, None)
  }

  // ---------------------------------------------------------------------------
  // What the building blocks keep
  // ---------------------------------------------------------------------------

  lemma NotifyCore(s: State, q: Queue, note: Option<nat>, s': State)
    requires Core(s) && s' == NotifyOne(s, q, note)
    ensures Core(s')
  {
    var w := Waiting(s, q);
    if w != [] {
      PopFacts(w);
      assert WaitsIn(s, q, w[0]);
      assert QueueInv(s', q);
    }
  }

  /** A wakeup of a locker leaves the notifications alone. */
  lemma WakeLockerNotes(s: State, hand: Option<nat>, s': State)
    requires Core(s) && Notes(s, hand) && s' == NotifyOne(s, Lockers, None)
    ensures Notes(s', hand)
  {
    if s.lockers != [] {
      assert s.lockers[0] in s.lockers;
      assert WaitsIn(s, Lockers, s.lockers[0]);
    }
  }

  /** A notification in hand goes to the first waiter. */
  lemma WakeWaiterNotes(s: State, n: nat, s': State)
    requires Core(s) && Notes(s, Some(n)) && s.waiters != [] && s' == NotifyOne(s, Waiters, Some(n))
    ensures Notes(s', None)
  {
    var f := s.waiters[0];
    assert f in s.waiters;
    assert WaitsIn(s, Waiters, f);
    assert NoteOk(s.place, f, s.parked[f]);
  }

  lemma NotifyWakes(s: State, q: Queue, note: Option<nat>, s': State)
    requires Core(s) && s' == NotifyOne(s, q, note)
    ensures q.Lockers? && s.lockers != [] ==> exists f :: WokenLocker(s', f)
    ensures s'.locked == s.locked && (q.Waiters? ==> s'.lockers == s.lockers)
    ensures forall f :: WokenLocker(s, f) ==> WokenLocker(s', f)
    ensures q.Lockers? && s.lockers == [] ==> s'.lockers == []
    ensures s'.parked.Keys == s.parked.Keys
  {
    if q.Lockers? && s.lockers != [] {
      var f := s.lockers[0];
      assert f in s.lockers;
      assert WaitsIn(s, q, f);
      assert WokenLocker(s', f);
    }
    var w := Waiting(s, q);
    if w != [] {
      assert w[0] in w;
      assert WaitsIn(s, q, w[0]);
    }
  }

  /** Sending a notification keeps everything. */
  lemma SignalInv(s: State, n: nat, s': State)
    requires Core(s) && NoLostWakeup(s) && Notes(s, Some(n)) && s' == Signal(s, n)
    ensures Inv(s') && s'.locked == s.locked && s'.parked.Keys == s.parked.Keys
  {
    if s.waiters != [] {
      NotifyCore(s, Waiters, Some(n), s');
      WakeWaiterNotes(s, n, s');
      NotifyWakes(s, Waiters, Some(n), s');
    }
    if g :| WokenLocker(s, g) {
      assert WokenLocker(s', g);
    }
  }

  lemma IssueInv(s: State, s': State)
    requires Inv(s) && s' == Issue(s)
    ensures Inv(s') && s'.locked == s.locked && s'.parked.Keys == s.parked.Keys
  {
    var s1 := s.(place := s.place + [InHand]);
    KeepWoken(s, s1);
    SignalInv(s1, |s.place|, s');
  }

  lemma LeaveCore(s: State, f: Fiber, s': State)
    requires Core(s) && f in s.parked && s' == Leave(s, f)
    ensures Core(s') && f !in s'.parked && s'.locked == s.locked
    ensures s'.lockers == [] || s.lockers != []
    ensures forall g :: g != f && WokenLocker(s, g) ==> WokenLocker(s', g)
  {
    WithoutFacts(Waiting(s, s.parked[f].queue), f);
    if s'.lockers != [] {
      assert s'.lockers[0] in s'.lockers;
    }
  }

  lemma LeaveNotes(s: State, f: Fiber, s': State)
    requires Notes(s, None) && f in s.parked && s' == Leave(s, f)
    ensures Notes(s', s.parked[f].note)
  {
    assert NoteOk(s.place, f, s.parked[f]);
  }

  lemma AppendFacts(w: seq<Fiber>, f: Fiber)
    requires Distinct(w) && f !in w
    ensures Distinct(w + [f]) && forall x :: x in w + [f] <==> x in w || x == f
  {
  }

  lemma ParkCore(s: State, f: Fiber, p: Parked, s': State)
    requires Core(s) && f !in s.parked && !p.wakeup && !Throws(s, f) && s' == Enter(s, f, p)
    ensures Core(s')
  {
    AppendFacts(Waiting(s, p.queue), f);
    assert QueueInv(s', p.queue);
  }

  lemma ParkNotes(s: State, f: Fiber, p: Parked, s': State)
    requires f !in s.parked && !p.wakeup && !Throws(s, f) && s' == Enter(s, f, p) && Notes(s, p.note)
    requires if p.queue.Waiters? then !p.relock && p.note.None? else p.note.Some? ==> p.relock
    ensures Notes(s', None)
  {
  }

  lemma ThrownCore(s: State, f: Fiber, s': State)
    requires Core(s) && f !in s.parked && s' == Thrown(s, f)
    ensures Core(s')
  {
  }

  lemma PassNoteInv(s: State, relock: bool, note: Option<nat>, s': State)
    requires Core(s) && NoLostWakeup(s) && Notes(s, note) && (note.Some? ==> relock) && s' == PassNote(s, relock, note)
    ensures Inv(s')
  {
    if relock && note.Some? {
      SignalInv(s, note.value, s');
    } else if relock {
      IssueInv(s, s');
    }
  }

  lemma EnterInv(s: State, f: Fiber, p: Parked, s': State)
    requires Core(s) && f !in s.parked && !p.wakeup && s' == Enter(s, f, p)
    requires if p.queue.Waiters? then !p.relock && p.note.None? else p.note.Some? ==> p.relock
    requires s.locked || (p.queue.Waiters? && NoLostWakeup(s))
    requires Notes(s, p.note)
    ensures Inv(s')
  {
    if Throws(s, f) {
      var s1 := Thrown(s, f);
      ThrownCore(s, f, s1);
      assert NoLostWakeup(s1) by {
        if g :| WokenLocker(s, g) {
          assert WokenLocker(s1, g);
        }
      }
      if p.queue.Lockers? {
        PassNoteInv(s1, p.relock, p.note, s');
      }
    } else {
      ParkCore(s, f, p, s');
      ParkNotes(s, f, p, s');
      if g :| WokenLocker(s, g) {
        assert WokenLocker(s', g);
      }
    }
  }

  lemma TryLockInv(s: State, f: Fiber, relock: bool, note: Option<nat>, s': State)
    requires Core(s) && f !in s.parked && Notes(s, note) && (note.Some? ==> relock) && s' == TryLock(s, f, relock, note)
    ensures Inv(s')
  {
    if s.locked {
      EnterInv(s, f, Parked(Lockers, false, relock, note), s');
    }
  }

  lemma UnlockInv(s: State, f: Fiber, s': State)
    requires Inv(s) && s' == DoUnlock(s, f)
    ensures Inv(s') && s'.parked.Keys == s.parked.Keys
  {
    var s1 := s.(locked := false, inside := s.inside - {f});
    NotifyCore(s1, Lockers, None, s');
    WakeLockerNotes(s1, None, s');
    NotifyWakes(s1, Lockers, None, s');
  }

  /** A cancelled or timed-out fiber that had been woken hands the wakeup on. */
  lemma ResumeThrowsInv(s: State, f: Fiber, s': State)
    requires Inv(s) && f in s.parked && s' == ResumeThrows(s, f)
    ensures Inv(s')
  {
    var p, s0 := s.parked[f], Leave(s, f);
    LeaveCore(s, f, s0);
    LeaveNotes(s, f, s0);
    assert NoteOk(s.place, f, p);
    var s1 := Thrown(s0, f);
    ThrownCore(s0, f, s1);
    if p.queue.Waiters? {
      LeaveWakeup(s, f, s1);
      PassNoteInv(s1, p.wakeup, p.note, s');
    } else {
      var s2 := if p.wakeup then NotifyOne(s1, Lockers, None) else s1;
      if p.wakeup {
        NotifyCore(s1, Lockers, None, s2);
        WakeLockerNotes(s1, p.note, s2);
        NotifyWakes(s1, Lockers, None, s2);
      } else {
        LeaveWakeup(s, f, s1);
      }
      PassNoteInv(s2, p.relock, p.note, s');
    }
  }

  /** A fiber that consumed no locker's wakeup may leave without passing one on. */
  lemma LeaveWakeup(s: State, f: Fiber, s': State)
    requires Core(s) && NoLostWakeup(s) && f in s.parked && !WokenLocker(s, f)
    requires s' == Thrown(Leave(s, f), f)
    ensures NoLostWakeup(s')
  {
    LeaveCore(s, f, Leave(s, f));
    if g :| WokenLocker(s, g) {
      assert WokenLocker(s', g);
    }
  }

  lemma {:induction false} NotifyAllInv(s: State, s': State)
    requires Inv(s) && s' == NotifyAll(s)
    ensures Inv(s') && s'.waiters == []
    decreases |s.waiters|
  {
    if s.waiters != [] {
      IssueInv(s, Issue(s));
      NotifyAllInv(Issue(s), s');
    }
  }

  /** Changes outside mutex, queues and parked fibers. */
  lemma KeepWoken(s: State, s': State)
    requires NoLostWakeup(s) && s'.locked == s.locked && s'.lockers == s.lockers && s'.parked == s.parked
    ensures NoLostWakeup(s')
  {
    if g :| WokenLocker(s, g) {
      assert WokenLocker(s', g);
    }
  }

  lemma ResumeInv(s: State, f: Fiber, s': State)
    requires Inv(s) && f in s.parked && s' == Resume(s, f)
    ensures Inv(s')
  {
    if Throws(s, f) {
      ResumeThrowsKeeps(s, f, s');
    } else {
      ResumeReturnsKeeps(s, f, s');
    }
  }

  /** Taking f off the run queue matters only to f, which is about to leave its wait queue. */
  lemma Unlinked(s: State, f: Fiber, s1: State)
    requires Core(s) && f in s.parked && s1 == s.(linked := s.linked - {f})
    ensures Leave(s1, f) == Leave(s, f).(linked := s1.linked) && Core(Leave(s1, f))
  {
    LeaveCore(s, f, Leave(s, f));
  }

  lemma ResumeReturnsKeeps(s: State, f: Fiber, s': State)
    requires Inv(s) && f in s.parked && s' == ResumeReturns(s.(linked := s.linked - {f}), f)
    ensures Inv(s')
  {
    var s1 := s.(linked := s.linked - {f});
    var p := s.parked[f];
    Unlinked(s, f, s1);
    LeaveNotes(s, f, Leave(s, f));
    LeaveCore(s, f, Leave(s, f));
    assert NoteOk(s.place, f, p);
    TryLockInv(Leave(s1, f), f, p.queue.Waiters? || p.relock, p.note, s');
  }

  lemma ResumeThrowsKeeps(s: State, f: Fiber, s': State)
    requires Inv(s) && f in s.parked && s' == ResumeThrows(s.(linked := s.linked - {f}), f)
    ensures Inv(s')
  {
    var s1 := s.(linked := s.linked - {f});
    Unlinked(s, f, s1);
    assert Thrown(Leave(s1, f), f) == Thrown(Leave(s, f), f);
    assert s' == ResumeThrows(s, f);
    ResumeThrowsInv(s, f, s');
  }

  lemma WaitByInv(s: State, f: Fiber, s': State)
    requires Inv(s) && f !in s.parked && s' == Enter(DoUnlock(s, f), f, Parked(Waiters, false, false, None))
    ensures Inv(s')
  {
    UnlockInv(s, f, DoUnlock(s, f));
    EnterInv(DoUnlock(s, f), f, Parked(Waiters, false, false, None), s');
  }

  /** Flags and the run queue change from outside, but no parked fiber drops out of the run queue. */
  lemma OutsideInv(s: State, s': State)
    requires Inv(s) && forall f :: f in s.parked && f in s.linked ==> f in s'.linked
    requires s' == s.(linked := s'.linked, canceled := s'.canceled, timedout := s'.timedout, guarded := s'.guarded,
                      failed := s'.failed)
    ensures Inv(s')
  {
    KeepWoken(s, s');
  }

  lemma FlagStep(s: State, step: Step, s': State)
    requires Inv(s) && Enabled(s, step) && s' == Next(s, step)
    requires step.Cancel? || step.Timeout? || step.SetGuard? || step.RunOther?
    ensures Inv(s')
  {
    OutsideInv(s, s');
  }

  lemma QueueStep(s: State, step: Step, s': State)
    requires Inv(s) && Enabled(s, step) && s' == Next(s, step)
    requires step.UnlockBy? || step.WaitBy? || step.Notify? || step.NotifyEvery?
    ensures Inv(s')
  {
    match step {
      case UnlockBy(f) => UnlockInv(s, f, s');
      case WaitBy(f) =>
        OutsideInv(s, Begin(s, f));
        WaitByInv(Begin(s, f), f, s');
      case Notify => IssueInv(s, s');
      case NotifyEvery => NotifyAllInv(s, s');
    }
  }

  lemma StepInv(s: State, step: Step, s': State)
    requires Inv(s) && Enabled(s, step) && s' == Next(s, step)
    ensures Inv(s')
  {
    if step.LockBy? {
      OutsideInv(s, Begin(s, step.f));
      TryLockInv(Begin(s, step.f), step.f, false, None, s');
    } else if step.ResumeOf? {
      OutsideInv(s, Begin(s, step.f));
      ResumeInv(Begin(s, step.f), step.f, s');
    } else if step.UnlockBy? || step.WaitBy? || step.Notify? || step.NotifyEvery? {
      QueueStep(s, step, s');
    } else {
      FlagStep(s, step, s');
    }
  }

  predicate Trace(s: State, steps: seq<Step>, s': State)
    decreases |steps|
  {
    if steps == [] then s == s' else Enabled(s, steps[0]) && Trace(Next(s, steps[0]), steps[1..], s')
  }

  lemma {:induction false} TraceInv(s: State, steps: seq<Step>, s': State)
    requires Inv(s) && Trace(s, steps, s')
    ensures Inv(s')
    decreases |steps|
  {
    if steps != [] {
      StepInv(s, steps[0], Next(s, steps[0]));
      TraceInv(Next(s, steps[0]), steps[1..], s');
    }
  }

  /**
    In every run: a free mutex that fibers wait for has a woken locker in the run queue, and
    every linked waiter belongs to a fiber still parked in that wait queue.
  */
  lemma WakeupNeverLost(steps: seq<Step>, s: State)
    requires Trace(START_STATE, steps, s)
    ensures !s.locked && s.lockers != [] ==> exists f :: WokenLocker(s, f) && f in s.linked
    ensures forall f :: f in s.lockers || f in s.waiters ==> f in s.parked
  {
    TraceInv(START_STATE, steps, s);
    if !s.locked && s.lockers != [] {
      var f :| WokenLocker(s, f);
      assert f in s.linked;
    }
    forall f | f in s.lockers || f in s.waiters ensures f in s.parked {
      assert WaitsIn(s, Lockers, f) || WaitsIn(s, Waiters, f);
    }
  }

  /** The woken locker, once resumed, takes the free mutex or makes sure another locker is woken. */
  lemma WokenLockerActs(steps: seq<Step>, s: State, f: Fiber)
    requires Trace(START_STATE, steps, s) && !s.locked && WokenLocker(s, f)
    ensures Enabled(s, ResumeOf(f))
    ensures var s' := Next(s, ResumeOf(f));
            if Throws(s, f) then !s'.locked && (s'.lockers == [] || exists g :: WokenLocker(s', g)) else s'.locked
  {
    TraceInv(START_STATE, steps, s);
    StepInv(s, ResumeOf(f), Next(s, ResumeOf(f)));
    if Throws(s, f) {
      ThrowKeepsUnlocked(Begin(s, f).(linked := s.linked - {f}), f);
    }
  }

  lemma ThrowKeepsUnlocked(s: State, f: Fiber)
    requires f in s.parked
    ensures ResumeThrows(s, f).locked == s.locked
  {
  }

  // ---------------------------------------------------------------------------
  // Mutual exclusion
  // ---------------------------------------------------------------------------

  /** Only a fiber that holds the mutex unlocks it or waits with it. */
  predicate Disciplined(s: State, steps: seq<Step>)
    decreases |steps|
  {
    steps == [] || !Enabled(s, steps[0])
    || (Rightful(s, steps[0]) && Disciplined(Next(s, steps[0]), steps[1..]))
  }

  predicate Rightful(s: State, step: Step) {
    step.UnlockBy? || step.WaitBy? ==> step.f in s.inside
  }

  /** The mutex is locked exactly while one fiber is inside. */
  ghost predicate Held(s: State) {
    (s.locked <==> s.inside != {}) && forall f, g :: f in s.inside && g in s.inside ==> f == g
  }

  predicate SameLock(s: State, s': State) {
    s'.locked == s.locked && s'.inside == s.inside
  }

  lemma NotifySameLock(s: State, q: Queue, note: Option<nat>)
    ensures SameLock(s, NotifyOne(s, q, note)) && NotifyOne(s, q, note).failed == s.failed
    ensures forall f :: f in NotifyOne(s, q, note).parked <==> f in s.parked || (Waiting(s, q) != [] && f == Waiting(s, q)[0])
  {
  }

  lemma SignalSameLock(s: State, n: nat)
    ensures SameLock(s, Signal(s, n)) && Signal(s, n).failed == s.failed
  {
    NotifySameLock(s, Waiters, Some(n));
  }

  lemma {:induction false} NotifyAllSameLock(s: State)
    ensures SameLock(s, NotifyAll(s))
    decreases |s.waiters|
  {
    if s.waiters != [] {
      SignalSameLock(s.(place := s.place + [InHand]), |s.place|);
      NotifyAllSameLock(Issue(s));
    }
  }

  lemma PassSameLock(s: State, relock: bool, note: Option<nat>)
    ensures SameLock(s, PassNote(s, relock, note)) && PassNote(s, relock, note).failed == s.failed
  {
    if relock && note.Some? {
      SignalSameLock(s, note.value);
    } else if relock {
      SignalSameLock(s.(place := s.place + [InHand]), |s.place|);
    }
  }

  lemma PassParked(s: State, relock: bool, note: Option<nat>, f: Fiber)
    requires QueueInv(s, Waiters) && f !in s.parked
    ensures f !in PassNote(s, relock, note).parked
  {
    if s.waiters != [] {
      assert s.waiters[0] in s.waiters;
      assert WaitsIn(s, Waiters, s.waiters[0]);
    }
  }

  /** How Enter leaves the lock and its fiber: parked, or back with an exception. */
  lemma EnterEnds(s: State, f: Fiber, p: Parked, s': State)
    requires Core(s) && f !in s.parked && s' == Enter(s, f, p) && f !in s.failed
    ensures SameLock(s, s') && (f in s'.failed <==> Throws(s, f)) && (f in s'.parked <==> !Throws(s, f))
  {
    if Throws(s, f) {
      ThrownCore(s, f, Thrown(s, f));
      PassSameLock(Thrown(s, f), p.relock, p.note);
      PassParked(Thrown(s, f), p.relock, p.note, f);
    }
  }

  lemma TryLockEnds(s: State, f: Fiber, relock: bool, note: Option<nat>, s': State)
    requires Core(s) && f !in s.parked && s' == TryLock(s, f, relock, note) && f !in s.failed
    ensures s.locked ==> SameLock(s, s') && (f in s'.failed <==> Throws(s, f)) && (f in s'.parked <==> !Throws(s, f))
    ensures !s.locked ==> s'.locked && s'.inside == s.inside + {f} && f !in s'.failed && f !in s'.parked
  {
    if s.locked {
      EnterEnds(s, f, Parked(Lockers, false, relock, note), s');
    }
  }

  lemma ThrowEnds(s: State, f: Fiber, s': State)
    requires Core(s) && f in s.parked && s' == ResumeThrows(s.(linked := s.linked - {f}), f)
    ensures SameLock(s, s') && f in s'.failed && f !in s'.parked
  {
    var s0, p := s.(linked := s.linked - {f}), s.parked[f];
    Unlinked(s, f, s0);
    var s1 := Thrown(Leave(s0, f), f);
    ThrownCore(Leave(s0, f), f, s1);
    if p.queue.Waiters? {
      PassSameLock(s1, p.wakeup, p.note);
      PassParked(s1, p.wakeup, p.note, f);
    } else {
      WokenLeaves(s1, p.wakeup, f);
      var s2 := if p.wakeup then NotifyOne(s1, Lockers, None) else s1;
      PassSameLock(s2, p.relock, p.note);
      PassParked(s2, p.relock, p.note, f);
    }
  }

  lemma WokenLeaves(s: State, wakeup: bool, f: Fiber)
    requires Core(s) && f !in s.parked
    ensures var s' := if wakeup then NotifyOne(s, Lockers, None) else s;
            Core(s') && SameLock(s, s') && s'.failed == s.failed && f !in s'.parked
  {
    NotifyCore(s, Lockers, None, NotifyOne(s, Lockers, None));
    NotifySameLock(s, Lockers, None);
    if s.lockers != [] {
      assert s.lockers[0] in s.lockers;
      assert WaitsIn(s, Lockers, s.lockers[0]);
    }
  }

  /**
    How a run of fiber f inside Lock or Wait ends: it waits, which it does only for a taken mutex
    or a notification; or an exception leaves, which only a pending cancellation or timeout causes
    and never a Lock on a free mutex; or it has the mutex, which was free.
  */
  predicate Outcome(s: State, step: Step, s': State)
    requires step.LockBy? || step.WaitBy? || step.ResumeOf?
  {
    var f := step.f;
    if f in s'.parked then s.locked && f !in s'.failed
    else if f in s'.failed then
      f !in s.guarded && (f in s.canceled || f in s.timedout) && (step.LockBy? ==> s.locked) && s'.inside <= s.inside
    else !step.WaitBy? && !s.locked && s'.locked && s'.inside == s.inside + {f}
  }

  lemma WaitEnds(s: State, f: Fiber, s': State)
    requires Inv(s) && f !in s.parked && s.locked && s' == Next(s, WaitBy(f))
    ensures Outcome(s, WaitBy(f), s') && !s'.locked && s'.inside == s.inside - {f}
  {
    var s0 := Begin(s, f);
    OutsideInv(s, s0);
    UnlockInv(s0, f, DoUnlock(s0, f));
    NotifySameLock(s0.(locked := false, inside := s0.inside - {f}), Lockers, None);
    EnterEnds(DoUnlock(s0, f), f, Parked(Waiters, false, false, None), s');
  }

  lemma ResumeEnds(s: State, f: Fiber, s': State)
    requires Inv(s) && Enabled(s, ResumeOf(f)) && s' == Next(s, ResumeOf(f))
    ensures Outcome(s, ResumeOf(f), s')
  {
    var s0 := Begin(s, f);
    OutsideInv(s, s0);
    if Throws(s, f) {
      ThrowEnds(s0, f, s');
    } else {
      var s1, p := s0.(linked := s.linked - {f}), s.parked[f];
      Unlinked(s0, f, s1);
      TryLockEnds(Leave(s1, f), f, p.queue.Waiters? || p.relock, p.note, s');
    }
  }

  /** In every run each Lock, Wait and resumption ends in one of these ways. */
  lemma CallOutcome(steps: seq<Step>, s: State, step: Step)
    requires Trace(START_STATE, steps, s) && Enabled(s, step) && (step.LockBy? || step.WaitBy? || step.ResumeOf?)
    ensures Outcome(s, step, Next(s, step))
  {
    TraceInv(START_STATE, steps, s);
    match step {
      case LockBy(f) => TryLockEnds(Begin(s, f), f, false, None, Next(s, step));
      case WaitBy(f) => WaitEnds(s, f, Next(s, step));
      case ResumeOf(f) => ResumeEnds(s, f, Next(s, step));
    }
  }

  lemma StepHeld(s: State, step: Step, s': State)
    requires Inv(s) && Held(s) && Enabled(s, step) && Rightful(s, step) && s' == Next(s, step)
    ensures Held(s')
  {
    match step {
      case LockBy(f) => TryLockEnds(Begin(s, f), f, false, None, s');
      case WaitBy(f) => WaitEnds(s, f, s');
      case ResumeOf(f) => ResumeHeld(s, f, s');
      case UnlockBy(f) => NotifySameLock(s.(locked := false, inside := s.inside - {f}), Lockers, None);
      case Notify => SignalSameLock(s.(place := s.place + [InHand]), |s.place|);
      case NotifyEvery => NotifyAllSameLock(s);
      case _ =>
    }
  }

  lemma ResumeHeld(s: State, f: Fiber, s': State)
    requires Inv(s) && Held(s) && Enabled(s, ResumeOf(f)) && s' == Next(s, ResumeOf(f))
    ensures Held(s')
  {
    var s0 := Begin(s, f);
    OutsideInv(s, s0);
    if Throws(s, f) {
      ThrowEnds(s0, f, s');
    } else {
      var s1, p := s0.(linked := s.linked - {f}), s.parked[f];
      Unlinked(s0, f, s1);
      TryLockEnds(Leave(s1, f), f, p.queue.Waiters? || p.relock, p.note, s');
    }
  }

  lemma {:induction false} TraceHeld(s: State, steps: seq<Step>, s': State)
    requires Inv(s) && Held(s) && Trace(s, steps, s') && Disciplined(s, steps)
    ensures Held(s')
    decreases |steps|
  {
    if steps != [] {
      StepInv(s, steps[0], Next(s, steps[0]));
      StepHeld(s, steps[0], Next(s, steps[0]));
      TraceHeld(Next(s, steps[0]), steps[1..], s');
    }
  }

  /**
    In every disciplined run at most one fiber is between its return from Lock or Wait and its
    Unlock, and the mutex is locked exactly while there is one.
  */
  lemma MutualExclusion(steps: seq<Step>, s: State)
    requires Trace(START_STATE, steps, s) && Disciplined(START_STATE, steps)
    ensures s.locked <==> s.inside != {}
    ensures forall f, g :: f in s.inside && g in s.inside ==> f == g
  {
    TraceHeld(START_STATE, steps, s);
  }

  /** A Lock on a free mutex makes its caller the fiber inside; an Unlock lets nobody be. */
  lemma LockUnlock(steps: seq<Step>, s: State, f: Fiber)
    requires Trace(START_STATE, steps, s) && Disciplined(START_STATE, steps) && f !in s.parked
    ensures !s.locked ==> Next(s, LockBy(f)).inside == {f} && Next(s, LockBy(f)).locked
    ensures f in s.inside ==>
              Enabled(s, UnlockBy(f)) && Next(s, UnlockBy(f)).inside == {} && !Next(s, UnlockBy(f)).locked
  {
    MutualExclusion(steps, s);
    TraceInv(START_STATE, steps, s);
    TryLockEnds(Begin(s, f), f, false, None, Next(s, LockBy(f)));
    NotifySameLock(s.(locked := false, inside := s.inside - {f}), Lockers, None);
  }

  // ---------------------------------------------------------------------------
  // Cancellation, timeouts, guards and the run queue
  // ---------------------------------------------------------------------------

  /** Wakeups touch no flag and make only waiting fibers runnable. */
  ghost predicate Spreads(s: State, s': State) {
    && s'.canceled == s.canceled && s'.timedout == s.timedout && s'.guarded == s.guarded && s.linked <= s'.linked
    && (forall g :: g in s'.linked ==> g in s.linked || g in s.lockers || g in s.waiters)
    && (forall g :: g in s'.lockers ==> g in s.lockers) && (forall g :: g in s'.waiters ==> g in s.waiters)
  }

  lemma SpreadsOn(a: State, b: State, c: State)
    requires Spreads(a, b) && Spreads(b, c)
    ensures Spreads(a, c)
  {
  }

  lemma NotifySpreads(s: State, q: Queue, note: Option<nat>)
    ensures Spreads(s, NotifyOne(s, q, note))
  {
    var w := Waiting(s, q);
    if w != [] {
      assert w == [w[0]] + w[1..];
    }
  }

  lemma SignalSpreads(s: State, n: nat)
    ensures Spreads(s, Signal(s, n))
  {
    NotifySpreads(s, Waiters, Some(n));
  }

  lemma IssueSpreads(s: State)
    ensures Spreads(s, Issue(s))
  {
    SignalSpreads(s.(place := s.place + [InHand]), |s.place|);
  }

  lemma {:induction false} NotifyAllSpreads(s: State)
    ensures Spreads(s, NotifyAll(s))
    decreases |s.waiters|
  {
    if s.waiters != [] {
      IssueSpreads(s);
      NotifyAllSpreads(Issue(s));
      SpreadsOn(s, Issue(s), NotifyAll(s));
    }
  }

  lemma PassSpreads(s: State, relock: bool, note: Option<nat>)
    ensures Spreads(s, PassNote(s, relock, note))
  {
    if relock && note.Some? {
      SignalSpreads(s, note.value);
    } else if relock {
      IssueSpreads(s);
    }
  }

  /** A run of fiber f changes no flag, but an exception without a cancellation uses up the timeout. */
  ghost predicate RunsOnly(s: State, f: Fiber, s': State) {
    && s'.canceled == s.canceled && s'.guarded == s.guarded
    && s'.timedout == (if f in s'.failed && f !in s.canceled then s.timedout - {f} else s.timedout)
    && (forall g :: g != f && g in s.linked ==> g in s'.linked)
    && (forall g :: g in s'.linked ==> g in s.linked || g in s.lockers || g in s.waiters)
  }

  lemma ThrownRuns(s: State, f: Fiber, s': State)
    requires Spreads(Thrown(s, f), s') && s'.failed == s.failed + {f}
    ensures RunsOnly(s, f, s')
  {
  }

  lemma EnterRuns(s: State, f: Fiber, p: Parked, s': State)
    requires s' == Enter(s, f, p) && f !in s.failed
    ensures RunsOnly(s, f, s')
  {
    if Throws(s, f) {
      PassSpreads(Thrown(s, f), p.relock, p.note);
      PassSameLock(Thrown(s, f), p.relock, p.note);
      ThrownRuns(s, f, s');
    }
  }

  lemma TryLockRuns(s: State, f: Fiber, relock: bool, note: Option<nat>, s': State)
    requires s' == TryLock(s, f, relock, note) && f !in s.failed
    ensures RunsOnly(s, f, s')
  {
    if s.locked {
      EnterRuns(s, f, Parked(Lockers, false, relock, note), s');
    }
  }

  lemma LeaveQueues(s: State, f: Fiber)
    ensures var s' := Leave(s, f);
            && s'.canceled == s.canceled && s'.timedout == s.timedout && s'.guarded == s.guarded && s'.linked == s.linked
            && s'.failed == s.failed
            && (forall g :: g in s'.lockers ==> g in s.lockers) && (forall g :: g in s'.waiters ==> g in s.waiters)
  {
    WithoutFacts(s.lockers, f);
    WithoutFacts(s.waiters, f);
  }

  lemma ThrowRuns(s: State, f: Fiber, s': State)
    requires f in s.parked && s' == ResumeThrows(s, f) && f !in s.failed
    ensures RunsOnly(s, f, s')
  {
    var p, s0 := s.parked[f], Leave(s, f);
    var s1 := Thrown(s0, f);
    LeaveQueues(s, f);
    if p.queue.Waiters? {
      PassSpreads(s1, p.wakeup, p.note);
      PassSameLock(s1, p.wakeup, p.note);
    } else {
      var s2 := if p.wakeup then NotifyOne(s1, Lockers, None) else s1;
      NotifySpreads(s1, Lockers, None);
      NotifySameLock(s1, Lockers, None);
      PassSpreads(s2, p.relock, p.note);
      PassSameLock(s2, p.relock, p.note);
      SpreadsOn(s1, s2, s');
    }
    ThrownRuns(s0, f, s');
  }

  lemma ResumeRuns(s: State, f: Fiber, s': State)
    requires f in s.parked && s' == Resume(s, f) && f !in s.failed
    ensures RunsOnly(s, f, s')
  {
    var s0 := s.(linked := s.linked - {f});
    if Throws(s, f) {
      ThrowRuns(s0, f, s');
    } else {
      LeaveQueues(s0, f);
      TryLockRuns(Leave(s0, f), f, s.parked[f].queue.Waiters? || s.parked[f].relock, s.parked[f].note, s');
    }
  }

  /** The fiber that runs in a step. */
  predicate RunBy(step: Step, f: Fiber) {
    (step.LockBy? || step.WaitBy? || step.ResumeOf? || step.RunOther?) && step.f == f
  }

  /**
    What a step does to cancellations, guards and timeouts: exactly the calls that set them, and
    the exception that a timeout becomes, change them.
  */
  ghost predicate FlagsKept(s: State, step: Step, s': State) {
    && (forall f :: f in s'.canceled <==> f in s.canceled || step == Cancel(f))
    && (forall f :: f in s'.guarded <==> if step.SetGuard? && step.f == f then step.on else f in s.guarded)
    && (forall f :: f in s'.timedout <==>
          step == Timeout(f)
          || (f in s.timedout && !(RunBy(step, f) && !step.RunOther? && f in s'.failed && f !in s.canceled)))
  }

  /** Who may run after a step: fibers that could before, woken waiters, and whoever was cancelled or timed out unguarded. */
  ghost predicate RunQueue(s: State, step: Step, s': State) {
    && (forall g :: g in s.linked && !RunBy(step, g) ==> g in s'.linked)
    && ((step.Cancel? || step.Timeout?) && step.f !in s.guarded ==> step.f in s'.linked)
    && (forall g :: g in s'.linked ==>
          || g in s.linked || g in s.lockers || g in s.waiters
          || ((step.Cancel? || step.Timeout?) && step.f == g && g !in s.guarded))
    && (step.RunOther? ==> step.f !in s'.linked)
  }

  lemma UnlockSpreads(s: State, f: Fiber)
    ensures Spreads(s, DoUnlock(s, f)) && DoUnlock(s, f).failed == s.failed
  {
    NotifySpreads(s.(locked := false, inside := s.inside - {f}), Lockers, None);
    NotifySameLock(s.(locked := false, inside := s.inside - {f}), Lockers, None);
  }

  lemma WaitRuns(s: State, f: Fiber, s': State)
    requires s' == Enter(DoUnlock(s, f), f, Parked(Waiters, false, false, None)) && f !in s.failed
    ensures RunsOnly(s, f, s')
  {
    UnlockSpreads(s, f);
    EnterRuns(DoUnlock(s, f), f, Parked(Waiters, false, false, None), s');
  }

  lemma RunStepFlags(s: State, step: Step, s': State)
    requires Enabled(s, step) && s' == Next(s, step) && (step.LockBy? || step.WaitBy? || step.ResumeOf?)
    ensures RunsOnly(Begin(s, step.f), step.f, s')
  {
    match step {
      case LockBy(f) => TryLockRuns(Begin(s, f), f, false, None, s');
      case WaitBy(f) => WaitRuns(Begin(s, f), f, s');
      case ResumeOf(f) => ResumeRuns(Begin(s, f), f, s');
    }
  }

  lemma FlagCalls(s: State, step: Step, s': State)
    requires Enabled(s, step) && s' == Next(s, step)
    requires step.Cancel? || step.Timeout? || step.SetGuard? || step.RunOther?
    ensures FlagsKept(s, step, s') && RunQueue(s, step, s')
  {
  }

  lemma SpreadCalls(s: State, step: Step, s': State)
    requires Spreads(s, s') && (step.UnlockBy? || step.Notify? || step.NotifyEvery?)
    ensures FlagsKept(s, step, s') && RunQueue(s, step, s')
  {
  }

  lemma RunCalls(s: State, step: Step, s': State)
    requires step.LockBy? || step.WaitBy? || step.ResumeOf?
    requires RunsOnly(Begin(s, step.f), step.f, s')
    ensures FlagsKept(s, step, s') && RunQueue(s, step, s')
  {
  }

  /** Flags and run queue change only as the calls say. */
  lemma FlagsAndRunQueue(s: State, step: Step, s': State)
    requires Enabled(s, step) && s' == Next(s, step)
    ensures FlagsKept(s, step, s') && RunQueue(s, step, s')
  {
    if step.UnlockBy? || step.Notify? || step.NotifyEvery? {
      match step {
        case UnlockBy(f) => UnlockSpreads(s, f);
        case Notify => IssueSpreads(s);
        case NotifyEvery => NotifyAllSpreads(s);
      }
      SpreadCalls(s, step, s');
    } else if step.LockBy? || step.WaitBy? || step.ResumeOf? {
      RunStepFlags(s, step, s');
      RunCalls(s, step, s');
    } else {
      FlagCalls(s, step, s');
    }
  }

  /** A parked fiber that is cancelled or timed out, and not guarded, is runnable at once and leaves with an exception. */
  lemma PendingThrows(steps: seq<Step>, s: State, f: Fiber, step: Step)
    requires Trace(START_STATE, steps, s) && f in s.parked && f !in s.guarded && (step == Cancel(f) || step == Timeout(f))
    ensures var s' := Next(s, step);
            && Enabled(s', ResumeOf(f))
            && f in Next(s', ResumeOf(f)).failed && f !in Next(s', ResumeOf(f)).parked && f !in Next(s', ResumeOf(f)).linked
  {
    var s' := Next(s, step);
    TraceInv(START_STATE, steps, s);
    StepInv(s, step, s');
    OutsideInv(s', Begin(s', f));
    ThrowEnds(Begin(s', f), f, Next(s', ResumeOf(f)));
    ThrowUnlinks(Begin(s', f), f, Next(s', ResumeOf(f)));
  }

  lemma ThrowUnlinks(s: State, f: Fiber, s': State)
    requires Core(s) && f in s.parked && s' == ResumeThrows(s.(linked := s.linked - {f}), f)
    ensures f !in s'.linked
  {
    var s0, p := s.(linked := s.linked - {f}), s.parked[f];
    Unlinked(s, f, s0);
    var s1 := Thrown(Leave(s0, f), f);
    ThrownCore(Leave(s0, f), f, s1);
    assert !WaitsIn(s1, Lockers, f) && !WaitsIn(s1, Waiters, f);
    if p.queue.Waiters? {
      PassSpreads(s1, p.wakeup, p.note);
    } else {
      var s2 := if p.wakeup then NotifyOne(s1, Lockers, None) else s1;
      NotifySpreads(s1, Lockers, None);
      PassSpreads(s2, p.relock, p.note);
      SpreadsOn(s1, s2, s');
    }
  }

  // ---------------------------------------------------------------------------
  // The way of a notification
  // ---------------------------------------------------------------------------

  ghost function Carriers(s: State): set<Fiber> {
    set f | f in s.parked && s.parked[f].note.Some?
  }

  /** How many of the notifications are delivered or lost. */
  ghost function SettledCount(place: seq<Place>): nat {
    if place == [] then 0 else SettledCount(place[..|place| - 1]) + (if Settled(place[|place| - 1]) then 1 else 0)
  }

  predicate Settled(p: Place) {
    p.Delivered? || p.Lost?
  }

  /** Fibers and the unsettled ones among the first k notifications correspond one to one. */
  lemma {:induction false} CarriersCount(place: seq<Place>, fibers: set<Fiber>)
    requires forall n :: 0 <= n < |place| ==> Settled(place[n]) || (place[n].Carried? && place[n].f in fibers)
    requires forall f :: f in fibers ==> exists n :: 0 <= n < |place| && place[n] == Carried(f)
    requires forall m, n :: 0 <= m < n < |place| && place[m].Carried? ==> place[n] != place[m]
    ensures |place| == SettledCount(place) + |fibers|
    decreases |place|
  {
    if place == [] {
      assert fibers == {};
    } else {
      var k := |place| - 1;
      var rest := if Settled(place[k]) then fibers else fibers - {place[k].f};
      forall f | f in rest ensures exists n :: 0 <= n < |place[..k]| && place[..k][n] == Carried(f) {
        var n :| 0 <= n < |place| && place[n] == Carried(f);
        assert place[..k][n] == Carried(f);
      }
      CarriersCount(place[..k], rest);
    }
  }

  /**
    In every run, each notification of the condition variable was delivered, was lost, or is
    carried by exactly one parked fiber; and every woken waiter carries one.
  */
  lemma NotificationsConserved(steps: seq<Step>, s: State)
    requires Trace(START_STATE, steps, s)
    ensures |s.place| == SettledCount(s.place) + |Carriers(s)|
    ensures forall n :: 0 <= n < |s.place| && !Settled(s.place[n]) ==>
              s.place[n].Carried? && s.place[n].f in s.parked && s.parked[s.place[n].f].note == Some(n)
    ensures forall f :: f in s.parked && s.parked[f].queue.Waiters? && s.parked[f].wakeup ==> f in Carriers(s)
  {
    TraceInv(START_STATE, steps, s);
    forall n | 0 <= n < |s.place| ensures PlaceOk(s.parked, None, n, s.place[n]) { }
    forall f | f in s.parked ensures NoteOk(s.place, f, s.parked[f]) { }
    forall f | f in Carriers(s) ensures exists n :: 0 <= n < |s.place| && s.place[n] == Carried(f) {
      assert s.place[s.parked[f].note.value] == Carried(f);
    }
    CarriersCount(s.place, Carriers(s));
  }

  /** The waiters besides the fiber that runs. */
  function Others(s: State, step: Step): seq<Fiber> {
    if step.ResumeOf? then Without(s.waiters, step.f) else s.waiters
  }

  /** A notification goes to the first in the queue, or is lost on an empty one. */
  function Goal(w: seq<Fiber>): Place {
    if w == [] then Lost else Carried(w[0])
  }

  /** What a step does to a notification that fiber f carries. */
  function CarriedOn(s: State, step: Step, f: Fiber): Place {
    if step != ResumeOf(f) then Carried(f)
    else if Throws(s, f) then Goal(Others(s, step))
    else if s.locked then Carried(f)
    else Delivered(f)
  }

  /** What a step does to the n-th notification. */
  predicate Moves(s: State, step: Step, s': State, n: nat) {
    if n < |s.place| then
      n < |s'.place| && s'.place[n] == if s.place[n].Carried? then CarriedOn(s, step, s.place[n].f) else s.place[n]
    else n < |s'.place| ==>
           if step.NotifyEvery? then n < |s.place| + |s.waiters| && s'.place[n] == Carried(s.waiters[n - |s.place|])
           else n == |s.place| && s'.place[n] == Goal(Others(s, step))
  }

  lemma SignalMoves(s: State, n: nat, s': State)
    requires n < |s.place| && s' == Signal(s, n)
    ensures s'.place == s.place[n := Goal(s.waiters)] && s'.waiters == if s.waiters == [] then [] else s.waiters[1..]
  {
  }

  lemma IssueMoves(s: State, s': State)
    requires s' == Issue(s)
    ensures s'.place == s.place + [Goal(s.waiters)] && s'.waiters == if s.waiters == [] then [] else s.waiters[1..]
  {
    SignalMoves(s.(place := s.place + [InHand]), |s.place|, s');
  }

  lemma {:induction false} NotifyAllMoves(s: State, s': State)
    requires s' == NotifyAll(s)
    ensures |s'.place| == |s.place| + |s.waiters|
    ensures forall n :: 0 <= n < |s'.place| ==>
              s'.place[n] == if n < |s.place| then s.place[n] else Carried(s.waiters[n - |s.place|])
    decreases |s.waiters|
  {
    if s.waiters != [] {
      var s1 := Issue(s);
      IssueMoves(s, s1);
      NotifyAllMoves(s1, s');
    }
  }

  /** What PassNote does to the notifications: the one in hand, or a new one, goes to its goal. */
  lemma PassNoteMoves(s: State, relock: bool, note: Option<nat>, s': State)
    requires s' == PassNote(s, relock, note) && (note.Some? ==> relock && note.value < |s.place|)
    ensures s'.place == if note.Some? then s.place[note.value := Goal(s.waiters)]
                        else if relock then s.place + [Goal(s.waiters)] else s.place
  {
    if note.Some? {
      SignalMoves(s, note.value, s');
    } else if relock {
      IssueMoves(s, s');
    }
  }

  lemma ThrowMoves(s: State, f: Fiber, s': State, n: nat)
    requires Inv(s) && f in s.parked && Throws(s, f) && s' == Resume(s, f)
    ensures Moves(s, ResumeOf(f), s', n)
  {
    var p, s0 := s.parked[f], s.(linked := s.linked - {f});
    assert NoteOk(s.place, f, p);
    var s1 := Thrown(Leave(s0, f), f);
    OthersKept(s, f, s1);
    if p.queue.Waiters? {
      PassNoteMoves(s1, p.wakeup, p.note, s');
    } else {
      var s2 := if p.wakeup then NotifyOne(s1, Lockers, None) else s1;
      assert s2.place == s1.place && s2.waiters == s1.waiters;
      PassNoteMoves(s2, p.relock, p.note, s');
    }
    assert n < |s.place| ==> PlaceOk(s.parked, None, n, s.place[n]);
  }

  /** Once f has left its wait queue, the waiters are the others. */
  lemma OthersKept(s: State, f: Fiber, s1: State)
    requires Core(s) && f in s.parked && s1 == Thrown(Leave(s.(linked := s.linked - {f}), f), f)
    ensures s1.waiters == Others(s, ResumeOf(f)) && s1.place == Move(s.place, s.parked[f].note, InHand)
  {
    if s.parked[f].queue.Lockers? {
      assert !WaitsIn(s, Waiters, f);
      WithoutAbsent(s.waiters, f);
    }
  }

  lemma {:induction false} WithoutAbsent(q: seq<Fiber>, f: Fiber)
    requires f !in q
    ensures Without(q, f) == q
  {
    if q != [] {
      WithoutAbsent(q[1..], f);
    }
  }

  lemma ReturnMoves(s: State, f: Fiber, s': State, n: nat)
    requires Inv(s) && f in s.parked && !Throws(s, f) && s' == Resume(s, f)
    ensures Moves(s, ResumeOf(f), s', n)
  {
    var p := s.parked[f];
    assert NoteOk(s.place, f, p);
    assert n < |s.place| ==> PlaceOk(s.parked, None, n, s.place[n]);
    assert s'.place == Move(Move(s.place, p.note, InHand), p.note, if s.locked then Carried(f) else Delivered(f));
  }

  lemma LockMoves(s: State, f: Fiber, s': State)
    requires s' == TryLock(s, f, false, None)
    ensures s'.place == s.place
  {
  }

  /** Every step takes every notification where it should go. */
  lemma StepMoves(s: State, step: Step, s': State, n: nat)
    requires Inv(s) && Enabled(s, step) && s' == Next(s, step)
    ensures Moves(s, step, s', n)
  {
    match step {
      case LockBy(f) => LockMoves(Begin(s, f), f, s');
      case Notify => IssueMoves(s, s');
      case NotifyEvery => NotifyAllMoves(s, s');
      case ResumeOf(f) =>
        OutsideInv(s, Begin(s, f));
        if Throws(s, f) { ThrowMoves(Begin(s, f), f, s', n); } else { ReturnMoves(Begin(s, f), f, s', n); }
      case _ => assert s'.place == s.place;
    }
  }

  predicate SettledAt(s: State, n: nat) {
    n < |s.place| && Settled(s.place[n])
  }

  /** The step of a run that settles a notification: before it, m; after it, the place does not change. */
  lemma {:induction false} SettledBy(s: State, steps: seq<Step>, s': State, n: nat) returns (i: nat, m: State)
    requires Inv(s) && Trace(s, steps, s') && !SettledAt(s, n) && SettledAt(s', n)
    ensures i < |steps| && Trace(s, steps[..i], m) && Inv(m) && !SettledAt(m, n)
    ensures Enabled(m, steps[i]) && Moves(m, steps[i], Next(m, steps[i]), n)
    ensures n < |Next(m, steps[i]).place| && Next(m, steps[i]).place[n] == s'.place[n]
    decreases |steps|
  {
    var s1 := Next(s, steps[0]);
    StepInv(s, steps[0], s1);
    StepMoves(s, steps[0], s1, n);
    if SettledAt(s1, n) {
      SettledForever(s1, steps[1..], s', n);
      i, m := 0, s;
    } else {
      i, m := SettledBy(s1, steps[1..], s', n);
      assert steps[..i + 1][1..] == steps[1..][..i];
      i := i + 1;
    }
  }

  /** A notification is delivered or lost once and for all. */
  lemma {:induction false} SettledForever(s: State, steps: seq<Step>, s': State, n: nat)
    requires Inv(s) && Trace(s, steps, s') && SettledAt(s, n)
    ensures SettledAt(s', n) && s'.place[n] == s.place[n]
    decreases |steps|
  {
    if steps != [] {
      StepInv(s, steps[0], Next(s, steps[0]));
      StepMoves(s, steps[0], Next(s, steps[0]), n);
      SettledForever(Next(s, steps[0]), steps[1..], s', n);
    }
  }

  /**
    A notification lost in a run was lost at one step, at which nobody besides the fiber that
    ran was waiting; it was new then, or that fiber carried it and left with an exception.
  */
  lemma LostOnlyWhenNobodyWaits(steps: seq<Step>, s: State, n: nat) returns (i: nat, m: State)
    requires Trace(START_STATE, steps, s) && n < |s.place| && s.place[n] == Lost
    ensures i < |steps| && Trace(START_STATE, steps[..i], m) && Enabled(m, steps[i]) && Others(m, steps[i]) == []
    ensures if n < |m.place| then steps[i].ResumeOf? && m.place[n] == Carried(steps[i].f) && Throws(m, steps[i].f)
            else n == |m.place|
  {
    i, m := SettledBy(START_STATE, steps, s, n);
    assert n < |m.place| ==> PlaceOk(m.parked, None, n, m.place[n]);
  }

  /** A delivered notification reached its fiber as that fiber took the free mutex on its way out of Wait. */
  lemma DeliveredToItsCarrier(steps: seq<Step>, s: State, n: nat) returns (i: nat, m: State)
    requires Trace(START_STATE, steps, s) && n < |s.place| && s.place[n].Delivered?
    ensures i < |steps| && Trace(START_STATE, steps[..i], m) && steps[i] == ResumeOf(s.place[n].f)
    ensures n < |m.place| && m.place[n] == Carried(s.place[n].f)
    ensures Enabled(m, steps[i]) && !m.locked && !Throws(m, s.place[n].f) && Next(m, steps[i]).locked
  {
    i, m := SettledBy(START_STATE, steps, s, n);
    assert n < |m.place| ==> PlaceOk(m.parked, None, n, m.place[n]);
  }

  /** In every run: who carries a notification next, and where it ends. */
  lemma NotificationsHandedOn(steps: seq<Step>, s: State, step: Step, n: nat)
    requires Trace(START_STATE, steps, s) && Enabled(s, step)
    ensures Moves(s, step, Next(s, step), n)
  {
    TraceInv(START_STATE, steps, s);
    StepMoves(s, step, Next(s, step), n);
  }
}
