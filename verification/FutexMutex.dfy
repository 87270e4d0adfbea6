/**
  The three-state futex mutex: 0 free, 1 locked, 2 locked and perhaps contended. Each atomic
  operation and each system call is one step; sleepers may also wake up spuriously.
*/
module FutexMutex {
  import opened Common

  type Thread = nat

  datatype Local =
    | Outside
    | TryLock
    | Exchange
    | Wait
    | Asleep
    | Holding
    | StoreZero
    | Wake
  {
    /** Between acquiring the lock and the store or subtraction that frees it. */
    predicate Owner() { Holding? || StoreZero? }

    /** About to wake a sleeper, to exchange in 2, or to free the lock and then wake a sleeper. */
    predicate Helping() { StoreZero? || Wake? || Exchange? }
  }

  /** holder is auxiliary: the thread that owns the lock. */
  datatype Mutex = Mutex(state: int, local: map<Thread, Local>, holder: Option<Thread>)

  const START_MUTEX: Mutex := Mutex(0, map[], None)

  function LocalOf(m: Mutex, t: Thread): Local {
    if t in m.local then m.local[t] else Outside
  }

  function At(m: Mutex, t: Thread, l: Local): Mutex {
    m.(local := m.local[t := l])
  }

  datatype Step = Lock(t: Thread) | Unlock(t: Thread) | Run(t: Thread) | Futex(t: Thread, woken: Option<Thread>) | Spurious(t: Thread)

  /** FutexWake(1) wakes one sleeper of its choice if there is any. */
  predicate CanWake(m: Mutex, woken: Option<Thread>) {
    match woken
    case Some(u) => LocalOf(m, u).Asleep?
    case None => forall u :: u in m.local ==> !m.local[u].Asleep?
  }

  predicate Enabled(m: Mutex, step: Step) {
    match step
    case Lock(t) => LocalOf(m, t).Outside?
    case Unlock(t) => LocalOf(m, t).Holding?
    case Run(t) => var l := LocalOf(m, t); l.TryLock? || l.Exchange? || l.Wait? || l.StoreZero?
    case Futex(t, woken) => LocalOf(m, t).Wake? && CanWake(m, woken)
    case Spurious(t) => LocalOf(m, t).Asleep?
  }

  /** The compare-and-exchange at the top of Lock. */
  function DoTryLock(m: Mutex, t: Thread): Mutex {
    if m.state == 0 then At(m, t, Holding).(state := 1, holder := Some(t))
    else if m.state != 2 then At(m, t, Exchange)
    else At(m, t, Wait)
  }

  function DoExchange(m: Mutex, t: Thread): Mutex {
    if m.state == 0 then At(m, t, Holding).(state := 2, holder := Some(t)) else At(m, t, Wait).(state := 2)
  }

  /** FutexWait(2): sleeps only if the word still is 2. */
  function DoWait(m: Mutex, t: Thread): Mutex {
    At(m, t, if m.state == 2 then Asleep else Exchange)
  }

  /** fetch_sub, and the test of the value it replaced. */
  function DoUnlock(m: Mutex, t: Thread): Mutex {
    if m.state != 1 then At(m, t, StoreZero).(state := m.state - 1)
    else At(m, t, Outside).(state := m.state - 1, holder := None)
  }

  function DoStoreZero(m: Mutex, t: Thread): Mutex {
    At(m, t, Wake).(state := 0, holder := None)
  }

  function DoWake(m: Mutex, t: Thread, woken: Option<Thread>): Mutex {
    var m' := At(m, t, Outside);
    if woken.Some? then At(m', woken.value, Exchange) else m'
  }

  function Next(m: Mutex, step: Step): Mutex
    requires Enabled(m, step)
  {
    match step
    case Lock(t) => At(m, t, TryLock)
    case Unlock(t) => DoUnlock(m, t)
    case Run(t) =>
      (match LocalOf(m, t)
       case TryLock => DoTryLock(m, t)
       case Exchange => DoExchange(m, t)
       case Wait => DoWait(m, t)
       case _ => DoStoreZero(m, t))
    case Futex(t, woken) => DoWake(m, t, woken)
    case Spurious(t) => At(m, t, Exchange)
  }

  // ---------------------------------------------------------------------------
  // Invariants
  // ---------------------------------------------------------------------------

  /** The word is non-zero exactly while one thread owns the lock. */
  ghost predicate Exclusion(m: Mutex) {
    && (m.state == 0 || m.state == 1 || m.state == 2)
    && (m.state == 0 <==> m.holder.None?)
    && (m.holder.Some? ==> LocalOf(m, m.holder.value).Owner())
    && (forall t :: t in m.local && m.local[t].Owner() ==> m.holder == Some(t))
  }

  ghost predicate Helped(m: Mutex) {
    m.state == 2 || exists t :: t in m.local && m.local[t].Helping()
  }

  /** Whoever sleeps will be seen: the word is 2, or a thread is on its way to change that. */
  ghost predicate NoLostSleeper(m: Mutex) {
    forall t :: t in m.local && m.local[t].Asleep? ==> Helped(m)
  }

  ghost predicate Inv(m: Mutex) {
    Exclusion(m) && NoLostSleeper(m)
  }

  /** A step that lets every other helper be, or provides one itself, loses no sleeper. */
  lemma KeepHelp(m: Mutex, t: Thread, m': Mutex)
    requires NoLostSleeper(m) && t in m'.local && m'.local == m.local[t := m'.local[t]]
    requires m'.local[t].Asleep? ==> m'.state == 2
    requires Helped(m) ==> m'.state == 2 || m'.local[t].Helping() || (m.state != 2 && !LocalOf(m, t).Helping())
    ensures NoLostSleeper(m')
  {
    if u :| u in m.local && m.local[u].Helping() && u != t {
      assert m'.local[u].Helping();
    }
    if u :| u in m'.local && m'.local[u].Asleep? {
      assert m'.state == 2 || m'.local[t].Helping() || Helped(m');
    }
  }

  lemma LockInv(m: Mutex, t: Thread)
    requires Inv(m) && LocalOf(m, t).Outside?
    ensures Inv(At(m, t, TryLock))
  {
    KeepHelp(m, t, At(m, t, TryLock));
  }

  lemma TryLockInv(m: Mutex, t: Thread)
    requires Inv(m) && LocalOf(m, t).TryLock?
    ensures Inv(DoTryLock(m, t))
  {
    KeepHelp(m, t, DoTryLock(m, t));
  }

  lemma ExchangeInv(m: Mutex, t: Thread)
    requires Inv(m) && LocalOf(m, t).Exchange?
    ensures Inv(DoExchange(m, t))
  {
    KeepHelp(m, t, DoExchange(m, t));
  }

  lemma WaitInv(m: Mutex, t: Thread)
    requires Inv(m) && LocalOf(m, t).Wait?
    ensures Inv(DoWait(m, t))
  {
    KeepHelp(m, t, DoWait(m, t));
  }

  lemma UnlockInv(m: Mutex, t: Thread)
    requires Inv(m) && LocalOf(m, t).Holding?
    ensures Inv(DoUnlock(m, t))
  {
    KeepHelp(m, t, DoUnlock(m, t));
  }

  lemma StoreZeroInv(m: Mutex, t: Thread)
    requires Inv(m) && LocalOf(m, t).StoreZero?
    ensures Inv(DoStoreZero(m, t))
  {
    KeepHelp(m, t, DoStoreZero(m, t));
  }

  lemma WakeInv(m: Mutex, t: Thread, woken: Option<Thread>)
    requires Inv(m) && LocalOf(m, t).Wake? && CanWake(m, woken)
    ensures Inv(DoWake(m, t, woken))
  {
    var m' := DoWake(m, t, woken);
    if woken.Some? {
      assert m'.local[woken.value].Helping();
    }
  }

  lemma SpuriousInv(m: Mutex, t: Thread)
    requires Inv(m) && LocalOf(m, t).Asleep?
    ensures Inv(At(m, t, Exchange))
  {
    KeepHelp(m, t, At(m, t, Exchange));
  }

  lemma StepInv(m: Mutex, step: Step)
    requires Inv(m) && Enabled(m, step)
    ensures Inv(Next(m, step))
  {
    match step {
      case Lock(t) => LockInv(m, t);
      case Unlock(t) => UnlockInv(m, t);
      case Run(t) =>
        match LocalOf(m, t) {
          case TryLock => TryLockInv(m, t);
          case Exchange => ExchangeInv(m, t);
          case Wait => WaitInv(m, t);
          case _ => StoreZeroInv(m, t);
        }
      case Futex(t, woken) => WakeInv(m, t, woken);
      case Spurious(t) => SpuriousInv(m, t);
    }
  }

  predicate Trace(m: Mutex, steps: seq<Step>, m': Mutex)
    decreases |steps|
  {
    if steps == [] then m == m' else Enabled(m, steps[0]) && Trace(Next(m, steps[0]), steps[1..], m')
  }

  lemma {:induction false} TraceInv(m: Mutex, steps: seq<Step>, m': Mutex)
    requires Inv(m) && Trace(m, steps, m')
    ensures Inv(m')
    decreases |steps|
  {
    if steps != [] {
      StepInv(m, steps[0]);
      TraceInv(Next(m, steps[0]), steps[1..], m');
    }
  }

  /** At most one thread is between Lock and Unlock. */
  lemma MutualExclusion(steps: seq<Step>, m: Mutex, t: Thread, u: Thread)
    requires Trace(START_MUTEX, steps, m) && LocalOf(m, t).Holding? && LocalOf(m, u).Holding?
    ensures t == u
  {
    TraceInv(START_MUTEX, steps, m);
    assert t in m.local && m.local[t].Owner() && u in m.local && m.local[u].Owner();
  }

  // ---------------------------------------------------------------------------
  // Calls
  // ---------------------------------------------------------------------------

  /** Whether, after these calls, thread t has called Lock and not yet Unlock. */
  predicate Entered(steps: seq<Step>, t: Thread, before: bool) {
    if steps == [] then before
    else Entered(steps[1..], t, if steps[0] == Lock(t) then true else if steps[0] == Unlock(t) then false else before)
  }

  /** Inside Lock, or back from it. */
  predicate Locking(l: Local) {
    l.TryLock? || l.Exchange? || l.Wait? || l.Asleep? || l.Holding?
  }

  lemma StepCalls(m: Mutex, step: Step, t: Thread)
    requires Enabled(m, step)
    ensures Locking(LocalOf(Next(m, step), t)) ==
            if step == Lock(t) then true else if step == Unlock(t) then false else Locking(LocalOf(m, t))
  {
  }

  lemma {:induction false} TraceCalls(m: Mutex, steps: seq<Step>, m': Mutex, t: Thread)
    requires Trace(m, steps, m')
    ensures Locking(LocalOf(m', t)) == Entered(steps, t, Locking(LocalOf(m, t)))
    decreases |steps|
  {
    if steps != [] {
      StepCalls(m, steps[0], t);
      TraceCalls(Next(m, steps[0]), steps[1..], m', t);
    }
  }

  /** In every run a thread that has called Lock and not Unlock is still in Lock or holds the lock, and only such a thread. */
  lemma LockEndsHolding(steps: seq<Step>, m: Mutex, t: Thread)
    requires Trace(START_MUTEX, steps, m)
    ensures Entered(steps, t, false) <==> Locking(LocalOf(m, t))
    ensures Entered(steps, t, false) ==> LocalOf(m, t).Holding? || Enabled(m, Run(t)) || LocalOf(m, t).Asleep?
  {
    TraceCalls(START_MUTEX, steps, m, t);
  }

  /** A Lock on a free mutex has it after one step of its thread, from wherever it tries. */
  lemma FreeLockAtOnce(m: Mutex, t: Thread)
    requires m.state == 0
    requires LocalOf(m, t).TryLock? || LocalOf(m, t).Exchange?
    ensures Enabled(m, Run(t)) && LocalOf(Next(m, Run(t)), t).Holding? && Next(m, Run(t)).state != 0
  {
  }

  /** In every run the word is 0 exactly while no thread is between its acquisition and its release. */
  lemma FreeMeansUnheld(steps: seq<Step>, m: Mutex)
    requires Trace(START_MUTEX, steps, m)
    ensures m.state == 0 <==> forall t :: t in m.local ==> !m.local[t].Owner()
  {
    TraceInv(START_MUTEX, steps, m);
    if m.holder.Some? {
      assert m.local[m.holder.value].Owner();
    }
  }

  /** With no other caller, Lock and Unlock are two steps each way and leave the mutex free. */
  lemma Uncontended(m: Mutex, t: Thread) returns (held: Mutex, after: Mutex)
    requires m.state == 0 && LocalOf(m, t).Outside?
    ensures Trace(m, [Lock(t), Run(t)], held) && LocalOf(held, t).Holding? && held.state == 1
    ensures Trace(held, [Unlock(t)], after) && LocalOf(after, t).Outside? && after.state == 0
  {
    var m1 := Next(m, Lock(t));
    held := Next(m1, Run(t));
    after := Next(held, Unlock(t));
    assert [Lock(t), Run(t)][1..] == [Run(t)] && [Run(t)][1..] == [] && [Unlock(t)][1..] == [];
    assert Trace(held, [], held) && Trace(after, [], after);
    assert Trace(m1, [Run(t)], held);
  }

  /** Steps of one thread while the others do nothing. */
  lemma TwoSteps(m: Mutex, a: Step, m1: Mutex, b: Step, m2: Mutex)
    requires Enabled(m, a) && m1 == Next(m, a) && Enabled(m1, b) && m2 == Next(m1, b)
    ensures Trace(m, [a, b], m2)
  {
    assert [a, b][1..] == [b] && [b][1..] == [] && Trace(m2, [], m2);
    assert Trace(m1, [b], m2);
  }

  /**
    The slow path: with the word 1 a Lock exchanges in 2 and sleeps on 2, with the word 2 it
    sleeps at once; a thread that finds the word changed when it would sleep tries again.
  */
  lemma ContendedLock(m: Mutex, t: Thread) returns (m1: Mutex, m2: Mutex, m3: Mutex)
    requires LocalOf(m, t).TryLock? && (m.state == 1 || m.state == 2)
    ensures Trace(m, [Run(t), Run(t)], m2) && m2.state == 2
    ensures m.state == 2 ==> LocalOf(m2, t).Asleep?
    ensures m.state == 1 ==> Enabled(m2, Run(t)) && m3 == Next(m2, Run(t)) && LocalOf(m3, t).Asleep? && m3.state == 2
  {
    m1 := Next(m, Run(t));
    m2 := Next(m1, Run(t));
    TwoSteps(m, Run(t), m1, Run(t), m2);
    m3 := if m.state == 1 then Next(m2, Run(t)) else m2;
  }

  /** A thread that would sleep while the mutex is free has it two steps later. */
  lemma WaitRetries(m: Mutex, t: Thread) returns (m2: Mutex)
    requires LocalOf(m, t).Wait? && m.state == 0
    ensures Trace(m, [Run(t), Run(t)], m2) && LocalOf(m2, t).Holding? && m2.state == 2
  {
    m2 := Next(Next(m, Run(t)), Run(t));
    TwoSteps(m, Run(t), Next(m, Run(t)), Run(t), m2);
  }

  /** Unlocking a contended mutex: the word goes from 2 over 1 to 0 before a sleeper is woken. */
  lemma ContendedUnlock(m: Mutex, t: Thread, u: Thread) returns (m1: Mutex, m2: Mutex, m3: Mutex)
    requires LocalOf(m, t).Holding? && m.state == 2 && LocalOf(m, u).Asleep?
    ensures Enabled(m, Unlock(t)) && m1 == Next(m, Unlock(t)) && m1.state == 1
    ensures Enabled(m1, Run(t)) && m2 == Next(m1, Run(t)) && m2.state == 0
    ensures Enabled(m2, Futex(t, Some(u))) && m3 == Next(m2, Futex(t, Some(u))) && m3.state == 0
    ensures LocalOf(m3, t).Outside? && LocalOf(m3, u).Exchange?
  {
    m1 := Next(m, Unlock(t));
    m2 := Next(m1, Run(t));
    m3 := Next(m2, Futex(t, Some(u)));
  }

  /** While a thread sleeps, another one owns the lock, is about to wake a sleeper, or is awake and trying. */
  lemma SleepersAreSeen(steps: seq<Step>, m: Mutex, t: Thread)
    requires Trace(START_MUTEX, steps, m) && LocalOf(m, t).Asleep?
    ensures m.state == 2 || exists u :: u in m.local && m.local[u].Helping()
    ensures exists u :: u in m.local && (m.local[u].Holding? || m.local[u].Helping())
  {
    TraceInv(START_MUTEX, steps, m);
    if m.state == 2 {
      var u := m.holder.value;
      assert u in m.local && (m.local[u].Holding? || m.local[u].Helping());
    } else {
      var u :| u in m.local && m.local[u].Helping();
      assert m.local[u].Holding? || m.local[u].Helping();
    }
  }

  /** With a sleeper and nobody owning the lock, a thread about to exchange gets it, or a wakeup makes one. */
  lemma FreeLockIsTaken(steps: seq<Step>, m: Mutex, t: Thread) returns (next: seq<Step>, u: Thread)
    requires Trace(START_MUTEX, steps, m) && LocalOf(m, t).Asleep? && m.state == 0
    ensures |next| <= 2 && exists m' :: Trace(m, next, m') && LocalOf(m', u).Holding?
  {
    TraceInv(START_MUTEX, steps, m);
    var h :| h in m.local && m.local[h].Helping();
    if m.local[h].Exchange? {
      next, u := [Run(h)], h;
      assert Trace(Next(m, Run(h)), next[1..], DoExchange(m, h));
      assert Trace(m, next, DoExchange(m, h));
    } else {
      assert m.local[h].Wake?;
      var m1 := Next(m, Futex(h, Some(t)));
      next, u := [Futex(h, Some(t)), Run(t)], t;
      assert next[1..] == [Run(t)] && [Run(t)][1..] == [];
      assert Trace(m1, [Run(t)], DoExchange(m1, t)) by {
        assert Trace(Next(m1, Run(t)), [], DoExchange(m1, t));
      }
      assert Trace(m, next, DoExchange(m1, t));
    }
  }
}
