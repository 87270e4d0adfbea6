/**
  SyncMap over hazard pointers: a read-only snapshot read without locking, a mutable map
  under a mutex, and the promotion of the latter into the former. Every interleaving of
  Lookup and Insert acts on one abstract insert-only map.
*/
module SyncMap {
  import opened Common
  import opened HazardPtr

  type Dict = map<int, int>

  /** Bookkeeping: the published snapshot, one still private, one just replaced, or one retired. */
  datatype Owner = Current | New(t: Thread) | Replaced(t: Thread) | Retiring

  datatype Snapshot = Snapshot(readOnly: Dict, dirty: bool, owner: Owner)

  type Heap = map<Addr, Snapshot>

  datatype Op = Lookup(k: int) | Insert(k: int, v: int)

  datatype Result = Got(value: int) | Absent | Added | Exists

  /** What the operation must answer on an abstract map. */
  function Answer(op: Op, m: Dict): Result {
    match op
    case Lookup(k) => if k in m then Got(m[k]) else Absent
    case Insert(k, _) => if k in m then Exists else Added
  }

  const MAX_OPERATIONS: nat := 15

  /** Where a thread stands in its operation. */
  datatype Local =
    | Idle
    | Load(op: Op)
    | StoreHp(op: Op, x: Addr)
    | Check(op: Op, x: Addr)
    | Read(op: Op, x: Addr)
    | Unguard(op: Op, answer: Option<Result>)
    | WaitLock(op: Op)
    | InMutex(op: Op)
    | LockedRead(op: Op, x: Addr)
    | StoreNew(op: Op, x: Addr, node: Addr, result: Result, promote: bool)
    | RetireOld(op: Op, x: Addr, result: Result, promote: bool)
    | Finish(op: Op, result: Result, promote: bool)
    | Unlock(op: Op, result: Result)
    | Returned(op: Op, result: Result)
  {
    predicate Holding() {
      InMutex? || LockedRead? || StoreNew? || RetireOld? || Finish? || Unlock?
    }
  }

  datatype Sys = Sys(
    hp: Hp, heap: Heap, current: Addr, mutable: Option<Dict>, operations: nat, holder: Option<Thread>,
    local: map<Thread, Local>, guard: map<Thread, Addr>, fault: bool)

  /** The constructor publishes an empty clean snapshot at some non-null address. */
  function StartSys(a: Addr): Sys
    requires a != NULL
  {
    Sys(START, map[a := Snapshot(map[], false, Current)], a, None, 0, None, map[], map[], false)
  }

  /** The abstract map: the snapshot, and the mutable map once the snapshot is marked dirty. */
  ghost function Contents(s: Sys): Dict {
    if s.current !in s.heap then map[]
    else
      var c := s.heap[s.current];
      if c.dirty && s.mutable.Some? then c.readOnly + s.mutable.value else c.readOnly
  }

  // ---------------------------------------------------------------------------
  // Steps of a thread
  // ---------------------------------------------------------------------------

  function At(s: Sys, t: Thread, l: Local): Sys {
    s.(local := s.local[t := l])
  }

  function Owned(heap: Heap, a: Addr, o: Owner): Heap {
    if a in heap then heap[a := heap[a].(owner := o)] else heap
  }

  function DoCheck(s: Sys, t: Thread, l: Local): Sys
    requires l.Check?
  {
    if s.current == l.x then At(s, t, Read(l.op, l.x)).(guard := s.guard[t := l.x])
    else At(s, t, StoreHp(l.op, s.current))
  }

  /** The answer the snapshot alone can give, if any. */
  function Quick(op: Op, c: Snapshot): Option<Result> {
    match op
    case Lookup(k) => if k in c.readOnly then Some(Got(c.readOnly[k])) else if !c.dirty then Some(Absent) else None
    case Insert(k, _) => if k in c.readOnly then Some(Exists) else None
  }

  function DoRead(s: Sys, t: Thread, l: Local): Sys
    requires l.Read?
  {
    if l.x in s.heap then At(s, t, Unguard(l.op, Quick(l.op, s.heap[l.x]))) else s.(fault := true)
  }

  function DoUnguard(s: Sys, t: Thread, l: Local): Sys
    requires l.Unguard?
  {
    At(s, t, if l.answer.Some? then Returned(l.op, l.answer.value) else WaitLock(l.op))
      .(hp := StoreHazard(s.hp, t, NULL), guard := s.guard - {t})
  }

  /** Lookup under the mutex, after the snapshot was found not to hold the key. */
  function LookupMutable(s: Sys, t: Thread, l: Local, address: Addr): Sys
    requires l.LockedRead? && l.op.Lookup? && l.x in s.heap && s.mutable.Some?
  {
    var m := s.mutable.value;
    var result := if l.op.k in m then Got(m[l.op.k]) else Absent;
    if s.operations + 1 == MAX_OPERATIONS then
      var merged := s.heap[l.x].readOnly + m;
      At(s, t, StoreNew(l.op, l.x, address, result, true))
        .(operations := s.operations + 1, mutable := Some(merged), heap := s.heap[address := Snapshot(merged, false, New(t))])
    else At(s, t, Unlock(l.op, result)).(operations := s.operations + 1)
  }

  function InsertMutable(s: Sys, t: Thread, l: Local, address: Addr): Sys
    requires l.LockedRead? && l.op.Insert? && l.x in s.heap
  {
    if s.mutable.None? then
      At(s, t, StoreNew(l.op, l.x, address, Added, false))
        .(mutable := Some(map[l.op.k := l.op.v]), heap := s.heap[address := Snapshot(s.heap[l.x].readOnly, true, New(t))])
    else if l.op.k !in s.mutable.value then
      At(s, t, Unlock(l.op, Added)).(mutable := Some(s.mutable.value[l.op.k := l.op.v]), operations := 0)
    else At(s, t, Unlock(l.op, Exists))
  }

  function DoLockedRead(s: Sys, t: Thread, l: Local, address: Addr): Sys
    requires l.LockedRead?
  {
    if l.x !in s.heap then s.(fault := true)
    else
      var c := s.heap[l.x];
      if l.op.k in c.readOnly then
        At(s, t, Unlock(l.op, if l.op.Lookup? then Got(c.readOnly[l.op.k]) else Exists))
      else if l.op.Insert? then InsertMutable(s, t, l, address)
      else if s.mutable.None? then At(s, t, Unlock(l.op, Absent))
      else LookupMutable(s, t, l, address)
  }

  function DoPublish(s: Sys, t: Thread, l: Local): Sys
    requires l.StoreNew?
  {
    At(s, t, RetireOld(l.op, l.x, l.result, l.promote))
      .(current := l.node, heap := Owned(Owned(s.heap, l.x, Replaced(t)), l.node, Current))
  }

  function DoRetireOld(s: Sys, t: Thread, l: Local): Sys
    requires l.RetireOld?
  {
    At(s, t, Finish(l.op, l.result, l.promote))
      .(hp := PushRetired(s.hp, l.x), heap := Owned(s.heap, l.x, Retiring))
  }

  function DoFinish(s: Sys, t: Thread, l: Local): Sys
    requires l.Finish?
  {
    var s' := At(s, t, Unlock(l.op, l.result));
    if l.promote then s'.(mutable := None, operations := 0) else s'
  }

  predicate CanGo(s: Sys, t: Thread, address: Addr) {
    && t in s.local && !s.local[t].Idle? && !s.local[t].Returned?
    && (s.local[t].WaitLock? ==> s.holder.None?)
    && (s.local[t].LockedRead? ==> address != NULL && address !in s.heap)
  }

  function Go(s: Sys, t: Thread, address: Addr): Sys
    requires CanGo(s, t, address)
  {
    var l := s.local[t];
    match l
    case Idle => s
    case Load(op) => At(s, t, StoreHp(op, s.current))
    case StoreHp(op, x) => At(s, t, Check(op, x)).(hp := StoreHazard(s.hp, t, x))
    case Check(_, _) => DoCheck(s, t, l)
    case Read(_, _) => DoRead(s, t, l)
    case Unguard(_, _) => DoUnguard(s, t, l)
    case WaitLock(op) => At(s, t, InMutex(op)).(holder := Some(t))
    case InMutex(op) => At(s, t, LockedRead(op, s.current))
    case LockedRead(_, _) => DoLockedRead(s, t, l, address)
    case StoreNew(_, _, _, _, _) => DoPublish(s, t, l)
    case RetireOld(_, _, _, _) => DoRetireOld(s, t, l)
    case Finish(_, _, _) => DoFinish(s, t, l)
    case Unlock(op, result) => At(s, t, Returned(op, result)).(holder := None)
    case Returned(_, _) => s
  }

  datatype Step =
    | Join(t: Thread)
    | Leave(t: Thread)
    | Call(t: Thread, op: Op)
    | Run(t: Thread, address: Addr)
    | ScanBy(x: ScanStep)

  predicate AtRest(s: Sys, t: Thread) {
    t in s.local && (s.local[t].Idle? || s.local[t].Returned?)
  }

  predicate Enabled(s: Sys, step: Step) {
    match step
    case Join(t) => t !in s.local && !s.hp.scan.Reading?
    case Leave(t) => AtRest(s, t) && !s.hp.scan.Reading?
    case Call(t, _) => AtRest(s, t)
    case Run(t, a) => CanGo(s, t, a)
    case ScanBy(x) => CanScan(s.hp, x)
  }

  function DoScan(s: Sys, x: ScanStep): Sys
    requires CanScan(s.hp, x)
  {
    var d := Deleted(s.hp, x);
    s.(hp := ScanNext(s.hp, x), heap := s.heap - d, fault := s.fault || !(d <= s.heap.Keys))
  }

  function Next(s: Sys, step: Step): Sys
    requires Enabled(s, step)
  {
    match step
    case Join(t) => At(s, t, Idle).(hp := Register(s.hp, t))
    case Leave(t) => s.(hp := Unregister(s.hp, t), local := s.local - {t})
    case Call(t, op) => At(s, t, Load(op))
    case Run(t, a) => Go(s, t, a)
    case ScanBy(x) => DoScan(s, x)
  }

  // ---------------------------------------------------------------------------
  // The invariant
  // ---------------------------------------------------------------------------

  ghost predicate SubMap(a: Dict, b: Dict) {
    forall k :: k in a ==> k in b && a[k] == b[k]
  }

  /** What a snapshot says about the abstract map at the time it was current. */
  ghost predicate Faithful(c: Snapshot, seen: Dict) {
    SubMap(c.readOnly, seen) && (!c.dirty ==> c.readOnly == seen)
  }

  ghost predicate LocalInv(heap: Heap, hp: Hp, guard: map<Thread, Addr>, current: Addr, t: Thread, l: Local) {
    && ((l.Read? || l.Unguard?) <==> t in guard)
    && match l
       case Check(_, x) => HazardOf(hp, t) == x
       case Read(_, x) => guard[t] == x && x in heap
       case LockedRead(_, x) => x == current
       case StoreNew(_, x, n, _, _) => x == current && n != NULL && n != x && n in heap && heap[n].owner == New(t)
       case RetireOld(_, x, _, _) => x in heap && heap[x].owner == Replaced(t)
       case _ => true
  }

  ghost predicate LocalsInv(s: Sys) {
    && (forall t :: t in s.local ==> LocalInv(s.heap, s.hp, s.guard, s.current, t, s.local[t]))
    && (forall t :: t in s.local <==> t in s.hp.registered)
    && (forall t :: t in s.guard ==> t in s.local)
  }

  /** The mutex is held exactly by the thread inside the critical section. */
  ghost predicate MutexInv(s: Sys) {
    && (forall t :: t in s.local && s.local[t].Holding() ==> s.holder == Some(t))
    && (s.holder.Some? ==> s.holder.value in s.local && s.local[s.holder.value].Holding())
  }

  function HolderLocal(s: Sys): Local {
    if s.holder.Some? && s.holder.value in s.local then s.local[s.holder.value] else Idle
  }

  /** How the current snapshot c and the mutable map fit together in each phase of the critical section. */
  ghost predicate Fits(heap: Heap, c: Snapshot, mutable: Option<Dict>, l: Local) {
    if l.StoreNew? && l.promote then
      c.dirty && mutable.Some? && SubMap(c.readOnly, mutable.value)
      && l.node in heap && heap[l.node].readOnly == mutable.value && !heap[l.node].dirty
    else if l.StoreNew? then
      !c.dirty && l.op.Insert? && mutable == Some(map[l.op.k := l.op.v]) && l.op.k !in c.readOnly
      && l.node in heap && heap[l.node].readOnly == c.readOnly && heap[l.node].dirty
      && l.result == Added
    else if (l.RetireOld? || l.Finish?) && l.promote then !c.dirty
    else (c.dirty <==> mutable.Some?) && (mutable.Some? ==> c.readOnly.Keys !! mutable.value.Keys)
  }

  ghost predicate SharedInv(s: Sys) {
    && s.current in s.heap && s.heap[s.current].owner == Current
    && Fits(s.heap, s.heap[s.current], s.mutable, HolderLocal(s))
  }

  ghost predicate GuardInv(s: Sys) {
    forall t :: t in s.guard ==> s.guard[t] in s.heap
  }

  ghost function Retired(heap: Heap): set<Addr> {
    set a | a in heap && heap[a].owner == Retiring
  }

  ghost predicate Inv(s: Sys) {
    && !s.fault && NULL !in s.heap
    && LocalsInv(s) && MutexInv(s) && SharedInv(s) && GuardInv(s)
    && HpInv(s.hp, s.guard, Retired(s.heap))
  }

  lemma StartSysInv(a: Addr)
    requires a != NULL
    ensures Inv(StartSys(a)) && Contents(StartSys(a)) == map[]
  {
    StartInv();
    assert Retired(StartSys(a).heap) == {};
  }

  // ---------------------------------------------------------------------------
  // Frames
  // ---------------------------------------------------------------------------

  /** Snapshots never change their contents, and those private to other threads keep their owner. */
  ghost predicate HeapFrame(heap: Heap, heap': Heap, t: Thread) {
    && (forall a :: a in heap && a in heap' ==>
          heap'[a].readOnly == heap[a].readOnly && heap'[a].dirty == heap[a].dirty)
    && (forall a :: a in heap && (heap[a].owner.New? || heap[a].owner.Replaced?) && heap[a].owner.t != t ==>
          a in heap' && heap'[a].owner == heap[a].owner)
  }

  lemma OtherThread(heap: Heap, heap': Heap, hp: Hp, hp': Hp, guard: map<Thread, Addr>, guard': map<Thread, Addr>,
                    current: Addr, current': Addr, t: Thread, u: Thread, l: Local)
    requires LocalInv(heap, hp, guard, current, u, l) && u != t && HeapFrame(heap, heap', t)
    requires HazardOf(hp', u) == HazardOf(hp, u)
    requires u in guard <==> u in guard'
    requires u in guard ==> guard'[u] == guard[u] && guard[u] in heap'
    requires l.Holding() ==> current' == current
    ensures LocalInv(heap', hp', guard', current', u, l)
  {
  }

  lemma LocalsAfter(s: Sys, s': Sys, t: Thread)
    requires LocalsInv(s) && MutexInv(s) && t in s.local && t in s'.local
    requires HeapFrame(s.heap, s'.heap, t)
    requires s'.local == s.local[t := s'.local[t]]
    requires s'.hp.registered == s.hp.registered
    requires forall u :: u != t ==> HazardOf(s'.hp, u) == HazardOf(s.hp, u)
    requires forall u :: u != t ==> (u in s.guard <==> u in s'.guard)
    requires forall u :: u != t && u in s.guard ==> s'.guard[u] == s.guard[u] && s.guard[u] in s'.heap
    requires s'.current == s.current || s.holder == Some(t)
    requires LocalInv(s'.heap, s'.hp, s'.guard, s'.current, t, s'.local[t])
    requires t in s'.guard ==> t in s'.local
    ensures LocalsInv(s')
  {
    forall u | u in s'.local ensures LocalInv(s'.heap, s'.hp, s'.guard, s'.current, u, s'.local[u]) {
      if u != t {
        OtherThread(s.heap, s'.heap, s.hp, s'.hp, s.guard, s'.guard, s.current, s'.current, t, u, s.local[u]);
      }
    }
  }

  /** A thread outside the critical section does not disturb how snapshot and mutable map fit. */
  lemma OutsideMutex(s: Sys, s': Sys, t: Thread)
    requires MutexInv(s) && SharedInv(s) && t in s.local && !s.local[t].Holding()
    requires t in s'.local && s'.local == s.local[t := s'.local[t]] && !s'.local[t].Holding()
    requires s'.holder == s.holder && s'.mutable == s.mutable && s'.current == s.current && s'.heap == s.heap
    ensures MutexInv(s') && SharedInv(s') && Contents(s') == Contents(s)
  {
    assert s.holder != Some(t);
    assert HolderLocal(s') == HolderLocal(s);
  }

  // ---------------------------------------------------------------------------
  // The lock-free part
  // ---------------------------------------------------------------------------

  lemma SimpleInv(s: Sys, t: Thread, l: Local)
    requires Inv(s) && t in s.local && !s.local[t].Holding() && !l.Holding()
    requires LocalInv(s.heap, s.hp, s.guard, s.current, t, l)
    ensures Inv(At(s, t, l)) && Contents(At(s, t, l)) == Contents(s)
  {
    LocalsAfter(s, At(s, t, l), t);
    OutsideMutex(s, At(s, t, l), t);
  }

  lemma StoreHpInv(s: Sys, t: Thread, op: Op, x: Addr)
    requires Inv(s) && t in s.local && s.local[t] == StoreHp(op, x)
    ensures var s' := At(s, t, Check(op, x)).(hp := StoreHazard(s.hp, t, x)); Inv(s') && Contents(s') == Contents(s)
  {
    var s' := At(s, t, Check(op, x)).(hp := StoreHazard(s.hp, t, x));
    assert LocalInv(s.heap, s.hp, s.guard, s.current, t, s.local[t]);
    StoreHazardInv(s.hp, s.guard, Retired(s.heap), t, x);
    LocalsAfter(s, s', t);
    OutsideMutex(s, s', t);
  }

  /** The current snapshot agrees with the abstract map, and fully so when it is clean. */
  lemma CurrentFaithful(s: Sys)
    requires SharedInv(s)
    ensures Faithful(s.heap[s.current], Contents(s))
  {
    var c := s.heap[s.current];
    forall k | k in c.readOnly ensures k in Contents(s) && Contents(s)[k] == c.readOnly[k] {
      if c.dirty && s.mutable.Some? && k in s.mutable.value {
        assert s.mutable.value[k] == c.readOnly[k];
      }
    }
  }

  lemma AcquireHp(s: Sys, t: Thread, x: Addr)
    requires SharedInv(s) && NULL !in s.heap && x == s.current && HazardOf(s.hp, t) == x && t in s.hp.registered
    requires HpInv(s.hp, s.guard, Retired(s.heap))
    ensures HpInv(s.hp, s.guard[t := x], Retired(s.heap))
  {
    ValidateInv(s.hp, s.guard, Retired(s.heap), t, x);
  }

  lemma AcquireLocals(s: Sys, t: Thread, l: Local, s': Sys)
    requires LocalsInv(s) && MutexInv(s) && GuardInv(s) && s.current in s.heap
    requires t in s.local && s.local[t] == l && l.Check? && s.current == l.x && s' == DoCheck(s, t, l)
    ensures LocalsInv(s')
  {
    assert LocalInv(s.heap, s.hp, s.guard, s.current, t, l);
    LocalsAfter(s, s', t);
  }

  lemma AcquireInv(s: Sys, t: Thread, l: Local)
    requires Inv(s) && t in s.local && s.local[t] == l && l.Check? && s.current == l.x
    ensures Inv(DoCheck(s, t, l)) && Contents(DoCheck(s, t, l)) == Contents(s)
  {
    var s' := DoCheck(s, t, l);
    assert LocalInv(s.heap, s.hp, s.guard, s.current, t, l);
    AcquireHp(s, t, l.x);
    AcquireLocals(s, t, l, s');
    OutsideMutex(s, s', t);
  }

  lemma CheckInv(s: Sys, t: Thread, l: Local)
    requires Inv(s) && t in s.local && s.local[t] == l && l.Check?
    ensures Inv(DoCheck(s, t, l)) && Contents(DoCheck(s, t, l)) == Contents(s)
  {
    assert LocalInv(s.heap, s.hp, s.guard, s.current, t, l);
    if s.current == l.x { AcquireInv(s, t, l); } else { SimpleInv(s, t, StoreHp(l.op, s.current)); }
  }

  /** An answer given without the lock is right for the abstract map at the moment of Acquire. */
  lemma QuickSound(op: Op, c: Snapshot, seen: Dict)
    requires Faithful(c, seen)
    ensures Quick(op, c).Some? ==> Quick(op, c).value == Answer(op, seen)
  {
  }

  lemma ReadInv(s: Sys, t: Thread, l: Local)
    requires Inv(s) && t in s.local && s.local[t] == l && l.Read?
    ensures Inv(DoRead(s, t, l)) && Contents(DoRead(s, t, l)) == Contents(s)
  {
    assert LocalInv(s.heap, s.hp, s.guard, s.current, t, l);
    SimpleInv(s, t, Unguard(l.op, Quick(l.op, s.heap[l.x])));
  }

  lemma UnguardInv(s: Sys, t: Thread, l: Local)
    requires Inv(s) && t in s.local && s.local[t] == l && l.Unguard?
    ensures Inv(DoUnguard(s, t, l)) && Contents(DoUnguard(s, t, l)) == Contents(s)
  {
    var s' := DoUnguard(s, t, l);
    assert LocalInv(s.heap, s.hp, s.guard, s.current, t, l);
    ReleaseInv(s.hp, s.guard, Retired(s.heap), t);
    LocalsAfter(s, s', t);
    OutsideMutex(s, s', t);
  }

  // ---------------------------------------------------------------------------
  // Under the mutex
  // ---------------------------------------------------------------------------

  /** A step of the thread in the critical section, given how snapshot and mutable map fit after it. */
  lemma HolderInv(s: Sys, s': Sys, t: Thread)
    requires Inv(s) && t in s.local && s.local[t].Holding() && t in s'.local && s'.local[t].Holding()
    requires s'.local == s.local[t := s'.local[t]] && s'.holder == s.holder && s'.guard == s.guard
    requires HeapFrame(s.heap, s'.heap, t) && s.heap.Keys <= s'.heap.Keys && NULL !in s'.heap && !s'.fault
    requires s'.hp.registered == s.hp.registered && s'.hp.hazard == s.hp.hazard
    requires LocalInv(s'.heap, s'.hp, s'.guard, s'.current, t, s'.local[t])
    requires s'.current in s'.heap && s'.heap[s'.current].owner == Current
    requires Fits(s'.heap, s'.heap[s'.current], s'.mutable, s'.local[t])
    requires HpInv(s'.hp, s.guard, Retired(s'.heap))
    ensures Inv(s')
  {
    assert s.holder == Some(t);
    LocalsAfter(s, s', t);
    assert HolderLocal(s') == s'.local[t];
  }

  lemma LockInv(s: Sys, t: Thread, op: Op)
    requires Inv(s) && t in s.local && s.local[t] == WaitLock(op) && s.holder.None?
    ensures var s' := At(s, t, InMutex(op)).(holder := Some(t)); Inv(s') && Contents(s') == Contents(s)
  {
    var s' := At(s, t, InMutex(op)).(holder := Some(t));
    assert LocalInv(s.heap, s.hp, s.guard, s.current, t, s.local[t]);
    LocalsAfter(s, s', t);
  }

  lemma UnlockInv(s: Sys, t: Thread, l: Local)
    requires Inv(s) && t in s.local && s.local[t] == l && l.Unlock?
    ensures var s' := At(s, t, Returned(l.op, l.result)).(holder := None);
            Inv(s') && Contents(s') == Contents(s)
  {
    var s' := At(s, t, Returned(l.op, l.result)).(holder := None);
    assert LocalInv(s.heap, s.hp, s.guard, s.current, t, l);
    assert s.holder == Some(t);
    LocalsAfter(s, s', t);
  }

  /** The holder moves on without touching the snapshot heap. */
  lemma HolderMoves(s: Sys, t: Thread, l': Local, mutable': Option<Dict>, operations': nat)
    requires Inv(s) && t in s.local && s.local[t].Holding() && l'.Holding()
    requires LocalInv(s.heap, s.hp, s.guard, s.current, t, l')
    requires Fits(s.heap, s.heap[s.current], mutable', l')
    ensures Inv(At(s, t, l').(mutable := mutable', operations := operations'))
  {
    HolderInv(s, At(s, t, l').(mutable := mutable', operations := operations'), t);
  }

  lemma FinishInv(s: Sys, t: Thread, l: Local)
    requires Inv(s) && t in s.local && s.local[t] == l && l.Finish?
    ensures Inv(DoFinish(s, t, l)) && Contents(DoFinish(s, t, l)) == Contents(s)
  {
    assert LocalInv(s.heap, s.hp, s.guard, s.current, t, l);
    assert HolderLocal(s) == l;
    HolderMoves(s, t, Unlock(l.op, l.result),
                if l.promote then None else s.mutable, if l.promote then 0 else s.operations);
  }

  /** The replaced snapshot is retired once; it is no longer current. */
  lemma RetireOldInv(s: Sys, t: Thread, l: Local)
    requires Inv(s) && t in s.local && s.local[t] == l && l.RetireOld?
    ensures Inv(DoRetireOld(s, t, l)) && Contents(DoRetireOld(s, t, l)) == Contents(s)
  {
    var s' := DoRetireOld(s, t, l);
    assert LocalInv(s.heap, s.hp, s.guard, s.current, t, l);
    assert HolderLocal(s) == l;
    PushRetiredInv(s.hp, s.guard, Retired(s.heap), l.x);
    assert Retired(s'.heap) == Retired(s.heap) + {l.x};
    HolderInv(s, s', t);
  }

  lemma MergeInto(c: Dict, m: Dict)
    requires SubMap(c, m)
    ensures c + m == m
  {
    forall k ensures k in c + m <==> k in m { }
    assert (c + m).Keys == m.Keys;
  }

  /** Storing the new snapshot pointer: a promotion is invisible, a first insertion takes effect here. */
  lemma PublishContents(s: Sys, t: Thread, l: Local)
    requires SharedInv(s) && HolderLocal(s) == l && l.StoreNew?
    requires l.x == s.current && l.node != l.x && l.node in s.heap
    ensures l.promote ==> Contents(DoPublish(s, t, l)) == Contents(s)
    ensures !l.promote ==> l.op.Insert? && l.result == Added && l.op.k !in Contents(s)
                           && Contents(DoPublish(s, t, l)) == Contents(s)[l.op.k := l.op.v]
  {
    var c, m := s.heap[s.current].readOnly, s.mutable.value;
    if l.promote {
      MergeInto(c, m);
    } else {
      assert c + map[l.op.k := l.op.v] == c[l.op.k := l.op.v];
    }
  }

  lemma PublishHeap(heap: Heap, x: Addr, node: Addr, t: Thread)
    requires x in heap && node in heap && heap[x].owner == Current && heap[node].owner == New(t)
    ensures var heap' := Owned(Owned(heap, x, Replaced(t)), node, Current);
            HeapFrame(heap, heap', t) && heap'.Keys == heap.Keys && Retired(heap') == Retired(heap)
  {
  }

  lemma PublishInv(s: Sys, t: Thread, l: Local)
    requires Inv(s) && t in s.local && s.local[t] == l && l.StoreNew?
    ensures Inv(DoPublish(s, t, l))
    ensures l.promote ==> Contents(DoPublish(s, t, l)) == Contents(s)
    ensures !l.promote ==> l.op.Insert? && l.result == Added && l.op.k !in Contents(s)
                           && Contents(DoPublish(s, t, l)) == Contents(s)[l.op.k := l.op.v]
  {
    var s' := DoPublish(s, t, l);
    assert LocalInv(s.heap, s.hp, s.guard, s.current, t, l);
    assert HolderLocal(s) == l;
    PublishContents(s, t, l);
    PublishHeap(s.heap, l.x, l.node, t);
    HolderInv(s, s', t);
  }

  /** Allocating a new snapshot at a fresh address. */
  lemma AllocateInv(s: Sys, t: Thread, address: Addr, c: Snapshot, l': Local, mutable': Option<Dict>, operations': nat)
    requires Inv(s) && t in s.local && s.local[t].Holding() && l'.StoreNew? && l'.node == address && l'.x == s.current
    requires address != NULL && address !in s.heap && c.owner == New(t)
    requires t !in s.guard
    requires Fits(s.heap[address := c], s.heap[s.current], mutable', l')
    ensures Inv(At(s, t, l').(heap := s.heap[address := c], mutable := mutable', operations := operations'))
  {
    var s' := At(s, t, l').(heap := s.heap[address := c], mutable := mutable', operations := operations');
    assert Retired(s'.heap) == Retired(s.heap);
    HolderInv(s, s', t);
  }

  lemma MergeTwice(c: Dict, m: Dict)
    requires c.Keys !! m.Keys
    ensures c + (c + m) == c + m && SubMap(c, c + m)
  {
    assert (c + (c + m)).Keys == (c + m).Keys;
  }

  lemma PromoteInv(s: Sys, t: Thread, l: Local, address: Addr, result: Result)
    requires Inv(s) && t in s.local && s.local[t] == l && l.LockedRead? && l.x in s.heap
    requires s.mutable.Some? && address != NULL && address !in s.heap
    ensures var merged := s.heap[l.x].readOnly + s.mutable.value;
            var s' := At(s, t, StoreNew(l.op, l.x, address, result, true))
                      .(operations := s.operations + 1, mutable := Some(merged),
                        heap := s.heap[address := Snapshot(merged, false, New(t))]);
            Inv(s') && Contents(s') == Contents(s)
  {
    assert LocalInv(s.heap, s.hp, s.guard, s.current, t, l);
    assert HolderLocal(s) == l;
    var c, m := s.heap[l.x].readOnly, s.mutable.value;
    MergeTwice(c, m);
    AllocateInv(s, t, address, Snapshot(c + m, false, New(t)), StoreNew(l.op, l.x, address, result, true),
                Some(c + m), s.operations + 1);
  }

  lemma LookupMutableInv(s: Sys, t: Thread, l: Local, address: Addr)
    requires Inv(s) && t in s.local && s.local[t] == l && l.LockedRead? && l.op.Lookup? && l.x in s.heap
    requires s.mutable.Some? && l.op.k !in s.heap[l.x].readOnly && address != NULL && address !in s.heap
    ensures Inv(LookupMutable(s, t, l, address)) && Contents(LookupMutable(s, t, l, address)) == Contents(s)
  {
    assert LocalInv(s.heap, s.hp, s.guard, s.current, t, l);
    assert HolderLocal(s) == l;
    var m := s.mutable.value;
    var result := if l.op.k in m then Got(m[l.op.k]) else Absent;
    if s.operations + 1 == MAX_OPERATIONS {
      PromoteInv(s, t, l, address, result);
    } else {
      HolderMoves(s, t, Unlock(l.op, result), s.mutable, s.operations + 1);
    }
  }

  lemma InsertMutableInv(s: Sys, t: Thread, l: Local, address: Addr)
    requires Inv(s) && t in s.local && s.local[t] == l && l.LockedRead? && l.op.Insert? && l.x in s.heap
    requires l.op.k !in s.heap[l.x].readOnly && address != NULL && address !in s.heap
    ensures var s' := InsertMutable(s, t, l, address);
            && Inv(s')
            && Contents(s') == if s'.local[t].Unlock? && s'.local[t].result.Added?
                               then Contents(s)[l.op.k := l.op.v] else Contents(s)
  {
    assert LocalInv(s.heap, s.hp, s.guard, s.current, t, l);
    assert HolderLocal(s) == l;
    var c := s.heap[l.x].readOnly;
    if s.mutable.None? {
      AllocateInv(s, t, address, Snapshot(c, true, New(t)), StoreNew(l.op, l.x, address, Added, false),
                  Some(map[l.op.k := l.op.v]), s.operations);
    } else if l.op.k !in s.mutable.value {
      var m' := s.mutable.value[l.op.k := l.op.v];
      assert c + m' == (c + s.mutable.value)[l.op.k := l.op.v];
      HolderMoves(s, t, Unlock(l.op, Added), Some(m'), 0);
    } else {
      HolderMoves(s, t, Unlock(l.op, Exists), s.mutable, s.operations);
    }
  }

  /** The critical section answers from the snapshot, or from the absence of a mutable map. */
  lemma LockedAnswerInv(s: Sys, t: Thread, l: Local, result: Result)
    requires Inv(s) && t in s.local && s.local[t] == l && l.LockedRead?
    ensures Inv(At(s, t, Unlock(l.op, result))) && Contents(At(s, t, Unlock(l.op, result))) == Contents(s)
  {
    assert LocalInv(s.heap, s.hp, s.guard, s.current, t, l);
    assert HolderLocal(s) == l;
    HolderMoves(s, t, Unlock(l.op, result), s.mutable, s.operations);
  }

  lemma LockedReadInv(s: Sys, t: Thread, l: Local, address: Addr, s': Sys)
    requires Inv(s) && t in s.local && s.local[t] == l && l.LockedRead? && address != NULL && address !in s.heap
    requires s' == DoLockedRead(s, t, l, address)
    ensures t in s'.local
    ensures && Inv(s')
            && Contents(s') == if l.op.Insert? && s'.local[t].Unlock? && s'.local[t].result.Added?
                               then Contents(s)[l.op.k := l.op.v] else Contents(s)
  {
    assert LocalInv(s.heap, s.hp, s.guard, s.current, t, l);
    var c := s.heap[l.x];
    if l.op.k in c.readOnly {
      LockedAnswerInv(s, t, l, if l.op.Lookup? then Got(c.readOnly[l.op.k]) else Exists);
    } else if l.op.Insert? {
      InsertMutableInv(s, t, l, address);
    } else if s.mutable.None? {
      LockedAnswerInv(s, t, l, Absent);
    } else {
      LookupMutableInv(s, t, l, address);
    }
  }

  // ---------------------------------------------------------------------------
  // Scans and thread registration
  // ---------------------------------------------------------------------------

  lemma ScanLocals(s: Sys, d: set<Addr>, hp': Hp)
    requires LocalsInv(s) && GuardInv(s) && d <= Retired(s.heap)
    requires hp'.registered == s.hp.registered && hp'.hazard == s.hp.hazard
    requires forall t :: t in s.guard ==> s.guard[t] !in d
    ensures LocalsInv(s.(heap := s.heap - d, hp := hp'))
  {
    forall u | u in s.local ensures LocalInv(s.heap - d, hp', s.guard, s.current, u, s.local[u]) {
      OtherThread(s.heap, s.heap - d, s.hp, hp', s.guard, s.guard, s.current, s.current, u + 1, u, s.local[u]);
    }
  }

  lemma ScanShared(s: Sys, s': Sys, d: set<Addr>)
    requires LocalsInv(s) && MutexInv(s) && SharedInv(s) && d <= Retired(s.heap)
    requires s' == s.(heap := s.heap - d, hp := s'.hp, fault := s'.fault)
    ensures SharedInv(s') && Contents(s') == Contents(s)
  {
    var l := HolderLocal(s);
    assert HolderLocal(s') == l;
    if l.StoreNew? {
      assert LocalInv(s.heap, s.hp, s.guard, s.current, s.holder.value, l);
    }
  }

  lemma RetiredMinus(heap: Heap, d: set<Addr>, guard: map<Thread, Addr>)
    requires d <= Retired(heap) && forall t :: t in guard ==> guard[t] in heap && guard[t] !in d
    ensures d <= heap.Keys && Retired(heap - d) == Retired(heap) - d && forall t :: t in guard ==> guard[t] in heap - d
  {
  }

  lemma ScanByInv(s: Sys, x: ScanStep)
    requires Inv(s) && CanScan(s.hp, x)
    ensures Inv(DoScan(s, x)) && Contents(DoScan(s, x)) == Contents(s)
  {
    var s', d := DoScan(s, x), Deleted(s.hp, x);
    ScanInv(s.hp, s.guard, Retired(s.heap), x);
    ScanLocals(s, d, s'.hp);
    ScanShared(s, s', d);
    RetiredMinus(s.heap, d, s.guard);
  }

  lemma JoinInv(s: Sys, t: Thread)
    requires Inv(s) && Enabled(s, Join(t))
    ensures Inv(Next(s, Join(t))) && Contents(Next(s, Join(t))) == Contents(s)
  {
    var s' := Next(s, Join(t));
    RegisterInv(s.hp, s.guard, Retired(s.heap), t);
    forall u | u in s'.local ensures LocalInv(s'.heap, s'.hp, s'.guard, s'.current, u, s'.local[u]) {
      if u != t {
        OtherThread(s.heap, s'.heap, s.hp, s'.hp, s.guard, s'.guard, s.current, s'.current, t, u, s.local[u]);
      }
    }
    assert HolderLocal(s') == HolderLocal(s);
  }

  lemma LeaveInv(s: Sys, t: Thread)
    requires Inv(s) && Enabled(s, Leave(t))
    ensures Inv(Next(s, Leave(t))) && Contents(Next(s, Leave(t))) == Contents(s)
  {
    var s' := Next(s, Leave(t));
    assert LocalInv(s.heap, s.hp, s.guard, s.current, t, s.local[t]);
    UnregisterInv(s.hp, s.guard, Retired(s.heap), t);
    forall u | u in s'.local ensures LocalInv(s'.heap, s'.hp, s'.guard, s'.current, u, s'.local[u]) {
      OtherThread(s.heap, s'.heap, s.hp, s'.hp, s.guard, s'.guard, s.current, s'.current, t, u, s.local[u]);
    }
    assert HolderLocal(s') == HolderLocal(s);
  }

  // ---------------------------------------------------------------------------
  // Linearization of one step
  // ---------------------------------------------------------------------------

  /** The result an operation is already committed to; it is decided before it is returned. */
  function Fixed(l: Local, heap: Heap): Option<Result> {
    match l
    case Read(op, x) => if x in heap then Quick(op, heap[x]) else None
    case Unguard(_, answer) => answer
    case StoreNew(_, _, _, result, promote) => if promote then Some(result) else None
    case RetireOld(_, _, result, _) => Some(result)
    case Finish(_, result, _) => Some(result)
    case Unlock(_, result) => Some(result)
    case Returned(_, result) => Some(result)
    case _ => None
  }

  function Effect(op: Op, result: Result, m: Dict): Dict {
    if op.Insert? && result == Added then m[op.k := op.v] else m
  }

  /** The moment a result is decided it is the right one, and the abstract map changes just then. */
  ghost predicate Linearizes(s: Sys, t: Thread, s': Sys) {
    && t in s.local && t in s'.local && !s.local[t].Idle? && !s'.local[t].Idle?
    && var l, l' := s.local[t], s'.local[t];
       var r, r' := Fixed(l, s.heap), Fixed(l', s'.heap);
       && l'.op == l.op
       && if r.None? && r'.Some? then
            r'.value == Answer(l.op, Contents(s)) && Contents(s') == Effect(l.op, r'.value, Contents(s))
          else r' == r && Contents(s') == Contents(s)
  }

  lemma QuickInv(s: Sys, t: Thread, l: Local, s': Sys)
    requires Inv(s) && t in s.local && s.local[t] == l && CanGo(s, t, NULL) && s' == Go(s, t, NULL)
    requires l.Load? || l.StoreHp? || l.Check? || l.Read? || l.Unguard?
    ensures Inv(s') && Contents(s') == Contents(s)
  {
    assert LocalInv(s.heap, s.hp, s.guard, s.current, t, l);
    match l {
      case Load(op) => SimpleInv(s, t, StoreHp(op, s.current));
      case StoreHp(op, x) => StoreHpInv(s, t, op, x);
      case Check(op, _) => CheckInv(s, t, l);
      case Read(_, _) => ReadInv(s, t, l);
      case Unguard(_, _) => UnguardInv(s, t, l);
    }
  }

  lemma LockedInv(s: Sys, t: Thread, l: Local, s': Sys)
    requires Inv(s) && t in s.local && s.local[t] == l && CanGo(s, t, NULL) && s' == Go(s, t, NULL)
    requires l.WaitLock? || l.InMutex? || l.RetireOld? || l.Finish? || l.Unlock?
    ensures Inv(s') && Contents(s') == Contents(s)
  {
    assert LocalInv(s.heap, s.hp, s.guard, s.current, t, l);
    match l {
      case WaitLock(op) => LockInv(s, t, op);
      case InMutex(op) =>
        assert HolderLocal(s) == l;
        HolderMoves(s, t, LockedRead(op, s.current), s.mutable, s.operations);
      case RetireOld(_, _, _, _) => RetireOldInv(s, t, l);
      case Finish(_, _, _) => FinishInv(s, t, l);
      case Unlock(_, _) => UnlockInv(s, t, l);
    }
  }

  /** Which results the lock-free steps decide. */
  lemma QuickFixed(s: Sys, t: Thread, l: Local, s': Sys)
    requires t in s.local && s.local[t] == l && CanGo(s, t, NULL) && s' == Go(s, t, NULL)
    requires l.Load? || l.StoreHp? || l.Check? || l.Read? || l.Unguard?
    requires (l.Read? ==> l.x in s.heap) && s.current in s.heap
    ensures t in s'.local && !s'.local[t].Idle? && s'.local[t].op == l.op
    ensures var r' := Fixed(s'.local[t], s'.heap);
            if l.Check? then r' == None || r' == Quick(l.op, s.heap[s.current]) else r' == Fixed(l, s.heap)
  {
  }

  lemma LockedFixed(s: Sys, t: Thread, l: Local, s': Sys)
    requires t in s.local && s.local[t] == l && CanGo(s, t, NULL) && s' == Go(s, t, NULL)
    requires l.WaitLock? || l.InMutex? || l.StoreNew? || l.RetireOld? || l.Finish? || l.Unlock?
    ensures t in s'.local && !s'.local[t].Idle? && s'.local[t].op == l.op
    ensures Fixed(s'.local[t], s'.heap) == if l.StoreNew? then Some(l.result) else Fixed(l, s.heap)
  {
  }

  lemma QuickStep(s: Sys, t: Thread, l: Local, s': Sys)
    requires Inv(s) && t in s.local && s.local[t] == l && CanGo(s, t, NULL) && s' == Go(s, t, NULL)
    requires l.Load? || l.StoreHp? || l.Check? || l.Read? || l.Unguard?
    ensures Inv(s') && Linearizes(s, t, s')
  {
    QuickInv(s, t, l, s');
    assert LocalInv(s.heap, s.hp, s.guard, s.current, t, l);
    QuickFixed(s, t, l, s');
    CurrentFaithful(s);
    QuickSound(l.op, s.heap[s.current], Contents(s));
  }

  lemma LockedStep(s: Sys, t: Thread, l: Local, s': Sys)
    requires Inv(s) && t in s.local && s.local[t] == l && CanGo(s, t, NULL) && s' == Go(s, t, NULL)
    requires l.WaitLock? || l.InMutex? || l.RetireOld? || l.Finish? || l.Unlock?
    ensures Inv(s') && Linearizes(s, t, s')
  {
    LockedInv(s, t, l, s');
    LockedFixed(s, t, l, s');
  }

  lemma PublishStep(s: Sys, t: Thread, l: Local, s': Sys)
    requires Inv(s) && t in s.local && s.local[t] == l && l.StoreNew? && s' == Go(s, t, NULL)
    ensures Inv(s') && Linearizes(s, t, s')
  {
    PublishInv(s, t, l);
    LockedFixed(s, t, l, s');
  }

  /** What the critical section decides is the right answer. */
  lemma LockedAnswer(s: Sys, t: Thread, l: Local, address: Addr, s': Sys)
    requires l.LockedRead? && l.x == s.current && SharedInv(s) && HolderLocal(s) == l
    requires s' == DoLockedRead(s, t, l, address)
    ensures t in s'.local
    ensures var l' := s'.local[t];
            && (l'.Unlock? || l'.StoreNew?) && l'.op == l.op && l'.result == Answer(l.op, Contents(s))
            && (l'.StoreNew? ==> (l'.promote <==> l.op.Lookup?))
  {
    CurrentFaithful(s);
  }

  lemma DecideLinear(s: Sys, t: Thread, l: Local, s': Sys, l': Local)
    requires t in s.local && s.local[t] == l && t in s'.local && s'.local[t] == l' && l.LockedRead?
    requires (l'.Unlock? || l'.StoreNew?) && l'.op == l.op && l'.result == Answer(l.op, Contents(s))
    requires l'.StoreNew? ==> (l'.promote <==> l.op.Lookup?)
    requires Contents(s') == if l.op.Insert? && l'.Unlock? && l'.result.Added?
                             then Contents(s)[l.op.k := l.op.v] else Contents(s)
    ensures Linearizes(s, t, s')
  {
  }

  lemma DecideStep(s: Sys, t: Thread, l: Local, address: Addr, s': Sys)
    requires Inv(s) && t in s.local && s.local[t] == l && l.LockedRead? && address != NULL && address !in s.heap
    requires s' == DoLockedRead(s, t, l, address)
    ensures Inv(s') && Linearizes(s, t, s')
  {
    LockedReadInv(s, t, l, address, s');
    assert LocalInv(s.heap, s.hp, s.guard, s.current, t, l);
    assert HolderLocal(s) == l;
    LockedAnswer(s, t, l, address, s');
    DecideLinear(s, t, l, s', s'.local[t]);
  }

  lemma RunStep(s: Sys, t: Thread, address: Addr, s': Sys)
    requires Inv(s) && CanGo(s, t, address) && s' == Go(s, t, address)
    ensures Inv(s') && Linearizes(s, t, s')
  {
    var l := s.local[t];
    if l.Load? || l.StoreHp? || l.Check? || l.Read? || l.Unguard? {
      QuickStep(s, t, l, s');
    } else if l.LockedRead? {
      DecideStep(s, t, l, address, s');
    } else if l.StoreNew? {
      PublishStep(s, t, l, s');
    } else {
      LockedStep(s, t, l, s');
    }
  }

  /** What a step keeps and what it does to the abstract map. */
  ghost predicate Sound(s: Sys, step: Step, s': Sys) {
    if step.Run? then Linearizes(s, step.t, s') else Contents(s') == Contents(s)
  }

  lemma CallInv(s: Sys, t: Thread, op: Op, s': Sys)
    requires Inv(s) && AtRest(s, t) && s' == Next(s, Call(t, op))
    ensures Inv(s') && Contents(s') == Contents(s) && t in s'.local && s'.local[t] == Load(op)
  {
    assert LocalInv(s.heap, s.hp, s.guard, s.current, t, s.local[t]);
    SimpleInv(s, t, Load(op));
  }

  lemma StepInv(s: Sys, step: Step, s': Sys)
    requires Inv(s) && Enabled(s, step) && s' == Next(s, step)
    ensures Inv(s') && Sound(s, step, s')
  {
    match step {
      case Join(t) => JoinInv(s, t);
      case Leave(t) => LeaveInv(s, t);
      case Call(t, op) => CallInv(s, t, op, s');
      case Run(t, a) => RunStep(s, t, a, s');
      case ScanBy(x) => ScanByInv(s, x);
    }
  }

  // ---------------------------------------------------------------------------
  // Every run
  // ---------------------------------------------------------------------------

  predicate Runs(s: Sys, steps: seq<Step>)
    decreases |steps|
  {
    steps == [] || (Enabled(s, steps[0]) && Runs(Next(s, steps[0]), steps[1..]))
  }

  function After(s: Sys, steps: seq<Step>): Sys
    requires Runs(s, steps)
    decreases |steps|
  {
    if steps == [] then s else After(Next(s, steps[0]), steps[1..])
  }

  datatype Event = Event(t: Thread, op: Op, result: Result)

  /** The operation that takes effect at a step, if any. */
  function Emits(s: Sys, step: Step): seq<Event>
    requires Enabled(s, step)
  {
    if step.Run? && Fixed(s.local[step.t], s.heap).None? && step.t in Next(s, step).local then
      var s' := Next(s, step);
      var r := Fixed(s'.local[step.t], s'.heap);
      if r.Some? then [Event(step.t, s.local[step.t].op, r.value)] else []
    else []
  }

  function Log(s: Sys, steps: seq<Step>): seq<Event>
    requires Runs(s, steps)
    decreases |steps|
  {
    if steps == [] then [] else Emits(s, steps[0]) + Log(Next(s, steps[0]), steps[1..])
  }

  /** The events, one after another on a plain map, give these results and lead from m to m'. */
  predicate Legal(m: Dict, log: seq<Event>, m': Dict)
    decreases |log|
  {
    if log == [] then m == m'
    else log[0].result == Answer(log[0].op, m) && Legal(Effect(log[0].op, log[0].result, m), log[1..], m')
  }

  lemma {:induction false} LogLegal(s: Sys, steps: seq<Step>)
    requires Inv(s) && Runs(s, steps)
    ensures Inv(After(s, steps)) && Legal(Contents(s), Log(s, steps), Contents(After(s, steps)))
    decreases |steps|
  {
    if steps != [] {
      var s' := Next(s, steps[0]);
      StepInv(s, steps[0], Next(s, steps[0]));
      LogLegal(s', steps[1..]);
      var rest := Log(s', steps[1..]);
      if Emits(s, steps[0]) != [] {
        assert Log(s, steps)[1..] == rest;
      } else {
        assert Log(s, steps) == rest;
      }
    }
  }

  ghost predicate SameSnapshots(heap: Heap, heap': Heap) {
    forall a :: a in heap && a in heap' ==>
      heap'[a].readOnly == heap[a].readOnly && heap'[a].dirty == heap[a].dirty
  }

  /** A step touches no other thread's variables and no snapshot that was already built. */
  ghost predicate Confined(s: Sys, t: Thread, s': Sys) {
    SameSnapshots(s.heap, s'.heap) && t in s'.local && s'.local == s.local[t := s'.local[t]]
  }

  lemma InsertConfined(s: Sys, t: Thread, l: Local, address: Addr, s': Sys)
    requires t in s.local && l.LockedRead? && l.op.Insert? && l.x in s.heap && address !in s.heap
    requires s' == InsertMutable(s, t, l, address)
    ensures Confined(s, t, s')
  {
  }

  lemma LookupConfined(s: Sys, t: Thread, l: Local, address: Addr, s': Sys)
    requires t in s.local && l.LockedRead? && l.op.Lookup? && l.x in s.heap && address !in s.heap && s.mutable.Some?
    requires s' == LookupMutable(s, t, l, address)
    ensures Confined(s, t, s')
  {
  }

  lemma DecideConfined(s: Sys, t: Thread, l: Local, address: Addr, s': Sys)
    requires t in s.local && s.local[t] == l && l.LockedRead? && address !in s.heap
    requires s' == DoLockedRead(s, t, l, address)
    ensures Confined(s, t, s')
  {
    if l.x in s.heap && l.op.k !in s.heap[l.x].readOnly {
      if l.op.Insert? {
        InsertConfined(s, t, l, address, s');
      } else if s.mutable.Some? {
        LookupConfined(s, t, l, address, s');
      }
    }
  }

  lemma PublishConfined(s: Sys, t: Thread, l: Local, s': Sys)
    requires t in s.local && l.StoreNew? && s' == DoPublish(s, t, l)
    ensures Confined(s, t, s')
  {
  }

  lemma QuickConfined(s: Sys, t: Thread, l: Local, s': Sys)
    requires t in s.local && s.local[t] == l && CanGo(s, t, NULL) && s' == Go(s, t, NULL)
    requires l.Load? || l.StoreHp? || l.Check? || l.Read? || l.Unguard?
    ensures Confined(s, t, s')
  {
  }

  lemma LockedConfined(s: Sys, t: Thread, l: Local, s': Sys)
    requires t in s.local && s.local[t] == l && CanGo(s, t, NULL) && s' == Go(s, t, NULL)
    requires l.WaitLock? || l.InMutex? || l.RetireOld? || l.Finish? || l.Unlock?
    ensures Confined(s, t, s')
  {
  }

  lemma GoConfined(s: Sys, t: Thread, address: Addr, s': Sys)
    requires CanGo(s, t, address) && s' == Go(s, t, address)
    ensures Confined(s, t, s')
  {
    var l := s.local[t];
    if l.LockedRead? {
      DecideConfined(s, t, l, address, s');
    } else if l.StoreNew? {
      PublishConfined(s, t, l, s');
    } else if l.Load? || l.StoreHp? || l.Check? || l.Read? || l.Unguard? {
      QuickConfined(s, t, l, s');
    } else {
      LockedConfined(s, t, l, s');
    }
  }

  predicate ActsFor(step: Step, t: Thread) {
    !step.ScanBy? && step.t == t
  }

  lemma OthersStay(s: Sys, step: Step, u: Thread, s': Sys)
    requires Enabled(s, step) && u in s.local && !ActsFor(step, u) && s' == Next(s, step)
    ensures u in s'.local && s'.local[u] == s.local[u] && SameSnapshots(s.heap, s'.heap)
  {
    if step.Run? {
      GoConfined(s, step.t, step.address, s');
    }
  }

  /** The steps of others neither move a thread nor change what it is committed to. */
  lemma OthersKeep(s: Sys, step: Step, u: Thread, s': Sys)
    requires Inv(s) && Enabled(s, step) && u in s.local && !ActsFor(step, u) && s' == Next(s, step)
    ensures u in s'.local && s'.local[u] == s.local[u]
    ensures Fixed(s'.local[u], s'.heap) == Fixed(s.local[u], s.heap)
  {
    OthersStay(s, step, u, s');
    StepInv(s, step, s');
    assert LocalInv(s.heap, s.hp, s.guard, s.current, u, s.local[u]);
    assert LocalInv(s'.heap, s'.hp, s'.guard, s'.current, u, s.local[u]);
  }

  /** No new call, registration or removal of thread t: its current operation goes on. */
  predicate SameCall(steps: seq<Step>, t: Thread) {
    steps == [] || ((ActsFor(steps[0], t) ==> steps[0].Run?) && SameCall(steps[1..], t))
  }

  function EventsOf(log: seq<Event>, t: Thread): seq<Event> {
    if log == [] then [] else (if log[0].t == t then [log[0]] else []) + EventsOf(log[1..], t)
  }

  lemma EventsOfConcat(a: seq<Event>, b: seq<Event>, t: Thread)
    requires |a| <= 1
    ensures EventsOf(a + b, t) == EventsOf(a, t) + EventsOf(b, t)
  {
    if |a| == 1 {
      assert (a + b)[1..] == b && a[1..] == [];
    } else {
      assert a + b == b;
    }
  }

  /** From r to r' the operation took effect in the events: never, or once with the result r'. */
  predicate Decided(t: Thread, op: Op, r: Option<Result>, events: seq<Event>, r': Option<Result>) {
    && (r.Some? ==> r' == r)
    && events == if r.None? && r'.Some? then [Event(t, op, r'.value)] else []
  }

  /** Within one call a thread's operation takes effect at most once, with the result it then keeps. */
  lemma {:induction false} OneEvent(s: Sys, steps: seq<Step>, t: Thread)
    requires Inv(s) && Runs(s, steps) && SameCall(steps, t) && t in s.local && !s.local[t].Idle?
    ensures var s' := After(s, steps);
            && t in s'.local && !s'.local[t].Idle? && s'.local[t].op == s.local[t].op
            && Decided(t, s.local[t].op, Fixed(s.local[t], s.heap), EventsOf(Log(s, steps), t), Fixed(s'.local[t], s'.heap))
    decreases |steps|
  {
    if steps != [] {
      var s1 := Next(s, steps[0]);
      StepInv(s, steps[0], Next(s, steps[0]));
      if !ActsFor(steps[0], t) {
        OthersKeep(s, steps[0], t, s1);
      }
      OneEvent(s1, steps[1..], t);
      EventsOfConcat(Emits(s, steps[0]), Log(s1, steps[1..]), t);
    }
  }

  /**
    Every interleaving is safe and linearizable: the operations, in the order in which they
    take effect, form a legal history of a plain insert-only map, and that map is the snapshot
    together with the mutable map.
  */
  lemma MapLinearizable(a: Addr, steps: seq<Step>)
    requires a != NULL && Runs(StartSys(a), steps)
    ensures var s := After(StartSys(a), steps); !s.fault && Legal(map[], Log(StartSys(a), steps), Contents(s))
  {
    StartSysInv(a);
    LogLegal(StartSys(a), steps);
  }

  /** A call that returns took effect exactly once since it was made, with the result it returns. */
  lemma CallTakesEffectOnce(a: Addr, earlier: seq<Step>, t: Thread, op: Op, steps: seq<Step>, s: Sys, s': Sys)
    requires a != NULL && Runs(StartSys(a), earlier) && s == After(StartSys(a), earlier)
    requires Enabled(s, Call(t, op)) && Runs(Next(s, Call(t, op)), steps) && s' == After(Next(s, Call(t, op)), steps)
    requires SameCall(steps, t) && t in s'.local && s'.local[t].Returned?
    ensures s'.local[t].op == op
    ensures EventsOf(Log(Next(s, Call(t, op)), steps), t) == [Event(t, op, s'.local[t].result)]
  {
    StartSysInv(a);
    LogLegal(StartSys(a), earlier);
    AfterCall(s, t, op, steps, Next(s, Call(t, op)));
  }

  lemma ReturnDecided(t: Thread, op: Op, events: seq<Event>, l: Local, heap: Heap)
    requires l.Returned? && Decided(t, op, None, events, Fixed(l, heap))
    ensures events == [Event(t, op, l.result)]
  {
  }

  lemma AfterCall(s: Sys, t: Thread, op: Op, steps: seq<Step>, s1: Sys)
    requires Inv(s) && Enabled(s, Call(t, op)) && s1 == Next(s, Call(t, op)) && Runs(s1, steps) && SameCall(steps, t)
    requires var s' := After(s1, steps); t in s'.local && s'.local[t].Returned?
    ensures var l := After(s1, steps).local[t];
            l.op == op && EventsOf(Log(s1, steps), t) == [Event(t, op, l.result)]
  {
    CallInv(s, t, op, s1);
    OneEvent(s1, steps, t);
    ReturnDecided(t, op, EventsOf(Log(s1, steps), t), After(s1, steps).local[t], After(s1, steps).heap);
  }

  // ---------------------------------------------------------------------------
  // A thread that runs alone finishes
  // ---------------------------------------------------------------------------

  /** How many steps a thread is from its return when nobody interferes. */
  function StepsLeft(s: Sys, l: Local): nat {
    match l
    case Idle => 0
    case Load(_) => 12
    case StoreHp(_, x) => if x == s.current then 11 else 13
    case Check(_, x) => if x == s.current then 10 else 12
    case Read(_, _) => 9
    case Unguard(_, _) => 8
    case WaitLock(_) => 7
    case InMutex(_) => 6
    case LockedRead(_, _) => 5
    case StoreNew(_, _, _, _, _) => 4
    case RetireOld(_, _, _, _) => 3
    case Finish(_, _, _) => 2
    case Unlock(_, _) => 1
    case Returned(_, _) => 0
  }

  lemma LockedProgress(s: Sys, t: Thread, l: Local, address: Addr, s': Sys)
    requires l.LockedRead? && l.x in s.heap && s' == DoLockedRead(s, t, l, address)
    ensures t in s'.local && s'.holder == s.holder
    ensures var l' := s'.local[t]; (l'.Unlock? || l'.StoreNew?) && l'.op == l.op
  {
    if l.op.k !in s.heap[l.x].readOnly && l.op.Lookup? && s.mutable.Some? {
      assert s' == LookupMutable(s, t, l, address);
    } else if l.op.k !in s.heap[l.x].readOnly && l.op.Insert? {
      assert s' == InsertMutable(s, t, l, address);
    }
  }

  predicate QuickPart(l: Local) {
    l.Load? || l.StoreHp? || l.Check? || l.Read? || l.Unguard?
  }

  lemma QuickProgress(s: Sys, t: Thread, address: Addr, s': Sys)
    requires CanGo(s, t, address) && s' == Go(s, t, address) && QuickPart(s.local[t])
    requires s.local[t].Read? ==> s.local[t].x in s.heap
    ensures t in s'.local && StepsLeft(s', s'.local[t]) < StepsLeft(s, s.local[t]) && s'.holder == s.holder
    ensures !s'.local[t].Idle? && s'.local[t].op == s.local[t].op
  {
  }

  lemma SwapProgress(s: Sys, t: Thread, address: Addr, s': Sys)
    requires CanGo(s, t, address) && s' == Go(s, t, address) && (s.local[t].StoreNew? || s.local[t].RetireOld?)
    ensures t in s'.local && StepsLeft(s', s'.local[t]) < StepsLeft(s, s.local[t])
    ensures s'.holder == (if s.local[t].WaitLock? then Some(t) else if s.local[t].Unlock? then None else s.holder)
    ensures !s'.local[t].Idle? && s'.local[t].op == s.local[t].op
  {
  }

  lemma EdgeProgress(s: Sys, t: Thread, address: Addr, s': Sys)
    requires CanGo(s, t, address) && s' == Go(s, t, address)
    requires var l := s.local[t]; l.WaitLock? || l.InMutex? || l.Finish? || l.Unlock?
    ensures t in s'.local && StepsLeft(s', s'.local[t]) < StepsLeft(s, s.local[t])
    ensures s'.holder == (if s.local[t].WaitLock? then Some(t) else if s.local[t].Unlock? then None else s.holder)
    ensures !s'.local[t].Idle? && s'.local[t].op == s.local[t].op
  {
  }

  lemma SectionProgress(s: Sys, t: Thread, address: Addr, s': Sys)
    requires CanGo(s, t, address) && s' == Go(s, t, address) && !s.local[t].LockedRead? && !QuickPart(s.local[t])
    ensures t in s'.local && StepsLeft(s', s'.local[t]) < StepsLeft(s, s.local[t])
    ensures s'.holder == (if s.local[t].WaitLock? then Some(t) else if s.local[t].Unlock? then None else s.holder)
    ensures !s'.local[t].Idle? && s'.local[t].op == s.local[t].op
  {
    if s.local[t].StoreNew? || s.local[t].RetireOld? {
      SwapProgress(s, t, address, s');
    } else {
      EdgeProgress(s, t, address, s');
    }
  }

  lemma OneProgress(s: Sys, t: Thread, address: Addr, s': Sys)
    requires Inv(s) && CanGo(s, t, address) && s' == Go(s, t, address) && (s.holder.None? || s.holder == Some(t))
    ensures t in s'.local && StepsLeft(s', s'.local[t]) < StepsLeft(s, s.local[t])
    ensures (s'.holder.None? || s'.holder == Some(t)) && !s'.local[t].Idle? && s'.local[t].op == s.local[t].op
  {
    var l := s.local[t];
    assert LocalInv(s.heap, s.hp, s.guard, s.current, t, l);
    if l.LockedRead? {
      LockedProgress(s, t, l, address, s');
    } else if QuickPart(l) {
      QuickProgress(s, t, address, s');
    } else {
      SectionProgress(s, t, address, s');
    }
  }

  /** From wherever it stands, a thread that runs alone while nobody else holds the mutex returns. */
  lemma {:induction false} AloneReturns(s: Sys, t: Thread) returns (steps: seq<Step>, s': Sys)
    requires Inv(s) && t in s.local && (s.holder.None? || s.holder == Some(t)) && !s.local[t].Idle?
    ensures Runs(s, steps) && s' == After(s, steps) && t in s'.local && s'.local[t].Returned?
    ensures s'.local[t].op == s.local[t].op && |steps| <= StepsLeft(s, s.local[t])
    ensures forall i :: 0 <= i < |steps| ==> steps[i].Run? && steps[i].t == t
    decreases StepsLeft(s, s.local[t])
  {
    var l := s.local[t];
    if l.Returned? {
      steps, s' := [], s;
    } else {
      var a := AddressBeyond(s.heap.Keys);
      var s1 := Go(s, t, a);
      StepInv(s, Run(t, a), s1);
      OneProgress(s, t, a, s1);
      var rest;
      rest, s' := AloneReturns(s1, t);
      steps := [Run(t, a)] + rest;
      assert steps[1..] == rest;
    }
  }

  /** In every reachable state with the mutex free, any call can be completed by its own thread alone. */
  lemma CallCompletes(a: Addr, earlier: seq<Step>, s: Sys, t: Thread) returns (steps: seq<Step>, s': Sys)
    requires a != NULL && Runs(StartSys(a), earlier) && s == After(StartSys(a), earlier)
    requires s.holder.None? && t in s.local && !s.local[t].Idle?
    ensures Runs(s, steps) && s' == After(s, steps) && t in s'.local && s'.local[t].Returned? && s'.local[t].op == s.local[t].op
  {
    StartSysInv(a);
    LogLegal(StartSys(a), earlier);
    steps, s' := AloneReturns(s, t);
  }

  // ---------------------------------------------------------------------------
  // When the mutable map is promoted
  // ---------------------------------------------------------------------------

  predicate Promoting(l: Local) {
    (l.StoreNew? || l.RetireOld? || l.Finish?) && l.promote
  }

  /** The counter of locked lookups stays below 15, and is 15 just while a promotion runs. */
  ghost predicate OperationsInv(s: Sys) {
    s.operations <= 15 && (s.operations == 15 <==> Promoting(HolderLocal(s)))
  }

  lemma LockedOperations(s: Sys, t: Thread, l: Local, address: Addr, s': Sys)
    requires l.LockedRead? && s.holder == Some(t) && s' == DoLockedRead(s, t, l, address) && l.x in s.heap && s.operations < 15
    ensures OperationsInv(s')
  {
    LockedProgress(s, t, l, address, s');
    if l.op.k !in s.heap[l.x].readOnly && l.op.Lookup? && s.mutable.Some? {
      assert s' == LookupMutable(s, t, l, address);
    } else if l.op.k !in s.heap[l.x].readOnly && l.op.Insert? {
      assert s' == InsertMutable(s, t, l, address);
    }
  }

  lemma QuickOperations(s: Sys, t: Thread, address: Addr, s': Sys)
    requires OperationsInv(s) && CanGo(s, t, address) && s' == Go(s, t, address) && QuickPart(s.local[t])
    requires s.holder.Some? ==> s.holder.value in s.local && s.local[s.holder.value].Holding()
    ensures OperationsInv(s')
  {
  }

  lemma SectionOperations(s: Sys, t: Thread, address: Addr, s': Sys)
    requires OperationsInv(s) && CanGo(s, t, address) && s' == Go(s, t, address)
    requires !s.local[t].LockedRead? && !QuickPart(s.local[t])
    requires s.local[t].Holding() ==> s.holder == Some(t)
    ensures OperationsInv(s')
  {
  }

  lemma PlainOperations(s: Sys, t: Thread, address: Addr, s': Sys)
    requires OperationsInv(s) && CanGo(s, t, address) && s' == Go(s, t, address) && !s.local[t].LockedRead?
    requires s.holder.Some? ==> s.holder.value in s.local && s.local[s.holder.value].Holding()
    requires s.local[t].Holding() ==> s.holder == Some(t)
    ensures OperationsInv(s')
  {
    if QuickPart(s.local[t]) {
      QuickOperations(s, t, address, s');
    } else {
      SectionOperations(s, t, address, s');
    }
  }

  lemma StepOperations(s: Sys, step: Step, s': Sys)
    requires Inv(s) && OperationsInv(s) && Enabled(s, step) && s' == Next(s, step)
    ensures OperationsInv(s')
  {
    if step.Run? {
      var t, l := step.t, s.local[step.t];
      assert LocalInv(s.heap, s.hp, s.guard, s.current, t, l);
      if l.LockedRead? {
        assert HolderLocal(s) == l;
        LockedOperations(s, t, l, step.address, s');
      } else {
        PlainOperations(s, t, step.address, s');
      }
    } else {
      OutsideOperations(s, step, s');
    }
  }

  lemma OutsideOperations(s: Sys, step: Step, s': Sys)
    requires MutexInv(s) && OperationsInv(s) && Enabled(s, step) && !step.Run? && s' == Next(s, step)
    ensures OperationsInv(s')
  {
  }

  lemma {:induction false} RunOperations(s: Sys, steps: seq<Step>)
    requires Inv(s) && OperationsInv(s) && Runs(s, steps)
    ensures OperationsInv(After(s, steps))
    decreases |steps|
  {
    if steps != [] {
      StepInv(s, steps[0], Next(s, steps[0]));
      StepOperations(s, steps[0], Next(s, steps[0]));
      RunOperations(Next(s, steps[0]), steps[1..]);
    }
  }

  /** The lookup or insertion of this step has to go to the mutable map. */
  predicate Searches(s: Sys, step: Step) {
    && step.Run? && step.t in s.local && s.local[step.t].LockedRead? && s.current in s.heap
    && s.local[step.t].op.k !in s.heap[s.current].readOnly && s.mutable.Some?
  }

  /** The lookups that searched the mutable map since the last new key and the last promotion. */
  function Tally(s: Sys, steps: seq<Step>, before: nat): nat
    decreases |steps|
  {
    if steps == [] || !Enabled(s, steps[0]) then before
    else Tally(Next(s, steps[0]), steps[1..], TallyStep(s, steps[0], before))
  }

  function TallyStep(s: Sys, step: Step, before: nat): nat {
    if Searches(s, step) && s.local[step.t].op.Lookup? then before + 1
    else if Searches(s, step) && s.local[step.t].op.k !in s.mutable.value then 0
    else if step.Run? && step.t in s.local && s.local[step.t].Finish? && s.local[step.t].promote then 0
    else before
  }

  lemma LockedTally(s: Sys, t: Thread, l: Local, address: Addr, s': Sys)
    requires t in s.local && s.local[t] == l && l.LockedRead? && l.x == s.current && s.current in s.heap
    requires s' == DoLockedRead(s, t, l, address)
    ensures s'.operations == TallyStep(s, Run(t, address), s.operations)
  {
    if l.op.k !in s.heap[l.x].readOnly && l.op.Lookup? && s.mutable.Some? {
      assert s' == LookupMutable(s, t, l, address);
    } else if l.op.k !in s.heap[l.x].readOnly && l.op.Insert? {
      assert s' == InsertMutable(s, t, l, address);
    }
  }

  lemma PlainTally(s: Sys, step: Step, s': Sys)
    requires Enabled(s, step) && s' == Next(s, step) && (step.Run? ==> !s.local[step.t].LockedRead?)
    ensures s'.operations == TallyStep(s, step, s.operations)
  {
  }

  lemma {:induction false} TallyRuns(s: Sys, steps: seq<Step>)
    requires Inv(s) && Runs(s, steps)
    ensures After(s, steps).operations == Tally(s, steps, s.operations)
    decreases |steps|
  {
    if steps != [] {
      var step, s1 := steps[0], Next(s, steps[0]);
      StepInv(s, step, s1);
      if step.Run? && s.local[step.t].LockedRead? {
        assert LocalInv(s.heap, s.hp, s.guard, s.current, step.t, s.local[step.t]);
        LockedTally(s, step.t, s.local[step.t], step.address, s1);
      } else {
        PlainTally(s, step, s1);
      }
      TallyRuns(s1, steps[1..]);
    }
  }

  /** In every run the counter is the number of searches of the mutable map since the last new key or promotion. */
  lemma OperationsCounted(a: Addr, steps: seq<Step>)
    requires a != NULL && Runs(StartSys(a), steps)
    ensures After(StartSys(a), steps).operations == Tally(StartSys(a), steps, 0)
  {
    StartSysInv(a);
    TallyRuns(StartSys(a), steps);
  }

  /**
    In every run, a lookup that has to search the mutable map: the 15th one since the last new
    key or promotion makes a clean snapshot of everything, any other just counts.
  */
  lemma PromotionExact(a: Addr, earlier: seq<Step>, s: Sys, t: Thread, address: Addr)
    requires a != NULL && Runs(StartSys(a), earlier) && s == After(StartSys(a), earlier)
    requires CanGo(s, t, address) && s.local[t].LockedRead? && s.local[t].op.Lookup?
    requires s.current in s.heap && s.local[t].op.k !in s.heap[s.current].readOnly && s.mutable.Some?
    ensures s.operations < 15
    ensures var s' := Go(s, t, address);
            if s.operations == 14 then
              t in s'.local && Promoting(s'.local[t]) && s'.local[t].node in s'.heap
              && s'.heap[s'.local[t].node].readOnly == Contents(s) && !s'.heap[s'.local[t].node].dirty
            else s'.operations == s.operations + 1 && s'.mutable == s.mutable && s'.current == s.current
  {
    StartSysInv(a);
    LogLegal(StartSys(a), earlier);
    RunOperations(StartSys(a), earlier);
    var l := s.local[t];
    assert LocalInv(s.heap, s.hp, s.guard, s.current, t, l);
    assert HolderLocal(s) == l;
    assert Go(s, t, address) == LookupMutable(s, t, l, address);
  }

  // ---------------------------------------------------------------------------
  // A thread outside its quick part protects nothing
  // ---------------------------------------------------------------------------

  ghost predicate HazardsClear(s: Sys) {
    forall t :: (t in s.local ==> !QuickPart(s.local[t])) ==> HazardOf(s.hp, t) == NULL
  }

  lemma QuickHazard(s: Sys, t: Thread, address: Addr, s': Sys)
    requires CanGo(s, t, address) && QuickPart(s.local[t]) && s' == Go(s, t, address)
    requires s.local[t].Read? ==> s.local[t].x in s.heap
    ensures t in s'.local && (!QuickPart(s'.local[t]) ==> HazardOf(s'.hp, t) == NULL)
    ensures forall u :: u != t ==> HazardOf(s'.hp, u) == HazardOf(s.hp, u)
  {
  }

  lemma SectionHazard(s: Sys, t: Thread, address: Addr, s': Sys)
    requires CanGo(s, t, address) && !QuickPart(s.local[t]) && !s.local[t].LockedRead? && s' == Go(s, t, address)
    ensures t in s'.local && !QuickPart(s'.local[t]) && s'.hp.hazard == s.hp.hazard
  {
  }

  lemma LockedHazard(s: Sys, t: Thread, l: Local, address: Addr, s': Sys)
    requires l.LockedRead? && l.x in s.heap && s' == DoLockedRead(s, t, l, address)
    ensures t in s'.local && !QuickPart(s'.local[t]) && s'.hp.hazard == s.hp.hazard
  {
    LockedProgress(s, t, l, address, s');
    if l.op.k !in s.heap[l.x].readOnly && l.op.Lookup? && s.mutable.Some? {
      assert s' == LookupMutable(s, t, l, address);
    } else if l.op.k !in s.heap[l.x].readOnly && l.op.Insert? {
      assert s' == InsertMutable(s, t, l, address);
    }
  }

  lemma RunHazards(s: Sys, t: Thread, address: Addr, s': Sys)
    requires HazardsClear(s) && CanGo(s, t, address) && s' == Go(s, t, address) && t in s'.local
    requires !QuickPart(s'.local[t]) ==> HazardOf(s'.hp, t) == NULL
    requires forall u :: u != t ==> HazardOf(s'.hp, u) == HazardOf(s.hp, u)
    ensures HazardsClear(s')
  {
    GoConfined(s, t, address, s');
    forall u | u in s'.local ==> !QuickPart(s'.local[u]) ensures HazardOf(s'.hp, u) == NULL {
      assert u != t && u in s.local ==> u in s'.local && s'.local[u] == s.local[u];
      assert u != t && (u in s.local ==> !QuickPart(s.local[u])) ==> HazardOf(s.hp, u) == NULL;
    }
  }

  lemma OutsideSteps(s: Sys, step: Step, s': Sys)
    requires Enabled(s, step) && !step.Run? && s' == Next(s, step)
    ensures s'.hp.hazard == s.hp.hazard
    ensures forall u :: u in s.local && QuickPart(s.local[u]) ==> u in s'.local && QuickPart(s'.local[u])
  {
  }

  lemma StepHazards(s: Sys, step: Step, s': Sys)
    requires Inv(s) && HazardsClear(s) && Enabled(s, step) && s' == Next(s, step)
    ensures HazardsClear(s')
  {
    if step.Run? {
      var t, l := step.t, s.local[step.t];
      assert LocalInv(s.heap, s.hp, s.guard, s.current, t, l);
      if QuickPart(l) {
        QuickHazard(s, t, step.address, s');
      } else if l.LockedRead? {
        LockedHazard(s, t, l, step.address, s');
      } else {
        SectionHazard(s, t, step.address, s');
      }
      RunHazards(s, t, step.address, s');
    } else {
      OutsideSteps(s, step, s');
      forall u | u in s'.local ==> !QuickPart(s'.local[u]) ensures HazardOf(s'.hp, u) == NULL {
        assert (u in s.local ==> !QuickPart(s.local[u])) ==> HazardOf(s.hp, u) == NULL;
      }
    }
  }

  lemma {:induction false} RunsHazards(s: Sys, steps: seq<Step>)
    requires Inv(s) && HazardsClear(s) && Runs(s, steps)
    ensures HazardsClear(After(s, steps))
    decreases |steps|
  {
    if steps != [] {
      StepInv(s, steps[0], Next(s, steps[0]));
      StepHazards(s, steps[0], Next(s, steps[0]));
      RunsHazards(Next(s, steps[0]), steps[1..]);
    }
  }

  /** In every run a thread that is not reading the snapshot keeps none from being freed. */
  lemma IdleProtectsNothing(a: Addr, steps: seq<Step>, t: Thread)
    requires a != NULL && Runs(StartSys(a), steps)
    ensures var s := After(StartSys(a), steps);
            (t in s.local ==> !QuickPart(s.local[t])) ==> HazardOf(s.hp, t) == NULL
  {
    StartSysInv(a);
    RunsHazards(StartSys(a), steps);
  }

  /** In every run the snapshot that a thread is about to read, and the one that a scan is about to free, is allocated. */
  lemma NothingFreedIsUsed(a: Addr, steps: seq<Step>, s: Sys, t: Thread, x: ScanStep)
    requires a != NULL && Runs(StartSys(a), steps) && s == After(StartSys(a), steps)
    ensures t in s.local && (s.local[t].Read? || s.local[t].LockedRead?) ==> s.local[t].x in s.heap
    ensures CanScan(s.hp, x) ==> Deleted(s.hp, x) <= s.heap.Keys
  {
    StartSysInv(a);
    LogLegal(StartSys(a), steps);
    if t in s.local {
      assert LocalInv(s.heap, s.hp, s.guard, s.current, t, s.local[t]);
    }
    if CanScan(s.hp, x) {
      ScanInv(s.hp, s.guard, Retired(s.heap), x);
    }
  }
}
