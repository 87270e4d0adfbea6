/**
  Hazard pointers as an interleaved step system.

  Every load, store and exchange of a shared variable is one step; a successful CAS on
  free_list is one push, a failed one changes nothing. A scan may start at any time.
  Addresses are numbers, 0 is null, and a freed address may be allocated again.
*/
module HazardPtr {

  type Thread = nat
  type Addr = nat

  const NULL: Addr := 0

  /** Where the thread holding scan_lock stands, with its private list and the hazards read so far. */
  datatype Scan =
    | NoScan
    | Locked
    | Taken(batch: seq<Addr>)
    | Reading(batch: seq<Addr>, todo: set<Thread>, seen: set<Addr>)
    | Freeing(batch: seq<Addr>, seen: set<Addr>)

  /** The shared variables; retiredLog and deletedLog record every call of Retire and of a deleter. */
  datatype Hp = Hp(
    registered: set<Thread>,
    hazard: map<Thread, Addr>,
    freeList: seq<Addr>,
    scan: Scan,
    retiredLog: multiset<Addr>,
    deletedLog: multiset<Addr>)

  const START: Hp := Hp({}, map[], [], NoScan, multiset{}, multiset{})

  function HazardOf(h: Hp, t: Thread): Addr {
    if t in h.hazard then h.hazard[t] else NULL
  }

  function Batch(s: Scan): seq<Addr> {
    match s
    case NoScan => []
    case Locked => []
    case Taken(b) => b
    case Reading(b, _, _) => b
    case Freeing(b, _) => b
  }

  // ---------------------------------------------------------------------------
  // Steps
  // ---------------------------------------------------------------------------

  /** RegisterThread and UnregisterThread hold threads_lock, so they exclude a scan's reading phase. */
  function Register(h: Hp, t: Thread): Hp
    requires !h.scan.Reading?
  {
    h.(registered := h.registered + {t})
  }

  function Unregister(h: Hp, t: Thread): Hp
    requires !h.scan.Reading?
  {
    h.(registered := h.registered - {t})
  }

  function StoreHazard(h: Hp, t: Thread, a: Addr): Hp {
    h.(hazard := h.hazard[t := a])
  }

  function PushRetired(h: Hp, a: Addr): Hp {
    h.(freeList := [a] + h.freeList, retiredLog := h.retiredLog + multiset{a})
  }

  function LockScan(h: Hp): Hp
    requires h.scan.NoScan?
  {
    h.(scan := Locked)
  }

  function TakeList(h: Hp): Hp
    requires h.scan.Locked?
  {
    h.(scan := Taken(h.freeList), freeList := [])
  }

  function LockThreads(h: Hp): Hp
    requires h.scan.Taken?
  {
    h.(scan := Reading(h.scan.batch, h.registered, {}))
  }

  function ReadHazard(h: Hp, t: Thread): Hp
    requires h.scan.Reading? && t in h.scan.todo
  {
    var a := HazardOf(h, t);
    h.(scan := Reading(h.scan.batch, h.scan.todo - {t}, if a != NULL then h.scan.seen + {a} else h.scan.seen))
  }

  function UnlockThreads(h: Hp): Hp
    requires h.scan.Reading? && h.scan.todo == {}
  {
    h.(scan := Freeing(h.scan.batch, h.scan.seen))
  }

  /** The next private pointer is in the hazard set and goes back to free_list. */
  function KeepFirst(h: Hp): Hp
    requires h.scan.Freeing? && h.scan.batch != [] && h.scan.batch[0] in h.scan.seen
  {
    h.(scan := Freeing(h.scan.batch[1..], h.scan.seen), freeList := [h.scan.batch[0]] + h.freeList)
  }

  /** The next private pointer is in no hazard variable that was read and is deleted. */
  function DeleteFirst(h: Hp): Hp
    requires h.scan.Freeing? && h.scan.batch != [] && h.scan.batch[0] !in h.scan.seen
  {
    h.(scan := Freeing(h.scan.batch[1..], h.scan.seen), deletedLog := h.deletedLog + multiset{h.scan.batch[0]})
  }

  function UnlockScan(h: Hp): Hp
    requires h.scan.Freeing? && h.scan.batch == []
  {
    h.(scan := NoScan)
  }

  // ---------------------------------------------------------------------------
  // The invariant. guard maps each thread inside Acquire..Release to what it acquired.
  // ---------------------------------------------------------------------------

  ghost predicate NoDuplicates(s: seq<Addr>) {
    forall i, j :: 0 <= i < j < |s| ==> s[i] != s[j]
  }

  function Pending(h: Hp): seq<Addr> {
    h.freeList + Batch(h.scan)
  }

  /** The retired, not yet deleted pointers are exactly those of the two lists, each once. */
  ghost predicate ListsHold(h: Hp, retired: set<Addr>) {
    && NoDuplicates(Pending(h))
    && (forall a :: a in Pending(h) <==> a in retired)
  }

  ghost predicate Conserved(h: Hp) {
    h.retiredLog == multiset(h.freeList) + multiset(Batch(h.scan)) + h.deletedLog
  }

  /** A guarded pointer is in its thread's hazard variable and the thread is registered. */
  ghost predicate GuardsHold(h: Hp, guard: map<Thread, Addr>) {
    forall t :: t in guard ==> t in h.registered && HazardOf(h, t) == guard[t] && guard[t] != NULL
  }

  /** The scan has read the hazard a of thread t, or still will, before it looks at a. */
  predicate Sees(s: Scan, t: Thread, a: Addr) {
    match s
    case NoScan => true
    case Locked => true
    case Taken(_) => true
    case Reading(_, todo, seen) => t in todo || a in seen
    case Freeing(_, seen) => a in seen
  }

  ghost predicate ScanSees(h: Hp, guard: map<Thread, Addr>) {
    forall t :: t in guard && guard[t] in Batch(h.scan) ==> Sees(h.scan, t, guard[t])
  }

  ghost predicate HpInv(h: Hp, guard: map<Thread, Addr>, retired: set<Addr>) {
    ListsHold(h, retired) && Conserved(h) && GuardsHold(h, guard) && ScanSees(h, guard)
  }

  lemma StartInv()
    ensures HpInv(START, map[], {})
  {
  }

  lemma RegisterInv(h: Hp, guard: map<Thread, Addr>, retired: set<Addr>, t: Thread)
    requires HpInv(h, guard, retired) && !h.scan.Reading?
    ensures HpInv(Register(h, t), guard, retired)
  {
  }

  lemma UnregisterInv(h: Hp, guard: map<Thread, Addr>, retired: set<Addr>, t: Thread)
    requires HpInv(h, guard, retired) && !h.scan.Reading? && t !in guard
    ensures HpInv(Unregister(h, t), guard, retired)
  {
  }

  lemma StoreHazardInv(h: Hp, guard: map<Thread, Addr>, retired: set<Addr>, t: Thread, a: Addr)
    requires HpInv(h, guard, retired) && t !in guard
    ensures HpInv(StoreHazard(h, t, a), guard, retired)
  {
  }

  /** Acquire succeeds on a pointer that is still published, hence not retired. */
  lemma ValidateInv(h: Hp, guard: map<Thread, Addr>, retired: set<Addr>, t: Thread, a: Addr)
    requires HpInv(h, guard, retired) && t in h.registered
    requires HazardOf(h, t) == a != NULL && a !in retired
    ensures HpInv(h, guard[t := a], retired)
  {
    assert a !in Pending(h);
    forall b | b in Batch(h.scan) ensures b in Pending(h) { }
  }

  lemma ReleaseInv(h: Hp, guard: map<Thread, Addr>, retired: set<Addr>, t: Thread)
    requires HpInv(h, guard, retired)
    ensures HpInv(StoreHazard(h, t, NULL), guard - {t}, retired)
  {
  }

  lemma PushRetiredInv(h: Hp, guard: map<Thread, Addr>, retired: set<Addr>, a: Addr)
    requires HpInv(h, guard, retired) && a !in retired
    ensures HpInv(PushRetired(h, a), guard, retired + {a})
  {
    assert Pending(PushRetired(h, a)) == [a] + Pending(h);
    assert multiset([a] + h.freeList) == multiset{a} + multiset(h.freeList);
  }

  lemma LockScanInv(h: Hp, guard: map<Thread, Addr>, retired: set<Addr>)
    requires HpInv(h, guard, retired) && h.scan.NoScan?
    ensures HpInv(LockScan(h), guard, retired)
  {
  }

  lemma TakeListInv(h: Hp, guard: map<Thread, Addr>, retired: set<Addr>)
    requires HpInv(h, guard, retired) && h.scan.Locked?
    ensures HpInv(TakeList(h), guard, retired)
  {
    assert Pending(TakeList(h)) == Pending(h);
  }

  lemma LockThreadsInv(h: Hp, guard: map<Thread, Addr>, retired: set<Addr>)
    requires HpInv(h, guard, retired) && h.scan.Taken?
    ensures HpInv(LockThreads(h), guard, retired)
  {
    assert Pending(LockThreads(h)) == Pending(h);
  }

  lemma ReadHazardInv(h: Hp, guard: map<Thread, Addr>, retired: set<Addr>, t: Thread)
    requires HpInv(h, guard, retired) && h.scan.Reading? && t in h.scan.todo
    ensures HpInv(ReadHazard(h, t), guard, retired)
  {
    assert Pending(ReadHazard(h, t)) == Pending(h);
  }

  lemma UnlockThreadsInv(h: Hp, guard: map<Thread, Addr>, retired: set<Addr>)
    requires HpInv(h, guard, retired) && h.scan.Reading? && h.scan.todo == {}
    ensures HpInv(UnlockThreads(h), guard, retired)
  {
    assert Pending(UnlockThreads(h)) == Pending(h);
  }

  lemma KeepFirstInv(h: Hp, guard: map<Thread, Addr>, retired: set<Addr>)
    requires HpInv(h, guard, retired)
    requires h.scan.Freeing? && h.scan.batch != [] && h.scan.batch[0] in h.scan.seen
    ensures HpInv(KeepFirst(h), guard, retired)
  {
    var a, b := h.scan.batch[0], h.scan.batch[1..];
    assert h.scan.batch == [a] + b;
    MoveFirst(h.freeList, a, b);
    assert multiset([a] + h.freeList) == multiset{a} + multiset(h.freeList);
    assert multiset([a] + b) == multiset{a} + multiset(b);
  }

  lemma MoveFirst(f: seq<Addr>, a: Addr, b: seq<Addr>)
    requires NoDuplicates(f + ([a] + b))
    ensures NoDuplicates(([a] + f) + b)
    ensures forall x :: x in ([a] + f) + b <==> x in f + ([a] + b)
  {
    var was, s := f + ([a] + b), ([a] + f) + b;
    forall i, j | 0 <= i < j < |s| ensures s[i] != s[j] {
      var i' := if i == 0 then |f| else if i <= |f| then i - 1 else i;
      var j' := if j <= |f| then j - 1 else j;
      assert s[i] == was[i'] && s[j] == was[j'] && i' != j';
    }
  }

  /** What the scan deletes, no thread guards; afterwards it is in neither list. */
  lemma DeleteFirstInv(h: Hp, guard: map<Thread, Addr>, retired: set<Addr>)
    requires HpInv(h, guard, retired)
    requires h.scan.Freeing? && h.scan.batch != [] && h.scan.batch[0] !in h.scan.seen
    ensures h.scan.batch[0] in retired
    ensures forall t :: t in guard ==> guard[t] != h.scan.batch[0]
    ensures HpInv(DeleteFirst(h), guard, retired - {h.scan.batch[0]})
  {
    var a, b, f := h.scan.batch[0], h.scan.batch[1..], h.freeList;
    assert h.scan.batch == [a] + b;
    DropMiddle(f, a, b);
    assert multiset([a] + b) == multiset{a} + multiset(b);
    assert a in Pending(h);
  }

  lemma DropMiddle(f: seq<Addr>, a: Addr, b: seq<Addr>)
    requires NoDuplicates(f + ([a] + b))
    ensures NoDuplicates(f + b) && a !in f + b
    ensures forall x :: x in f + ([a] + b) <==> x in f + b || x == a
  {
    var was, s := f + ([a] + b), f + b;
    forall i, j | 0 <= i < j < |s| ensures s[i] != s[j] {
      var i', j' := if i < |f| then i else i + 1, if j < |f| then j else j + 1;
      assert s[i] == was[i'] && s[j] == was[j'];
    }
    forall i | 0 <= i < |s| ensures s[i] != a {
      var i' := if i < |f| then i else i + 1;
      assert s[i] == was[i'] && was[|f|] == a;
    }
  }

  lemma UnlockScanInv(h: Hp, guard: map<Thread, Addr>, retired: set<Addr>)
    requires HpInv(h, guard, retired) && h.scan.Freeing? && h.scan.batch == []
    ensures HpInv(UnlockScan(h), guard, retired)
  {
    assert Pending(UnlockScan(h)) == Pending(h);
  }

  // ---------------------------------------------------------------------------
  // Every scan step at once, as the clients use it
  // ---------------------------------------------------------------------------

  datatype ScanStep = DoLock | DoTake | DoLockThreads | DoRead(t: Thread) | DoUnlockThreads | DoKeep | DoDelete | DoUnlock

  predicate CanScan(h: Hp, s: ScanStep) {
    match s
    case DoLock => h.scan.NoScan?
    case DoTake => h.scan.Locked?
    case DoLockThreads => h.scan.Taken?
    case DoRead(t) => h.scan.Reading? && t in h.scan.todo
    case DoUnlockThreads => h.scan.Reading? && h.scan.todo == {}
    case DoKeep => h.scan.Freeing? && h.scan.batch != [] && h.scan.batch[0] in h.scan.seen
    case DoDelete => h.scan.Freeing? && h.scan.batch != [] && h.scan.batch[0] !in h.scan.seen
    case DoUnlock => h.scan.Freeing? && h.scan.batch == []
  }

  function ScanNext(h: Hp, s: ScanStep): Hp
    requires CanScan(h, s)
  {
    match s
    case DoLock => LockScan(h)
    case DoTake => TakeList(h)
    case DoLockThreads => LockThreads(h)
    case DoRead(t) => ReadHazard(h, t)
    case DoUnlockThreads => UnlockThreads(h)
    case DoKeep => KeepFirst(h)
    case DoDelete => DeleteFirst(h)
    case DoUnlock => UnlockScan(h)
  }

  /** The address a scan step hands to its deleter, if any. */
  function Deleted(h: Hp, s: ScanStep): set<Addr>
    requires CanScan(h, s)
  {
    if s.DoDelete? then {h.scan.batch[0]} else {}
  }

  lemma ScanInv(h: Hp, guard: map<Thread, Addr>, retired: set<Addr>, s: ScanStep)
    requires HpInv(h, guard, retired) && CanScan(h, s)
    ensures ScanNext(h, s).registered == h.registered && ScanNext(h, s).hazard == h.hazard
    ensures Deleted(h, s) <= retired
    ensures forall t :: t in guard ==> guard[t] !in Deleted(h, s)
    ensures HpInv(ScanNext(h, s), guard, retired - Deleted(h, s))
  {
    match s {
      case DoLock => LockScanInv(h, guard, retired);
      case DoTake => TakeListInv(h, guard, retired);
      case DoLockThreads => LockThreadsInv(h, guard, retired);
      case DoRead(t) => ReadHazardInv(h, guard, retired, t);
      case DoUnlockThreads => UnlockThreadsInv(h, guard, retired);
      case DoKeep => KeepFirstInv(h, guard, retired);
      case DoDelete => DeleteFirstInv(h, guard, retired);
      case DoUnlock => UnlockScanInv(h, guard, retired);
    }
    assert retired - {} == retired;
  }

  // ---------------------------------------------------------------------------
  // Every run of any client that keeps the discipline
  // ---------------------------------------------------------------------------

  /**
    live: allocated objects; published: objects some atomic variable holds; guard: objects
    obtained from Acquire and not released.
  */
  datatype World = World(hp: Hp, live: set<Addr>, published: set<Addr>, retired: set<Addr>, guard: map<Thread, Addr>)

  datatype Step =
    | RegisterThread(t: Thread)
    | UnregisterThread(t: Thread)
    | Allocate(a: Addr)
    | Publish(a: Addr)
    | Unpublish(a: Addr)
    | AnnounceHazard(t: Thread, a: Addr)
    | AcquireReturns(t: Thread)
    | Release(t: Thread)
    | Retire(a: Addr)
    | ScanBy(s: ScanStep)

  /** What the code allows together with what the interface asks of its users. */
  predicate Enabled(w: World, s: Step) {
    match s
    case RegisterThread(t) => !w.hp.scan.Reading?
    case UnregisterThread(t) => !w.hp.scan.Reading? && t !in w.guard
    case Allocate(a) => a != NULL && a !in w.live
    case Publish(a) => a in w.live && a !in w.retired
    case Unpublish(a) => a in w.published
    case AnnounceHazard(t, a) => t in w.hp.registered && t !in w.guard
    case AcquireReturns(t) => t in w.hp.registered && t !in w.guard && HazardOf(w.hp, t) in w.published
    case Release(t) => t in w.guard
    case Retire(a) => a in w.live && a !in w.published && a !in w.retired
    case ScanBy(x) => CanScan(w.hp, x)
  }

  function Next(w: World, s: Step): World
    requires Enabled(w, s)
  {
    match s
    case RegisterThread(t) => w.(hp := Register(w.hp, t))
    case UnregisterThread(t) => w.(hp := Unregister(w.hp, t))
    case Allocate(a) => w.(live := w.live + {a})
    case Publish(a) => w.(published := w.published + {a})
    case Unpublish(a) => w.(published := w.published - {a})
    case AnnounceHazard(t, a) => w.(hp := StoreHazard(w.hp, t, a))
    case AcquireReturns(t) => w.(guard := w.guard[t := HazardOf(w.hp, t)])
    case Release(t) => w.(hp := StoreHazard(w.hp, t, NULL), guard := w.guard - {t})
    case Retire(a) => w.(hp := PushRetired(w.hp, a), retired := w.retired + {a})
    case ScanBy(x) => w.(hp := ScanNext(w.hp, x), live := w.live - Deleted(w.hp, x), retired := w.retired - Deleted(w.hp, x))
  }

  ghost predicate WorldInv(w: World) {
    && HpInv(w.hp, w.guard, w.retired)
    && w.published <= w.live && w.retired <= w.live && w.published !! w.retired && NULL !in w.live
    && (forall t :: t in w.guard ==> w.guard[t] in w.live)
  }

  const START_WORLD: World := World(START, {}, {}, {}, map[])

  lemma WorldStep(w: World, s: Step)
    requires WorldInv(w) && Enabled(w, s)
    ensures WorldInv(Next(w, s))
  {
    match s {
      case RegisterThread(t) => RegisterInv(w.hp, w.guard, w.retired, t);
      case UnregisterThread(t) => UnregisterInv(w.hp, w.guard, w.retired, t);
      case Allocate(_) =>
      case Publish(_) =>
      case Unpublish(_) =>
      case AnnounceHazard(t, a) => StoreHazardInv(w.hp, w.guard, w.retired, t, a);
      case AcquireReturns(t) => ValidateInv(w.hp, w.guard, w.retired, t, HazardOf(w.hp, t));
      case Release(t) => ReleaseInv(w.hp, w.guard, w.retired, t);
      case Retire(a) => PushRetiredInv(w.hp, w.guard, w.retired, a);
      case ScanBy(x) => ScanInv(w.hp, w.guard, w.retired, x);
    }
  }

  ghost predicate Run(w: World, steps: seq<Step>, w': World)
    decreases |steps|
  {
    if steps == [] then w == w'
    else Enabled(w, steps[0]) && Run(Next(w, steps[0]), steps[1..], w')
  }

  lemma {:induction false} RunInv(w: World, steps: seq<Step>, w': World)
    requires WorldInv(w) && Run(w, steps, w')
    ensures WorldInv(w')
    decreases |steps|
  {
    if steps != [] {
      WorldStep(w, steps[0]);
      RunInv(Next(w, steps[0]), steps[1..], w');
    }
  }

  /**
    In every run: an object a thread has acquired and not released is not deleted by any next
    step, and each Retire is accounted for by the free list, the private list or one deletion.
  */
  lemma ReclamationSafe(steps: seq<Step>, w: World, next: Step)
    requires Run(START_WORLD, steps, w) && Enabled(w, next)
    ensures forall t :: t in w.guard ==> w.guard[t] in w.live
    ensures next.ScanBy? ==> forall t :: t in w.guard ==> w.guard[t] !in Deleted(w.hp, next.s)
    ensures next.ScanBy? ==> Deleted(w.hp, next.s) <= w.live
    ensures w.hp.retiredLog == multiset(w.hp.freeList) + multiset(Batch(w.hp.scan)) + w.hp.deletedLog
  {
    StartInv();
    RunInv(START_WORLD, steps, w);
    if next.ScanBy? {
      ScanInv(w.hp, w.guard, w.retired, next.s);
    }
  }

  // ---------------------------------------------------------------------------
  // What a scan reclaims
  // ---------------------------------------------------------------------------

  /** No further scan begins. */
  predicate OneScan(steps: seq<Step>) {
    forall i :: 0 <= i < |steps| ==> steps[i] != ScanBy(DoLock)
  }

  /** Some step frees a. */
  ghost predicate FreedIn(w: World, steps: seq<Step>, a: Addr)
    decreases |steps|
  {
    steps != [] && Enabled(w, steps[0])
    && ((a in w.live && a !in Next(w, steps[0]).live) || FreedIn(Next(w, steps[0]), steps[1..], a))
  }

  /** Some thread's hazard variable holds a when the scan reads it. */
  ghost predicate ReadIn(w: World, steps: seq<Step>, a: Addr)
    decreases |steps|
  {
    steps != [] && Enabled(w, steps[0])
    && ((steps[0].ScanBy? && steps[0].s.DoRead? && HazardOf(w.hp, steps[0].s.t) == a)
        || ReadIn(Next(w, steps[0]), steps[1..], a))
  }

  /** The scan has read a from a hazard variable. */
  predicate Noted(s: Scan, a: Addr) {
    (s.Reading? || s.Freeing?) && a in s.seen
  }

  predicate LastPhase(s: Scan) {
    s.NoScan? || s.Freeing?
  }

  /** One step before the last phase: a stays in the batch, and is noted exactly when read. */
  lemma NotingStep(w: World, step: Step, a: Addr, w': World)
    requires WorldInv(w) && Enabled(w, step) && step != ScanBy(DoLock) && w' == Next(w, step)
    requires a in Batch(w.hp.scan) && !LastPhase(w.hp.scan)
    ensures a in Batch(w'.hp.scan) && a in w'.live && a != NULL
    ensures Noted(w'.hp.scan, a) <==>
            Noted(w.hp.scan, a) || (step.ScanBy? && step.s.DoRead? && HazardOf(w.hp, step.s.t) == a)
  {
    InBatch(w, a);
  }

  lemma InBatch(w: World, a: Addr)
    requires WorldInv(w) && a in Batch(w.hp.scan)
    ensures a in w.live && a != NULL
  {
    assert a in Pending(w.hp);
    assert a in w.retired;
  }

  lemma HeadOnce(h: Hp, retired: set<Addr>)
    requires ListsHold(h, retired) && h.scan.Freeing? && h.scan.batch != []
    ensures h.scan.batch[0] !in h.scan.batch[1..]
    ensures forall a :: a in h.scan.batch <==> a == h.scan.batch[0] || a in h.scan.batch[1..]
  {
    var b := h.scan.batch;
    assert b == [b[0]] + b[1..];
    DropMiddle(h.freeList, b[0], b[1..]);
    forall a | a in b[1..] ensures a in h.freeList + b[1..] { }
  }

  /** One step of the last phase: a stays in the batch, or leaves it, freed exactly if it was not noted. */
  lemma FreeingStep(w: World, step: Step, a: Addr, w': World)
    requires WorldInv(w) && Enabled(w, step) && step != ScanBy(DoLock) && w' == Next(w, step)
    requires w.hp.scan.Freeing? && a in w.hp.scan.batch
    ensures w'.hp.scan.Freeing? && w'.hp.scan.seen == w.hp.scan.seen
    ensures if a in w'.hp.scan.batch then a in w'.live else a in w'.live <==> a in w.hp.scan.seen
  {
    InBatch(w, a);
    if step == ScanBy(DoKeep) || step == ScanBy(DoDelete) {
      HeadOnce(w.hp, w.retired);
    }
  }

  /** What is not in the batch of the last phase is left alone. */
  lemma {:induction false} OutsideBatch(w: World, steps: seq<Step>, a: Addr, w': World)
    requires WorldInv(w) && Run(w, steps, w') && OneScan(steps) && LastPhase(w.hp.scan) && a !in Batch(w.hp.scan)
    ensures !FreedIn(w, steps, a) && !ReadIn(w, steps, a)
    decreases |steps|
  {
    if steps != [] {
      var w1 := Next(w, steps[0]);
      WorldStep(w, steps[0]);
      OutsideStep(w, steps[0], a, w1);
      OutsideBatch(w1, steps[1..], a, w');
    }
  }

  lemma OutsideStep(w: World, step: Step, a: Addr, w': World)
    requires Enabled(w, step) && step != ScanBy(DoLock) && w' == Next(w, step)
    requires LastPhase(w.hp.scan) && a !in Batch(w.hp.scan)
    ensures LastPhase(w'.hp.scan) && a !in Batch(w'.hp.scan) && (a in w.live ==> a in w'.live)
  {
    if step == ScanBy(DoKeep) || step == ScanBy(DoDelete) {
      assert w.hp.scan.batch == [w.hp.scan.batch[0]] + w.hp.scan.batch[1..];
    }
  }

  /** The first step of a run in the last phase, which reads nothing. */
  lemma FreeingHead(w: World, steps: seq<Step>, a: Addr, w1: World)
    requires WorldInv(w) && steps != [] && Enabled(w, steps[0]) && w1 == Next(w, steps[0]) && OneScan(steps)
    requires w.hp.scan.Freeing? && a in w.hp.scan.batch
    ensures WorldInv(w1) && w1.hp.scan.Freeing? && w1.hp.scan.seen == w.hp.scan.seen
    ensures if a in w1.hp.scan.batch then a in w1.live else a in w1.live <==> a in w.hp.scan.seen
    ensures FreedIn(w, steps, a) <==> a !in w1.live || FreedIn(w1, steps[1..], a)
    ensures ReadIn(w, steps, a) <==> ReadIn(w1, steps[1..], a)
  {
    WorldStep(w, steps[0]);
    FreeingStep(w, steps[0], a, w1);
    InBatch(w, a);
  }

  lemma {:induction false} FreeingRun(w: World, steps: seq<Step>, a: Addr, w': World)
    requires WorldInv(w) && Run(w, steps, w') && OneScan(steps) && w.hp.scan.Freeing? && a in w.hp.scan.batch
    requires w'.hp.scan.NoScan?
    ensures (FreedIn(w, steps, a) <==> !Noted(w.hp.scan, a)) && !ReadIn(w, steps, a)
    decreases |steps|
  {
    if steps != [] {
      var w1 := Next(w, steps[0]);
      FreeingHead(w, steps, a, w1);
      if a in Batch(w1.hp.scan) {
        FreeingRun(w1, steps[1..], a, w');
      } else {
        OutsideBatch(w1, steps[1..], a, w');
      }
    }
  }

  lemma {:induction false} ScanRun(w: World, steps: seq<Step>, a: Addr, w': World)
    requires WorldInv(w) && Run(w, steps, w') && OneScan(steps) && a in Batch(w.hp.scan) && w'.hp.scan.NoScan?
    ensures FreedIn(w, steps, a) <==> !Noted(w.hp.scan, a) && !ReadIn(w, steps, a)
    decreases |steps|
  {
    if w.hp.scan.Freeing? {
      FreeingRun(w, steps, a, w');
    } else if steps != [] {
      var w1 := Next(w, steps[0]);
      WorldStep(w, steps[0]);
      NotingStep(w, steps[0], a, w1);
      assert a in Pending(w.hp);
      ScanRun(w1, steps[1..], a, w');
    }
  }

  /**
    In every run a scan that takes the list and comes to its end frees every pointer retired
    before, except exactly those that it read from some thread's hazard variable.
  */
  lemma ScanReclaims(steps: seq<Step>, w: World, more: seq<Step>, w': World, a: Addr)
    requires Run(START_WORLD, steps, w) && w.hp.scan.Locked? && a in w.retired
    requires Run(Next(w, ScanBy(DoTake)), more, w') && OneScan(more) && w'.hp.scan.NoScan?
    ensures FreedIn(Next(w, ScanBy(DoTake)), more, a) <==> !ReadIn(Next(w, ScanBy(DoTake)), more, a)
  {
    StartInv();
    RunInv(START_WORLD, steps, w);
    WorldStep(w, ScanBy(DoTake));
    assert a in Pending(w.hp);
    ScanRun(Next(w, ScanBy(DoTake)), more, a, w');
  }

  // ---------------------------------------------------------------------------
  // What can always be done
  // ---------------------------------------------------------------------------

  lemma {:induction false} RunJoin(w: World, steps: seq<Step>, m: World, more: seq<Step>, w': World)
    requires Run(w, steps, m) && Run(m, more, w')
    ensures Run(w, steps + more, w')
    decreases |steps|
  {
    if steps == [] {
      assert steps + more == more;
    } else {
      assert (steps + more)[1..] == steps[1..] + more;
      RunJoin(Next(w, steps[0]), steps[1..], m, more, w');
    }
  }

  lemma RunOne(w: World, step: Step)
    requires Enabled(w, step)
    ensures Run(w, [step], Next(w, step))
  {
    assert [step][1..] == [] && Run(Next(w, step), [], Next(w, step));
  }

  /** Acquire of a published object by a registered thread that guards nothing returns it. */
  lemma AcquireWorks(w: World, t: Thread, a: Addr) returns (w': World)
    requires t in w.hp.registered && t !in w.guard && a in w.published
    ensures Run(w, [AnnounceHazard(t, a), AcquireReturns(t)], w')
    ensures w'.guard == w.guard[t := a] && HazardOf(w'.hp, t) == a
  {
    var m := Next(w, AnnounceHazard(t, a));
    w' := Next(m, AcquireReturns(t));
    RunOne(m, AcquireReturns(t));
    assert [AnnounceHazard(t, a), AcquireReturns(t)][1..] == [AcquireReturns(t)];
  }

  /** Release gives up exactly what its thread guards, and its hazard variable with it. */
  lemma ReleaseWorks(w: World, t: Thread)
    requires t in w.guard
    ensures Enabled(w, Release(t)) && Next(w, Release(t)).guard == w.guard - {t} && HazardOf(Next(w, Release(t)).hp, t) == NULL
  {
  }

  /** A thread is registered from its RegisterThread to its UnregisterThread. */
  lemma RegistrationWorks(w: World, t: Thread)
    requires !w.hp.scan.Reading? && t !in w.guard
    ensures Enabled(w, RegisterThread(t)) && Next(w, RegisterThread(t)).hp.registered == w.hp.registered + {t}
    ensures Enabled(w, UnregisterThread(t)) && Next(w, UnregisterThread(t)).hp.registered == w.hp.registered - {t}
  {
  }

  /** The life of an object up to its retirement. */
  lemma ObjectLife(w: World, a: Addr) returns (w1: World, w2: World, w3: World, w4: World)
    requires a != NULL && a !in w.live && a !in w.published && a !in w.retired
    ensures Enabled(w, Allocate(a)) && w1 == Next(w, Allocate(a)) && w1.live == w.live + {a}
    ensures Enabled(w1, Publish(a)) && w2 == Next(w1, Publish(a)) && w2.published == w.published + {a}
    ensures Enabled(w2, Unpublish(a)) && w3 == Next(w2, Unpublish(a)) && w3.published == w.published
    ensures Enabled(w3, Retire(a)) && w4 == Next(w3, Retire(a)) && w4.retired == w.retired + {a} && w4.live == w.live + {a}
  {
    w1 := Next(w, Allocate(a));
    w2 := Next(w1, Publish(a));
    w3 := Next(w2, Unpublish(a));
    w4 := Next(w3, Retire(a));
  }

  /** How far a scan is from its end. */
  function ScanLeft(s: Scan): nat {
    match s
    case NoScan => 0
    case Freeing(b, _) => 1 + |b|
    case Reading(b, todo, _) => 2 + |b| + |todo|
    case Taken(b) => 3 + |b|
    case Locked => 0
  }

  /** The next step of a scan under way. */
  lemma ScanStepExists(w: World) returns (x: ScanStep)
    requires !w.hp.scan.NoScan? && !w.hp.scan.Locked? && !w.hp.scan.Taken?
    ensures CanScan(w.hp, x) && x != DoLock && !x.DoLockThreads? && ScanLeft(ScanNext(w.hp, x).scan) < ScanLeft(w.hp.scan)
    ensures var s := ScanNext(w.hp, x).scan; s.NoScan? || s.Freeing? || s.Reading?
    ensures x.DoRead? ==> x.t in w.hp.scan.todo
  {
    if w.hp.scan.Reading? {
      if w.hp.scan.todo == {} {
        x := DoUnlockThreads;
      } else {
        var t :| t in w.hp.scan.todo;
        x := DoRead(t);
      }
    } else if w.hp.scan.batch == [] {
      x := DoUnlock;
    } else {
      x := if w.hp.scan.batch[0] in w.hp.scan.seen then DoKeep else DoDelete;
    }
  }

  predicate OnlyScan(steps: seq<Step>) {
    forall i :: 0 <= i < |steps| ==> steps[i].ScanBy? && steps[i].s != DoLock
  }

  /** No hazard variable that is still to be read holds a. */
  ghost predicate Unhazarded(w: World, a: Addr) {
    forall t :: t in w.hp.registered ==> HazardOf(w.hp, t) != a
  }

  /** The threads still to be read are registered. */
  predicate TodoOk(w: World) {
    w.hp.scan.Reading? ==> w.hp.scan.todo <= w.hp.registered
  }

  /** A scan under way can run to its end by itself. */
  lemma {:induction false} ScanToEnd(w: World, a: Addr) returns (steps: seq<Step>, w': World)
    requires w.hp.scan.NoScan? || w.hp.scan.Freeing? || w.hp.scan.Reading?
    requires TodoOk(w) && Unhazarded(w, a)
    ensures OnlyScan(steps) && Run(w, steps, w') && w'.hp.scan.NoScan? && !ReadIn(w, steps, a)
    decreases ScanLeft(w.hp.scan)
  {
    if w.hp.scan.NoScan? {
      steps, w' := [], w;
    } else {
      var x := ScanStepExists(w);
      var w1 := Next(w, ScanBy(x));
      var rest;
      rest, w' := ScanToEnd(w1, a);
      steps := [ScanBy(x)] + rest;
      assert steps[1..] == rest;
    }
  }

  /**
    From every reachable state without a scan, a scan can free any retired pointer that is in no
    registered thread's hazard variable.
  */
  lemma ScanCanFree(steps: seq<Step>, w: World, a: Addr) returns (scan: seq<Step>, w': World)
    requires Run(START_WORLD, steps, w) && w.hp.scan.NoScan? && a in w.retired && Unhazarded(w, a)
    ensures Run(w, scan, w') && w'.hp.scan.NoScan? && FreedIn(w, scan, a) && forall i :: 0 <= i < |scan| ==> scan[i].ScanBy?
  {
    var w1 := Next(w, ScanBy(DoLock));
    var w2 := Next(w1, ScanBy(DoTake));
    var w3 := Next(w2, ScanBy(DoLockThreads));
    RunOne(w, ScanBy(DoLock));
    RunJoin(START_WORLD, steps, w, [ScanBy(DoLock)], w1);
    var rest;
    rest, w' := ScanToEnd(w3, a);
    var more := [ScanBy(DoLockThreads)] + rest;
    assert more[1..] == rest && Run(w2, more, w') && !ReadIn(w2, more, a);
    ScanReclaims(steps + [ScanBy(DoLock)], w1, more, w', a);
    scan := [ScanBy(DoLock)] + ([ScanBy(DoTake)] + more);
    assert scan[1..] == [ScanBy(DoTake)] + more && ([ScanBy(DoTake)] + more)[1..] == more;
    assert Run(w1, [ScanBy(DoTake)] + more, w') && FreedIn(w1, [ScanBy(DoTake)] + more, a);
  }

  /** An address beyond all of these: the allocator always has one. */
  lemma {:induction false} AddressBeyond(used: set<Addr>) returns (a: Addr)
    ensures a != NULL && forall x :: x in used ==> x < a
    decreases |used|
  {
    if used == {} {
      a := 1;
    } else {
      var x :| x in used;
      var b := AddressBeyond(used - {x});
      a := if x < b then b else x + 1;
      forall y | y in used ensures y < a {
        assert y == x || y in used - {x};
      }
    }
  }
}
