/**
  The lock-free stack over hazard pointers: every interleaving of Push, Pop and Clear,
  one step per access to shared memory, with an allocator that reuses freed addresses.
  Reading or freeing an address that is not allocated raises the fault flag.
*/
module LockFreeStack {
  import opened HazardPtr

  /** Who may change a node: bookkeeping for the proof, never read by the steps' decisions. */
  datatype Owner = Fresh(t: Thread) | InStack | Popped(t: Thread) | Cleared(t: Thread) | Retiring

  datatype Node = Node(value: int, next: Addr, owner: Owner)

  type Heap = map<Addr, Node>

  /** Where a thread stands in Push, Pop or Clear, with its local variables. */
  datatype Local =
    | Idle
    | PushLoad(v: int)
    | PushNew(v: int, seen: Addr)
    | PushCas(v: int, seen: Addr, node: Addr)
    | PushRelink(v: int, seen: Addr, node: Addr)
    | PopLoad
    | PopStore(x: Addr)
    | PopCheck(x: Addr)
    | PopNext(x: Addr)
    | PopCas(x: Addr, next: Addr)
    | PopValue(x: Addr, top: int)
    | PopRelease(x: Addr, result: int)
    | PopRetire(x: Addr, result: int)
    | ClearLoad
    | ClearCas(seen: Addr)
    | ClearWalk(cur: Addr, rest: seq<Addr>)
    | ClearRetire(node: Addr, cur: Addr, rest: seq<Addr>)
  {
    /** Between a successful Acquire and Release. */
    predicate Guarding() {
      PopNext? || PopCas? || PopValue? || PopRelease?
    }
  }

  /** chain lists the nodes reachable from head; guard is what Acquire has returned and Release not yet dropped. */
  datatype Stack = Stack(
    hp: Hp, heap: Heap, head: Addr, chain: seq<Addr>,
    local: map<Thread, Local>, guard: map<Thread, Addr>, fault: bool)

  const START_STACK: Stack := Stack(START, map[], NULL, [], map[], map[], false)

  // ---------------------------------------------------------------------------
  // Steps of a thread
  // ---------------------------------------------------------------------------

  function At(s: Stack, t: Thread, l: Local): Stack {
    s.(local := s.local[t := l])
  }

  function Owned(heap: Heap, a: Addr, o: Owner): Heap {
    if a in heap then heap[a := heap[a].(owner := o)] else heap
  }

  function OwnedAll(heap: Heap, chain: seq<Addr>, o: Owner): Heap {
    map a | a in heap :: if a in chain then heap[a].(owner := o) else heap[a]
  }

  /** compare_exchange_weak may fail spuriously; a failure loads the current head. */
  function DoPushCas(s: Stack, t: Thread, l: Local, weakFails: bool): Stack
    requires l.PushCas?
  {
    if s.head == l.seen && !weakFails then
      At(s, t, Idle).(head := l.node, chain := [l.node] + s.chain, heap := Owned(s.heap, l.node, InStack))
    else At(s, t, PushRelink(l.v, s.head, l.node))
  }

  function DoPushRelink(s: Stack, t: Thread, l: Local): Stack
    requires l.PushRelink?
  {
    if l.node in s.heap then
      At(s, t, PushCas(l.v, l.seen, l.node)).(heap := s.heap[l.node := s.heap[l.node].(next := l.seen)])
    else s.(fault := true)
  }

  /** The reload that ends Acquire, or sends it round again. */
  function DoPopCheck(s: Stack, t: Thread, l: Local): Stack
    requires l.PopCheck?
  {
    if s.head != l.x then At(s, t, PopStore(s.head))
    else if l.x == NULL then At(s, t, Idle)
    else At(s, t, PopNext(l.x)).(guard := s.guard[t := l.x])
  }

  function DoPopNext(s: Stack, t: Thread, l: Local): Stack
    requires l.PopNext?
  {
    if l.x in s.heap then At(s, t, PopCas(l.x, s.heap[l.x].next)) else s.(fault := true)
  }

  /** On failure Pop acquires again, which overwrites its hazard pointer. */
  function DoPopCas(s: Stack, t: Thread, l: Local, weakFails: bool): Stack
    requires l.PopCas?
  {
    if s.head == l.x && !weakFails then
      At(s, t, PopValue(l.x, if l.x in s.heap then s.heap[l.x].value else 0))
        .(head := l.next, chain := if s.chain == [] then [] else s.chain[1..], heap := Owned(s.heap, l.x, Popped(t)))
    else At(s, t, PopLoad).(guard := s.guard - {t})
  }

  /** Moves the value out, leaving anything behind. */
  function DoPopValue(s: Stack, t: Thread, l: Local, junk: int): Stack
    requires l.PopValue?
  {
    if l.x in s.heap then
      At(s, t, PopRelease(l.x, s.heap[l.x].value)).(heap := s.heap[l.x := s.heap[l.x].(value := junk)])
    else s.(fault := true)
  }

  function DoPopRelease(s: Stack, t: Thread, l: Local): Stack
    requires l.PopRelease?
  {
    At(s, t, PopRetire(l.x, l.result)).(hp := StoreHazard(s.hp, t, NULL), guard := s.guard - {t})
  }

  function DoRetire(s: Stack, t: Thread, a: Addr, l: Local): Stack {
    At(s, t, l).(hp := PushRetired(s.hp, a), heap := Owned(s.heap, a, Retiring))
  }

  function DoClearCas(s: Stack, t: Thread, l: Local, weakFails: bool): Stack
    requires l.ClearCas?
  {
    if s.head == l.seen && !weakFails then
      At(s, t, ClearWalk(l.seen, s.chain)).(head := NULL, chain := [], heap := OwnedAll(s.heap, s.chain, Cleared(t)))
    else At(s, t, ClearLoad)
  }

  function DoClearWalk(s: Stack, t: Thread, l: Local): Stack
    requires l.ClearWalk?
  {
    if l.cur == NULL then At(s, t, Idle)
    else if l.cur in s.heap && l.rest != [] then At(s, t, ClearRetire(l.cur, s.heap[l.cur].next, l.rest[1..]))
    else s.(fault := true)
  }

  /** address: what the allocator returns; junk: what a move leaves behind. */
  datatype Choice = Choice(address: Addr, junk: int, weakFails: bool)

  predicate CanGo(s: Stack, t: Thread, c: Choice) {
    t in s.local && !s.local[t].Idle? && (s.local[t].PushNew? ==> c.address != NULL && c.address !in s.heap)
  }

  function Go(s: Stack, t: Thread, c: Choice): Stack
    requires CanGo(s, t, c)
  {
    var l := s.local[t];
    match l
    case Idle => s
    case PushLoad(v) => At(s, t, PushNew(v, s.head))
    case PushNew(v, seen) => At(s, t, PushCas(v, seen, c.address)).(heap := s.heap[c.address := Node(v, seen, Fresh(t))])
    case PushCas(_, _, _) => DoPushCas(s, t, l, c.weakFails)
    case PushRelink(_, _, _) => DoPushRelink(s, t, l)
    case PopLoad => At(s, t, PopStore(s.head))
    case PopStore(x) => At(s, t, PopCheck(x)).(hp := StoreHazard(s.hp, t, x))
    case PopCheck(_) => DoPopCheck(s, t, l)
    case PopNext(_) => DoPopNext(s, t, l)
    case PopCas(_, _) => DoPopCas(s, t, l, c.weakFails)
    case PopValue(_, _) => DoPopValue(s, t, l, c.junk)
    case PopRelease(_, _) => DoPopRelease(s, t, l)
    case PopRetire(x, _) => DoRetire(s, t, x, Idle)
    case ClearLoad => At(s, t, ClearCas(s.head))
    case ClearCas(_) => DoClearCas(s, t, l, c.weakFails)
    case ClearWalk(_, _) => DoClearWalk(s, t, l)
    case ClearRetire(node, cur, rest) => DoRetire(s, t, node, ClearWalk(cur, rest))
  }

  // ---------------------------------------------------------------------------
  // Steps of the system
  // ---------------------------------------------------------------------------

  datatype Step =
    | Join(t: Thread)
    | Leave(t: Thread)
    | CallPush(t: Thread, v: int)
    | CallPop(t: Thread)
    | CallClear(t: Thread)
    | Run(t: Thread, c: Choice)
    | ScanBy(x: ScanStep)

  predicate Enabled(s: Stack, step: Step) {
    match step
    case Join(t) => t !in s.local && !s.hp.scan.Reading?
    case Leave(t) => t in s.local && s.local[t].Idle? && !s.hp.scan.Reading?
    case CallPush(t, _) => t in s.local && s.local[t].Idle?
    case CallPop(t) => t in s.local && s.local[t].Idle?
    case CallClear(t) => t in s.local && s.local[t].Idle?
    case Run(t, c) => CanGo(s, t, c)
    case ScanBy(x) => CanScan(s.hp, x)
  }

  /** Deleting an address that is not allocated is a fault too. */
  function DoScan(s: Stack, x: ScanStep): Stack
    requires CanScan(s.hp, x)
  {
    var d := Deleted(s.hp, x);
    s.(hp := ScanNext(s.hp, x), heap := s.heap - d, fault := s.fault || !(d <= s.heap.Keys))
  }

  function Next(s: Stack, step: Step): Stack
    requires Enabled(s, step)
  {
    match step
    case Join(t) => At(s, t, Idle).(hp := Register(s.hp, t))
    case Leave(t) => s.(hp := Unregister(s.hp, t), local := s.local - {t})
    case CallPush(t, v) => At(s, t, PushLoad(v))
    case CallPop(t) => At(s, t, PopLoad)
    case CallClear(t) => At(s, t, ClearLoad)
    case Run(t, c) => Go(s, t, c)
    case ScanBy(x) => DoScan(s, x)
  }

  // ---------------------------------------------------------------------------
  // The invariant
  // ---------------------------------------------------------------------------

  /** Following next from a visits exactly chain and ends in null. */
  ghost predicate Linked(heap: Heap, a: Addr, chain: seq<Addr>)
    decreases |chain|
  {
    if chain == [] then a == NULL
    else a == chain[0] && a != NULL && a in heap && Linked(heap, heap[a].next, chain[1..])
  }

  /** The nodes of chain, and no others, have this owner. */
  ghost predicate OwnsExactly(heap: Heap, o: Owner, chain: seq<Addr>) {
    forall a :: (a in heap && heap[a].owner == o) <==> a in chain
  }

  ghost predicate ChainInv(s: Stack) {
    Linked(s.heap, s.head, s.chain) && NoDuplicates(s.chain) && OwnsExactly(s.heap, InStack, s.chain)
  }

  ghost predicate HasOwner(heap: Heap, a: Addr, o: Owner) {
    a in heap && heap[a].owner == o
  }

  ghost predicate OwnsAll(heap: Heap, o: Owner, chain: seq<Addr>) {
    forall a :: a in chain ==> HasOwner(heap, a, o)
  }

  /** What a thread's local variables are worth, whatever the others do. */
  ghost predicate LocalInv(heap: Heap, hp: Hp, guard: map<Thread, Addr>, t: Thread, l: Local) {
    && (l.Guarding() <==> t in guard)
    && match l
       case PushCas(v, seen, n) => n != NULL && n in heap && heap[n] == Node(v, seen, Fresh(t))
       case PushRelink(v, _, n) => n != NULL && HasOwner(heap, n, Fresh(t)) && heap[n].value == v
       case PopCheck(x) => HazardOf(hp, t) == x
       case PopNext(x) => guard[t] == x
       case PopCas(x, next) => guard[t] == x && x in heap && heap[x].next == next
       case PopValue(x, top) => guard[t] == x && HasOwner(heap, x, Popped(t)) && heap[x].value == top
       case PopRelease(x, _) => guard[t] == x && HasOwner(heap, x, Popped(t))
       case PopRetire(x, _) => HasOwner(heap, x, Popped(t))
       case ClearWalk(cur, rest) => Linked(heap, cur, rest) && NoDuplicates(rest) && OwnsAll(heap, Cleared(t), rest)
       case ClearRetire(n, cur, rest) =>
         HasOwner(heap, n, Cleared(t)) && n !in rest
         && Linked(heap, cur, rest) && NoDuplicates(rest) && OwnsAll(heap, Cleared(t), rest)
       case _ => true
  }

  ghost predicate LocalsInv(s: Stack) {
    && (forall t :: t in s.local ==> LocalInv(s.heap, s.hp, s.guard, t, s.local[t]))
    && (forall t :: t in s.local <==> t in s.hp.registered)
    && (forall t :: t in s.guard ==> t in s.local)
  }

  /** A guarded node is allocated and past the point where its next could change. */
  ghost predicate Settled(heap: Heap, a: Addr) {
    a in heap && !heap[a].owner.Fresh?
  }

  ghost predicate GuardInv(s: Stack) {
    forall t :: t in s.guard ==> Settled(s.heap, s.guard[t])
  }

  ghost function Retired(heap: Heap): set<Addr> {
    set a | a in heap && heap[a].owner == Retiring
  }

  ghost predicate Inv(s: Stack) {
    && !s.fault && NULL !in s.heap
    && ChainInv(s) && LocalsInv(s) && GuardInv(s)
    && HpInv(s.hp, s.guard, Retired(s.heap))
  }

  lemma StartStackInv()
    ensures Inv(START_STACK)
  {
    StartInv();
    assert Retired(START_STACK.heap) == {};
  }

  // ---------------------------------------------------------------------------
  // What one thread's step may do to the others
  // ---------------------------------------------------------------------------

  /** The owner is a thread other than t. */
  predicate Private(o: Owner, t: Thread) {
    !o.InStack? && !o.Retiring? && o.t != t
  }

  /** Nodes private to other threads are untouched and settled nodes keep their links. */
  ghost predicate HeapFrame(heap: Heap, heap': Heap, t: Thread) {
    && (forall a :: a in heap && Private(heap[a].owner, t) ==> a in heap' && heap'[a] == heap[a])
    && (forall a :: Settled(heap, a) && a in heap' ==> Settled(heap', a) && heap'[a].next == heap[a].next)
  }

  lemma {:induction false} LinkedFrame(heap: Heap, heap': Heap, a: Addr, chain: seq<Addr>)
    requires Linked(heap, a, chain)
    requires forall x :: x in chain ==> x in heap && x in heap' && heap'[x].next == heap[x].next
    ensures Linked(heap', a, chain)
    decreases |chain|
  {
    if chain != [] {
      LinkedFrame(heap, heap', heap[a].next, chain[1..]);
    }
  }

  /** A thread u that did not move keeps its local invariant. */
  lemma OtherThread(heap: Heap, heap': Heap, hp: Hp, hp': Hp, guard: map<Thread, Addr>, guard': map<Thread, Addr>,
                    t: Thread, u: Thread, l: Local)
    requires LocalInv(heap, hp, guard, u, l) && u != t && HeapFrame(heap, heap', t)
    requires HazardOf(hp', u) == HazardOf(hp, u)
    requires u in guard <==> u in guard'
    requires u in guard ==> guard'[u] == guard[u] && Settled(heap, guard[u]) && guard[u] in heap'
    ensures LocalInv(heap', hp', guard', u, l)
  {
    match l {
      case ClearWalk(cur, rest) =>
        OthersChain(heap, heap', t, u, cur, rest);
      case ClearRetire(_, cur, rest) =>
        OthersChain(heap, heap', t, u, cur, rest);
      case _ =>
    }
  }

  lemma OthersChain(heap: Heap, heap': Heap, t: Thread, u: Thread, cur: Addr, rest: seq<Addr>)
    requires HeapFrame(heap, heap', t) && u != t
    requires Linked(heap, cur, rest) && OwnsAll(heap, Cleared(u), rest)
    ensures Linked(heap', cur, rest) && OwnsAll(heap', Cleared(u), rest)
  {
    forall a | a in rest ensures a in heap && a in heap' && heap'[a] == heap[a] {
      assert HasOwner(heap, a, Cleared(u));
    }
    LinkedFrame(heap, heap', cur, rest);
  }

  /** All locals after a step of t, from t's own and the frame. */
  lemma LocalsAfter(s: Stack, s': Stack, t: Thread)
    requires Inv(s) && t in s.local && t in s'.local
    requires HeapFrame(s.heap, s'.heap, t)
    requires s'.local == s.local[t := s'.local[t]]
    requires s'.hp.registered == s.hp.registered
    requires forall u :: u != t ==> HazardOf(s'.hp, u) == HazardOf(s.hp, u)
    requires forall u :: u != t ==> (u in s.guard <==> u in s'.guard)
    requires forall u :: u != t && u in s.guard ==> s'.guard[u] == s.guard[u] && s.guard[u] in s'.heap
    requires LocalInv(s'.heap, s'.hp, s'.guard, t, s'.local[t])
    ensures LocalsInv(s')
  {
    forall u | u in s'.local ensures LocalInv(s'.heap, s'.hp, s'.guard, u, s'.local[u]) {
      if u != t {
        OtherThread(s.heap, s'.heap, s.hp, s'.hp, s.guard, s'.guard, t, u, s.local[u]);
      }
    }
  }

  /** The stack itself is untouched. */
  ghost predicate ChainFrame(heap: Heap, heap': Heap) {
    && (forall a :: HasOwner(heap, a, InStack) <==> HasOwner(heap', a, InStack))
    && (forall a :: HasOwner(heap, a, InStack) ==> heap'[a].next == heap[a].next && heap'[a].value == heap[a].value)
  }

  /** Changing one node that no other thread owns and that is not retired. */
  lemma NodeChange(heap: Heap, a: Addr, node: Node, t: Thread)
    requires a in heap && !Private(heap[a].owner, t) && !heap[a].owner.Retiring? && !node.owner.Retiring?
    requires !heap[a].owner.Fresh? ==> !node.owner.Fresh? && node.next == heap[a].next
    ensures HeapFrame(heap, heap[a := node], t) && Retired(heap[a := node]) == Retired(heap)
    ensures !heap[a].owner.InStack? && !node.owner.InStack? ==> ChainFrame(heap, heap[a := node])
  {
  }

  /** Guarded nodes stay settled as long as they stay allocated. */
  lemma GuardAfter(heap: Heap, heap': Heap, guard: map<Thread, Addr>, t: Thread)
    requires forall u :: u in guard ==> Settled(heap, guard[u]) && guard[u] in heap'
    requires HeapFrame(heap, heap', t)
    ensures forall u :: u in guard ==> Settled(heap', guard[u])
  {
  }

  /** A scan removes retired nodes only. */
  lemma Removal(heap: Heap, d: set<Addr>, t: Thread)
    requires d <= Retired(heap)
    ensures HeapFrame(heap, heap - d, t) && ChainFrame(heap, heap - d)
    ensures Retired(heap - d) == Retired(heap) - d && d <= heap.Keys
  {
  }

  lemma ChainAfter(s: Stack, s': Stack)
    requires ChainInv(s) && ChainFrame(s.heap, s'.heap) && s'.head == s.head && s'.chain == s.chain
    ensures ChainInv(s') && Contents(s') == Contents(s)
  {
    forall a ensures (a in s'.heap && s'.heap[a].owner == InStack) <==> a in s'.chain {
      assert HasOwner(s.heap, a, InStack) <==> HasOwner(s'.heap, a, InStack);
    }
    forall a | a in s.chain ensures HasOwner(s.heap, a, InStack) { }
    LinkedFrame(s.heap, s'.heap, s.head, s.chain);
    ValuesFrame(s.heap, s'.heap, s.chain);
  }

  // ---------------------------------------------------------------------------
  // The abstract stack
  // ---------------------------------------------------------------------------

  ghost function Values(heap: Heap, chain: seq<Addr>): seq<int> {
    if chain == [] then []
    else [if chain[0] in heap then heap[chain[0]].value else 0] + Values(heap, chain[1..])
  }

  ghost function Contents(s: Stack): seq<int> {
    Values(s.heap, s.chain)
  }

  lemma {:induction false} ValuesFrame(heap: Heap, heap': Heap, chain: seq<Addr>)
    requires forall a :: a in chain ==> a in heap && a in heap' && heap'[a].value == heap[a].value
    ensures Values(heap', chain) == Values(heap, chain)
    decreases |chain|
  {
    if chain != [] {
      ValuesFrame(heap, heap', chain[1..]);
    }
  }

  // ---------------------------------------------------------------------------
  // Each step keeps the invariant and does to the abstract stack what it should
  // ---------------------------------------------------------------------------

  lemma SimpleInv(s: Stack, t: Thread, l: Local)
    requires Inv(s) && t in s.local && LocalInv(s.heap, s.hp, s.guard, t, l)
    ensures Inv(At(s, t, l)) && Contents(At(s, t, l)) == Contents(s)
  {
    LocalsAfter(s, At(s, t, l), t);
  }

  lemma PushNewInv(s: Stack, t: Thread, c: Choice)
    requires Inv(s) && CanGo(s, t, c) && s.local[t].PushNew?
    ensures Inv(Go(s, t, c)) && Contents(Go(s, t, c)) == Contents(s)
  {
    var s' := Go(s, t, c);
    assert ChainFrame(s.heap, s'.heap);
    ChainAfter(s, s');
    LocalsAfter(s, s', t);
    assert Retired(s'.heap) == Retired(s.heap);
  }

  lemma PushChain(heap: Heap, n: Addr, chain: seq<Addr>)
    requires n != NULL && n in heap && !heap[n].owner.InStack? && OwnsExactly(heap, InStack, chain)
    requires Linked(heap, heap[n].next, chain) && NoDuplicates(chain)
    ensures var heap' := Owned(heap, n, InStack);
            && Linked(heap', n, [n] + chain) && NoDuplicates([n] + chain) && OwnsExactly(heap', InStack, [n] + chain)
            && Values(heap', [n] + chain) == [heap[n].value] + Values(heap, chain)
  {
    var heap' := Owned(heap, n, InStack);
    assert n !in chain;
    assert ([n] + chain)[1..] == chain;
    LinkedFrame(heap, heap', heap[n].next, chain);
    ValuesFrame(heap, heap', chain);
  }

  /** A successful Push CAS puts the value on top. */
  lemma PushCasInv(s: Stack, t: Thread, l: Local)
    requires Inv(s) && t in s.local && s.local[t] == l && l.PushCas? && s.head == l.seen
    ensures Inv(DoPushCas(s, t, l, false)) && Contents(DoPushCas(s, t, l, false)) == [l.v] + Contents(s)
  {
    var s' := DoPushCas(s, t, l, false);
    assert LocalInv(s.heap, s.hp, s.guard, t, l);
    PushChain(s.heap, l.node, s.chain);
    NodeChange(s.heap, l.node, s.heap[l.node].(owner := InStack), t);
    GuardAfter(s.heap, s'.heap, s.guard, t);
    LocalsAfter(s, s', t);
  }

  lemma PushRelinkInv(s: Stack, t: Thread, l: Local)
    requires Inv(s) && t in s.local && s.local[t] == l && l.PushRelink?
    ensures Inv(DoPushRelink(s, t, l)) && Contents(DoPushRelink(s, t, l)) == Contents(s)
  {
    var s' := DoPushRelink(s, t, l);
    assert LocalInv(s.heap, s.hp, s.guard, t, l);
    NodeChange(s.heap, l.node, s.heap[l.node].(next := l.seen), t);
    ChainAfter(s, s');
    GuardAfter(s.heap, s'.heap, s.guard, t);
    LocalsAfter(s, s', t);
  }

  lemma PopStoreInv(s: Stack, t: Thread, x: Addr)
    requires Inv(s) && t in s.local && s.local[t] == PopStore(x)
    ensures var s' := At(s, t, PopCheck(x)).(hp := StoreHazard(s.hp, t, x));
            Inv(s') && Contents(s') == Contents(s)
  {
    var s' := At(s, t, PopCheck(x)).(hp := StoreHazard(s.hp, t, x));
    assert LocalInv(s.heap, s.hp, s.guard, t, s.local[t]);
    StoreHazardInv(s.hp, s.guard, Retired(s.heap), t, x);
    LocalsAfter(s, s', t);
  }

  /** Acquire returns the top node, which is in the stack and so not retired. */
  lemma PopAcquireInv(s: Stack, t: Thread, l: Local)
    requires Inv(s) && t in s.local && s.local[t] == l && l.PopCheck? && s.head == l.x && l.x != NULL
    ensures Inv(DoPopCheck(s, t, l)) && Contents(DoPopCheck(s, t, l)) == Contents(s)
  {
    var s' := DoPopCheck(s, t, l);
    assert LocalInv(s.heap, s.hp, s.guard, t, l);
    assert s.chain != [] && s.chain[0] == l.x;
    assert HasOwner(s.heap, l.x, InStack);
    ValidateInv(s.hp, s.guard, Retired(s.heap), t, l.x);
    LocalsAfter(s, s', t);
  }

  lemma PopChain(heap: Heap, x: Addr, chain: seq<Addr>, t: Thread)
    requires x != NULL && Linked(heap, x, chain) && NoDuplicates(chain) && OwnsExactly(heap, InStack, chain)
    ensures var heap' := Owned(heap, x, Popped(t));
            && chain != [] && x in heap
            && Linked(heap', heap[x].next, chain[1..]) && NoDuplicates(chain[1..])
            && OwnsExactly(heap', InStack, chain[1..])
            && Values(heap, chain) == [heap[x].value] + Values(heap', chain[1..])
  {
    var heap' := Owned(heap, x, Popped(t));
    assert chain == [x] + chain[1..];
    assert x !in chain[1..];
    LinkedFrame(heap, heap', heap[x].next, chain[1..]);
    ValuesFrame(heap, heap', chain[1..]);
  }

  /** A successful Pop CAS takes the top value off, whatever happened to the address meanwhile. */
  lemma PopCasInv(s: Stack, t: Thread, l: Local)
    requires Inv(s) && t in s.local && s.local[t] == l && l.PopCas? && s.head == l.x
    ensures var s' := DoPopCas(s, t, l, false);
            && Inv(s') && s'.local[t].PopValue? && Contents(s) == [s'.local[t].top] + Contents(s')
  {
    var s' := DoPopCas(s, t, l, false);
    assert LocalInv(s.heap, s.hp, s.guard, t, l);
    assert l.x != NULL;
    PopChain(s.heap, l.x, s.chain, t);
    assert HasOwner(s.heap, l.x, InStack);
    NodeChange(s.heap, l.x, s.heap[l.x].(owner := Popped(t)), t);
    GuardAfter(s.heap, s'.heap, s.guard, t);
    LocalsAfter(s, s', t);
  }

  lemma DropGuard(h: Hp, guard: map<Thread, Addr>, retired: set<Addr>, t: Thread)
    requires HpInv(h, guard, retired)
    ensures HpInv(h, guard - {t}, retired)
  {
  }

  lemma PopRetryInv(s: Stack, t: Thread, l: Local)
    requires Inv(s) && t in s.local && s.local[t] == l && l.PopCas?
    ensures var s' := At(s, t, PopLoad).(guard := s.guard - {t}); Inv(s') && Contents(s') == Contents(s)
  {
    DropGuard(s.hp, s.guard, Retired(s.heap), t);
    LocalsAfter(s, At(s, t, PopLoad).(guard := s.guard - {t}), t);
  }

  /** The value read is the one that was on top at the CAS. */
  lemma PopValueInv(s: Stack, t: Thread, l: Local, junk: int)
    requires Inv(s) && t in s.local && s.local[t] == l && l.PopValue?
    ensures var s' := DoPopValue(s, t, l, junk);
            Inv(s') && Contents(s') == Contents(s) && s'.local[t] == PopRelease(l.x, l.top)
  {
    var s' := DoPopValue(s, t, l, junk);
    assert LocalInv(s.heap, s.hp, s.guard, t, l);
    NodeChange(s.heap, l.x, s.heap[l.x].(value := junk), t);
    ChainAfter(s, s');
    GuardAfter(s.heap, s'.heap, s.guard, t);
    LocalsAfter(s, s', t);
  }

  lemma PopReleaseInv(s: Stack, t: Thread, l: Local)
    requires Inv(s) && t in s.local && s.local[t] == l && l.PopRelease?
    ensures Inv(DoPopRelease(s, t, l)) && Contents(DoPopRelease(s, t, l)) == Contents(s)
  {
    var s' := DoPopRelease(s, t, l);
    assert LocalInv(s.heap, s.hp, s.guard, t, l);
    ReleaseInv(s.hp, s.guard, Retired(s.heap), t);
    LocalsAfter(s, s', t);
  }

  /** Retiring a node the thread owns; the thread's next state must not depend on it. */
  lemma RetireInv(s: Stack, t: Thread, a: Addr, l: Local)
    requires Inv(s) && t in s.local && t !in s.guard && a in s.heap
    requires s.heap[a].owner == Popped(t) || s.heap[a].owner == Cleared(t)
    requires LocalInv(Owned(s.heap, a, Retiring), s.hp, s.guard, t, l) && !l.PopCheck?
    ensures Inv(DoRetire(s, t, a, l)) && Contents(DoRetire(s, t, a, l)) == Contents(s)
  {
    var s' := DoRetire(s, t, a, l);
    assert ChainFrame(s.heap, s'.heap);
    ChainAfter(s, s');
    LocalsAfter(s, s', t);
    PushRetiredInv(s.hp, s.guard, Retired(s.heap), a);
    assert Retired(s'.heap) == Retired(s.heap) + {a};
  }

  lemma ClearWalkLocal(heap: Heap, cur: Addr, rest: seq<Addr>, t: Thread)
    requires Linked(heap, cur, rest) && NoDuplicates(rest) && OwnsAll(heap, Cleared(t), rest) && cur != NULL
    ensures rest != [] && cur in heap && HasOwner(heap, cur, Cleared(t)) && cur !in rest[1..]
    ensures Linked(heap, heap[cur].next, rest[1..]) && NoDuplicates(rest[1..]) && OwnsAll(heap, Cleared(t), rest[1..])
  {
    assert rest[0] in rest;
    assert rest == [rest[0]] + rest[1..];
  }

  lemma ClearWalkInv(s: Stack, t: Thread, l: Local)
    requires Inv(s) && t in s.local && s.local[t] == l && l.ClearWalk?
    ensures Inv(DoClearWalk(s, t, l)) && Contents(DoClearWalk(s, t, l)) == Contents(s)
  {
    assert LocalInv(s.heap, s.hp, s.guard, t, l);
    if l.cur == NULL {
      SimpleInv(s, t, Idle);
    } else {
      ClearWalkLocal(s.heap, l.cur, l.rest, t);
      SimpleInv(s, t, ClearRetire(l.cur, s.heap[l.cur].next, l.rest[1..]));
    }
  }

  lemma ClearRetireInv(s: Stack, t: Thread, l: Local)
    requires Inv(s) && t in s.local && s.local[t] == l && l.ClearRetire?
    ensures var s' := DoRetire(s, t, l.node, ClearWalk(l.cur, l.rest)); Inv(s') && Contents(s') == Contents(s)
  {
    assert LocalInv(s.heap, s.hp, s.guard, t, l);
    LinkedFrame(s.heap, Owned(s.heap, l.node, Retiring), l.cur, l.rest);
    RetireInv(s, t, l.node, ClearWalk(l.cur, l.rest));
  }

  lemma ClearChain(heap: Heap, head: Addr, chain: seq<Addr>, t: Thread)
    requires Linked(heap, head, chain) && OwnsExactly(heap, InStack, chain)
    ensures var heap' := OwnedAll(heap, chain, Cleared(t));
            && Linked(heap', head, chain) && OwnsAll(heap', Cleared(t), chain)
            && OwnsExactly(heap', InStack, []) && HeapFrame(heap, heap', t) && Retired(heap') == Retired(heap)
  {
    LinkedFrame(heap, OwnedAll(heap, chain, Cleared(t)), head, chain);
  }

  /** A successful Clear CAS empties the stack at once. */
  lemma ClearCasInv(s: Stack, t: Thread, l: Local)
    requires Inv(s) && t in s.local && s.local[t] == l && l.ClearCas? && s.head == l.seen
    ensures Inv(DoClearCas(s, t, l, false)) && Contents(DoClearCas(s, t, l, false)) == []
  {
    var s' := DoClearCas(s, t, l, false);
    assert LocalInv(s.heap, s.hp, s.guard, t, l);
    ClearChain(s.heap, s.head, s.chain, t);
    LocalsAfter(s, s', t);
  }

  /** Removing retired nodes that nobody guards leaves every thread's variables meaningful. */
  lemma ScanLocals(s: Stack, d: set<Addr>, hp': Hp)
    requires LocalsInv(s) && GuardInv(s) && d <= Retired(s.heap)
    requires hp'.registered == s.hp.registered && hp'.hazard == s.hp.hazard
    requires forall t :: t in s.guard ==> s.guard[t] !in d
    ensures LocalsInv(s.(heap := s.heap - d, hp := hp'))
  {
    forall u | u in s.local ensures LocalInv(s.heap - d, hp', s.guard, u, s.local[u]) {
      Removal(s.heap, d, u + 1);
      OtherThread(s.heap, s.heap - d, s.hp, hp', s.guard, s.guard, u + 1, u, s.local[u]);
    }
  }

  /** A scan deletes only retired nodes that nobody guards. */
  lemma ScanByInv(s: Stack, x: ScanStep)
    requires Inv(s) && CanScan(s.hp, x)
    ensures Inv(DoScan(s, x)) && Contents(DoScan(s, x)) == Contents(s)
  {
    var s', d := DoScan(s, x), Deleted(s.hp, x);
    ScanInv(s.hp, s.guard, Retired(s.heap), x);
    Removal(s.heap, d, 0);
    ChainAfter(s, s');
    GuardAfter(s.heap, s'.heap, s.guard, 0);
    ScanLocals(s, d, s'.hp);
  }

  lemma JoinInv(s: Stack, t: Thread)
    requires Inv(s) && Enabled(s, Join(t))
    ensures Inv(Next(s, Join(t))) && Contents(Next(s, Join(t))) == Contents(s)
  {
    var s' := Next(s, Join(t));
    RegisterInv(s.hp, s.guard, Retired(s.heap), t);
    forall u | u in s'.local ensures LocalInv(s'.heap, s'.hp, s'.guard, u, s'.local[u]) {
      if u != t {
        OtherThread(s.heap, s'.heap, s.hp, s'.hp, s.guard, s'.guard, t, u, s.local[u]);
      }
    }
  }

  lemma LeaveInv(s: Stack, t: Thread)
    requires Inv(s) && Enabled(s, Leave(t))
    ensures Inv(Next(s, Leave(t))) && Contents(Next(s, Leave(t))) == Contents(s)
  {
    var s' := Next(s, Leave(t));
    assert LocalInv(s.heap, s.hp, s.guard, t, s.local[t]);
    UnregisterInv(s.hp, s.guard, Retired(s.heap), t);
    forall u | u in s'.local ensures LocalInv(s'.heap, s'.hp, s'.guard, u, s'.local[u]) {
      OtherThread(s.heap, s'.heap, s.hp, s'.hp, s.guard, s'.guard, t, u, s.local[u]);
    }
  }

  // ---------------------------------------------------------------------------
  // Every run
  // ---------------------------------------------------------------------------

  /** What a step does to the abstract stack: only successful CAS steps change it. */
  ghost predicate Refines(s: Stack, step: Step, s': Stack) {
    if !step.Run? || step.t !in s.local || step.t !in s'.local then Contents(s') == Contents(s)
    else
      var l, l' := s.local[step.t], s'.local[step.t];
      if l.PushCas? && l'.Idle? then Contents(s') == [l.v] + Contents(s)
      else if l.PopCas? && l'.PopValue? then Contents(s) == [l'.top] + Contents(s')
      else if l.ClearCas? && l'.ClearWalk? then Contents(s') == []
      else Contents(s') == Contents(s)
  }

  /** What a finished Pop reports: the value its CAS took off, or failure when the stack was empty. */
  ghost predicate Reports(s: Stack, step: Step, s': Stack) {
    step.Run? && step.t in s.local && step.t in s'.local ==>
      var l, l' := s.local[step.t], s'.local[step.t];
      && (l.PopValue? ==> l' == PopRelease(l.x, l.top))
      && (l.PopRelease? ==> l' == PopRetire(l.x, l.result))
      && (l.PopCheck? && l'.Idle? ==> Contents(s) == [])
  }

  lemma PushStep(s: Stack, t: Thread, c: Choice)
    requires Inv(s) && CanGo(s, t, c)
    requires var l := s.local[t]; l.PushLoad? || l.PushNew? || l.PushCas? || l.PushRelink?
    ensures Inv(Go(s, t, c)) && Refines(s, Run(t, c), Go(s, t, c))
  {
    var l := s.local[t];
    assert LocalInv(s.heap, s.hp, s.guard, t, l);
    match l {
      case PushLoad(v) => SimpleInv(s, t, PushNew(v, s.head));
      case PushNew(_, _) => PushNewInv(s, t, c);
      case PushCas(v, _, n) =>
        if s.head == l.seen && !c.weakFails { PushCasInv(s, t, l); } else { SimpleInv(s, t, PushRelink(v, s.head, n)); }
      case PushRelink(_, _, _) => PushRelinkInv(s, t, l);
    }
  }

  lemma PopTakeStep(s: Stack, t: Thread, c: Choice)
    requires Inv(s) && CanGo(s, t, c)
    requires var l := s.local[t]; l.PopLoad? || l.PopStore? || l.PopCheck? || l.PopNext? || l.PopCas?
    ensures Inv(Go(s, t, c)) && Refines(s, Run(t, c), Go(s, t, c)) && Reports(s, Run(t, c), Go(s, t, c))
  {
    var l := s.local[t];
    assert LocalInv(s.heap, s.hp, s.guard, t, l);
    match l {
      case PopLoad => SimpleInv(s, t, PopStore(s.head));
      case PopStore(x) => PopStoreInv(s, t, x);
      case PopCheck(x) => PopCheckStep(s, t, l);
      case PopNext(x) => SimpleInv(s, t, PopCas(x, s.heap[x].next));
      case PopCas(_, _) =>
        if s.head == l.x && !c.weakFails { PopCasInv(s, t, l); } else { PopRetryInv(s, t, l); }
    }
  }

  lemma PopFinishStep(s: Stack, t: Thread, c: Choice)
    requires Inv(s) && CanGo(s, t, c)
    requires var l := s.local[t]; l.PopValue? || l.PopRelease? || l.PopRetire?
    ensures Inv(Go(s, t, c)) && Refines(s, Run(t, c), Go(s, t, c)) && Reports(s, Run(t, c), Go(s, t, c))
  {
    var l := s.local[t];
    assert LocalInv(s.heap, s.hp, s.guard, t, l);
    match l {
      case PopValue(_, _) => PopValueInv(s, t, l, c.junk);
      case PopRelease(_, _) => PopReleaseInv(s, t, l);
      case PopRetire(x, _) => RetireInv(s, t, x, Idle);
    }
  }

  lemma ClearStep(s: Stack, t: Thread, c: Choice)
    requires Inv(s) && CanGo(s, t, c)
    requires var l := s.local[t]; l.ClearLoad? || l.ClearCas? || l.ClearWalk? || l.ClearRetire?
    ensures Inv(Go(s, t, c)) && Refines(s, Run(t, c), Go(s, t, c))
  {
    var l := s.local[t];
    assert LocalInv(s.heap, s.hp, s.guard, t, l);
    match l {
      case ClearLoad => SimpleInv(s, t, ClearCas(s.head));
      case ClearCas(_) =>
        if s.head == l.seen && !c.weakFails { ClearCasInv(s, t, l); } else { SimpleInv(s, t, ClearLoad); }
      case ClearWalk(_, _) => ClearWalkInv(s, t, l);
      case ClearRetire(_, _, _) => ClearRetireInv(s, t, l);
    }
  }

  lemma RunStep(s: Stack, t: Thread, c: Choice)
    requires Inv(s) && CanGo(s, t, c)
    ensures Inv(Go(s, t, c)) && Refines(s, Run(t, c), Go(s, t, c)) && Reports(s, Run(t, c), Go(s, t, c))
  {
    var l := s.local[t];
    if l.PushLoad? || l.PushNew? || l.PushCas? || l.PushRelink? {
      PushStep(s, t, c);
    } else if l.ClearLoad? || l.ClearCas? || l.ClearWalk? || l.ClearRetire? {
      ClearStep(s, t, c);
    } else if l.PopValue? || l.PopRelease? || l.PopRetire? {
      PopFinishStep(s, t, c);
    } else {
      PopTakeStep(s, t, c);
    }
  }

  lemma PopCheckStep(s: Stack, t: Thread, l: Local)
    requires Inv(s) && t in s.local && s.local[t] == l && l.PopCheck?
    ensures var s' := DoPopCheck(s, t, l);
            Inv(s') && Contents(s') == Contents(s) && (s'.local[t].Idle? ==> Contents(s) == [])
  {
    assert LocalInv(s.heap, s.hp, s.guard, t, l);
    if s.head != l.x {
      SimpleInv(s, t, PopStore(s.head));
    } else if l.x == NULL {
      SimpleInv(s, t, Idle);
      assert s.chain == [];
    } else {
      PopAcquireInv(s, t, l);
    }
  }

  lemma StepInv(s: Stack, step: Step)
    requires Inv(s) && Enabled(s, step)
    ensures Inv(Next(s, step)) && Refines(s, step, Next(s, step)) && Reports(s, step, Next(s, step))
  {
    match step {
      case Join(t) => JoinInv(s, t);
      case Leave(t) => LeaveInv(s, t);
      case CallPush(t, v) =>
        assert LocalInv(s.heap, s.hp, s.guard, t, s.local[t]);
        SimpleInv(s, t, PushLoad(v));
      case CallPop(t) =>
        assert LocalInv(s.heap, s.hp, s.guard, t, s.local[t]);
        SimpleInv(s, t, PopLoad);
      case CallClear(t) =>
        assert LocalInv(s.heap, s.hp, s.guard, t, s.local[t]);
        SimpleInv(s, t, ClearLoad);
      case Run(t, c) => RunStep(s, t, c);
      case ScanBy(x) => ScanByInv(s, x);
    }
  }

  ghost predicate Trace(s: Stack, steps: seq<Step>, s': Stack)
    decreases |steps|
  {
    if steps == [] then s == s' else Enabled(s, steps[0]) && Trace(Next(s, steps[0]), steps[1..], s')
  }

  lemma {:induction false} TraceInv(s: Stack, steps: seq<Step>, s': Stack)
    requires Inv(s) && Trace(s, steps, s')
    ensures Inv(s')
    decreases |steps|
  {
    if steps != [] {
      StepInv(s, steps[0]);
      TraceInv(Next(s, steps[0]), steps[1..], s');
    }
  }

  /**
    In every interleaving no thread touches a freed node, every successful CAS acts on one
    abstract stack, and every Pop reports what that stack held.
  */
  lemma StackSafe(steps: seq<Step>, s: Stack, step: Step)
    requires Trace(START_STACK, steps, s) && Enabled(s, step)
    ensures !s.fault && !Next(s, step).fault
    ensures Refines(s, step, Next(s, step)) && Reports(s, step, Next(s, step))
  {
    StartStackInv();
    TraceInv(START_STACK, steps, s);
    StepInv(s, step);
  }

  // ---------------------------------------------------------------------------
  // The history of effects
  // ---------------------------------------------------------------------------

  datatype Event = PushEvent(v: int) | PopEvent(v: int) | EmptyEvent | ClearEvent

  /** The operation that takes effect at a step, if any. */
  ghost function Emits(s: Stack, step: Step, s': Stack): seq<Event> {
    if !step.Run? || step.t !in s.local || step.t !in s'.local then []
    else
      var l, l' := s.local[step.t], s'.local[step.t];
      if l.PushCas? && l'.Idle? then [PushEvent(l.v)]
      else if l.PopCas? && l'.PopValue? then [PopEvent(l'.top)]
      else if l.ClearCas? && l'.ClearWalk? then [ClearEvent]
      else if l.PopCheck? && l'.Idle? then [EmptyEvent]
      else []
  }

  ghost function History(s: Stack, steps: seq<Step>): seq<Event>
    decreases |steps|
  {
    if steps == [] || !Enabled(s, steps[0]) then []
    else Emits(s, steps[0], Next(s, steps[0])) + History(Next(s, steps[0]), steps[1..])
  }

  /** The events, one after another on a plain stack, lead from c to c'. */
  predicate Legal(c: seq<int>, log: seq<Event>, c': seq<int>)
    decreases |log|
  {
    if log == [] then c == c'
    else
      match log[0]
      case PushEvent(v) => Legal([v] + c, log[1..], c')
      case PopEvent(v) => c != [] && c[0] == v && Legal(c[1..], log[1..], c')
      case EmptyEvent => c == [] && Legal(c, log[1..], c')
      case ClearEvent => Legal([], log[1..], c')
  }

  lemma OneLegal(s: Stack, step: Step, s': Stack, rest: seq<Event>, c': seq<int>)
    requires Refines(s, step, s') && Reports(s, step, s') && Legal(Contents(s'), rest, c')
    ensures Legal(Contents(s), Emits(s, step, s') + rest, c')
  {
    var log := Emits(s, step, s') + rest;
    if Emits(s, step, s') != [] {
      assert log[1..] == rest;
    } else {
      assert log == rest;
    }
    if Emits(s, step, s') != [] && log[0].PopEvent? {
      assert Contents(s)[1..] == Contents(s');
    }
  }

  lemma {:induction false} HistoryLegal(s: Stack, steps: seq<Step>, s': Stack)
    requires Inv(s) && Trace(s, steps, s')
    ensures Inv(s') && Legal(Contents(s), History(s, steps), Contents(s'))
    decreases |steps|
  {
    if steps != [] {
      var s1 := Next(s, steps[0]);
      StepInv(s, steps[0]);
      HistoryLegal(s1, steps[1..], s');
      OneLegal(s, steps[0], s1, History(s1, steps[1..]), Contents(s'));
    }
  }

  /** In every interleaving the effects form a legal history of one stack that started empty. */
  lemma StackLinearizable(steps: seq<Step>, s: Stack)
    requires Trace(START_STACK, steps, s)
    ensures Legal([], History(START_STACK, steps), Contents(s)) && !s.fault
  {
    StartStackInv();
    HistoryLegal(START_STACK, steps, s);
  }

  // ---------------------------------------------------------------------------
  // One call
  // ---------------------------------------------------------------------------

  /** The event that the operation in progress has had. */
  function Effect(l: Local): seq<Event> {
    match l
    case PopValue(_, top) => [PopEvent(top)]
    case PopRelease(_, result) => [PopEvent(result)]
    case PopRetire(_, result) => [PopEvent(result)]
    case ClearWalk(_, _) => [ClearEvent]
    case ClearRetire(_, _, _) => [ClearEvent]
    case _ => []
  }

  /** What a call that returns at the next step of its thread has done, with the value it returns. */
  function Outcome(l: Local): Event {
    match l
    case PushCas(v, _, _) => PushEvent(v)
    case PopRetire(_, result) => PopEvent(result)
    case ClearWalk(_, _) => ClearEvent
    case _ => EmptyEvent
  }

  predicate Performs(l: Local, call: Step) {
    match call
    case CallPush(_, v) => (l.PushLoad? || l.PushNew? || l.PushCas? || l.PushRelink?) && l.v == v
    case CallPop(_) =>
      l.PopLoad? || l.PopStore? || l.PopCheck? || l.PopNext? || l.PopCas? || l.PopValue? || l.PopRelease? || l.PopRetire?
    case CallClear(_) => l.ClearLoad? || l.ClearCas? || l.ClearWalk? || l.ClearRetire?
    case _ => false
  }

  predicate Answers(e: Event, call: Step) {
    match call
    case CallPush(_, v) => e == PushEvent(v)
    case CallPop(_) => e.PopEvent? || e.EmptyEvent?
    case CallClear(_) => e.ClearEvent?
    case _ => false
  }

  predicate Mine(step: Step, t: Thread) {
    !step.ScanBy? && step.t == t
  }

  /** Between the steps of thread t's operation the others do what they like. */
  predicate SameCall(steps: seq<Step>, t: Thread) {
    forall i :: 0 <= i < |steps| && Mine(steps[i], t) ==> steps[i].Run?
  }

  ghost function EmitsFor(s: Stack, step: Step, t: Thread): seq<Event>
    requires Enabled(s, step)
  {
    if Mine(step, t) then Emits(s, step, Next(s, step)) else []
  }

  /** The events of thread t. */
  ghost function EventsOf(s: Stack, steps: seq<Step>, t: Thread): seq<Event>
    decreases |steps|
  {
    if steps == [] || !Enabled(s, steps[0]) then []
    else EmitsFor(s, steps[0], t) + EventsOf(Next(s, steps[0]), steps[1..], t)
  }

  predicate OnlyMoves(s: Stack, t: Thread, s': Stack) {
    t in s'.local && s'.local == s.local[t := s'.local[t]]
  }

  lemma OnlyPush(s: Stack, t: Thread, c: Choice, s': Stack)
    requires CanGo(s, t, c) && s' == Go(s, t, c)
    requires var l := s.local[t]; l.PushLoad? || l.PushNew? || l.PushCas? || l.PushRelink?
    ensures OnlyMoves(s, t, s')
  {
  }

  lemma OnlyClear(s: Stack, t: Thread, c: Choice, s': Stack)
    requires CanGo(s, t, c) && s' == Go(s, t, c)
    requires var l := s.local[t]; l.ClearLoad? || l.ClearCas? || l.ClearWalk? || l.ClearRetire?
    ensures OnlyMoves(s, t, s')
  {
  }

  lemma OnlyPopTake(s: Stack, t: Thread, c: Choice, s': Stack)
    requires CanGo(s, t, c) && s' == Go(s, t, c)
    requires var l := s.local[t]; l.PopLoad? || l.PopStore? || l.PopCheck? || l.PopNext? || l.PopCas?
    ensures OnlyMoves(s, t, s')
  {
  }

  lemma OnlyPopFinish(s: Stack, t: Thread, c: Choice, s': Stack)
    requires CanGo(s, t, c) && s' == Go(s, t, c)
    requires var l := s.local[t]; l.PopValue? || l.PopRelease? || l.PopRetire?
    ensures OnlyMoves(s, t, s')
  {
  }

  lemma OnlyOwn(s: Stack, t: Thread, c: Choice, s': Stack)
    requires CanGo(s, t, c) && s' == Go(s, t, c)
    ensures OnlyMoves(s, t, s')
  {
    var l := s.local[t];
    if l.PushLoad? || l.PushNew? || l.PushCas? || l.PushRelink? {
      OnlyPush(s, t, c, s');
    } else if l.ClearLoad? || l.ClearCas? || l.ClearWalk? || l.ClearRetire? {
      OnlyClear(s, t, c, s');
    } else if l.PopValue? || l.PopRelease? || l.PopRetire? {
      OnlyPopFinish(s, t, c, s');
    } else {
      OnlyPopTake(s, t, c, s');
    }
  }

  lemma OthersKeep(s: Stack, step: Step, t: Thread, s': Stack)
    requires Enabled(s, step) && !Mine(step, t) && t in s.local && s' == Next(s, step)
    ensures t in s'.local && s'.local[t] == s.local[t]
  {
    if step.Run? {
      OnlyOwn(s, step.t, step.c, s');
    }
  }

  /** The event a step emits is the one its operation then has had. */
  predicate Accounts(l: Local, e: seq<Event>, l': Local, call: Step) {
    if l'.Idle? then Effect(l) + e == [Outcome(l)] && Answers(Outcome(l), call)
    else Effect(l') == Effect(l) + e && Performs(l', call)
  }

  lemma OwnPush(s: Stack, t: Thread, c: Choice, call: Step, s': Stack)
    requires CanGo(s, t, c) && Performs(s.local[t], call) && call.CallPush? && s' == Go(s, t, c)
    ensures t in s'.local && Accounts(s.local[t], Emits(s, Run(t, c), s'), s'.local[t], call)
  {
  }

  lemma OwnClear(s: Stack, t: Thread, c: Choice, call: Step, s': Stack)
    requires CanGo(s, t, c) && Performs(s.local[t], call) && call.CallClear? && s' == Go(s, t, c)
    ensures t in s'.local && Accounts(s.local[t], Emits(s, Run(t, c), s'), s'.local[t], call)
  {
  }

  /** The value moved out later is the one on top at the CAS. */
  lemma OwnPopFinish(s: Stack, t: Thread, c: Choice, call: Step, s': Stack)
    requires CanGo(s, t, c) && call.CallPop? && s' == Go(s, t, c) && LocalInv(s.heap, s.hp, s.guard, t, s.local[t])
    requires var l := s.local[t]; l.PopValue? || l.PopRelease? || l.PopRetire?
    ensures t in s'.local && Accounts(s.local[t], Emits(s, Run(t, c), s'), s'.local[t], call)
  {
  }

  lemma OwnPopTake(s: Stack, t: Thread, c: Choice, call: Step, s': Stack)
    requires CanGo(s, t, c) && call.CallPop? && s' == Go(s, t, c)
    requires var l := s.local[t]; l.PopLoad? || l.PopStore? || l.PopCheck? || l.PopNext? || l.PopCas?
    ensures t in s'.local && Accounts(s.local[t], Emits(s, Run(t, c), s'), s'.local[t], call)
  {
  }

  lemma OwnStep(s: Stack, t: Thread, c: Choice, call: Step, s': Stack)
    requires Inv(s) && CanGo(s, t, c) && Performs(s.local[t], call) && s' == Go(s, t, c)
    ensures t in s'.local && Accounts(s.local[t], Emits(s, Run(t, c), s'), s'.local[t], call)
  {
    var l := s.local[t];
    if call.CallPush? {
      OwnPush(s, t, c, call, s');
    } else if call.CallClear? {
      OwnClear(s, t, c, call, s');
    } else if l.PopValue? || l.PopRelease? || l.PopRetire? {
      assert LocalInv(s.heap, s.hp, s.guard, t, l);
      OwnPopFinish(s, t, c, call, s');
    } else {
      OwnPopTake(s, t, c, call, s');
    }
  }

  /** A step of anyone, seen from the call of thread t. */
  lemma AnyStep(s: Stack, step: Step, t: Thread, call: Step, s': Stack)
    requires Inv(s) && Enabled(s, step) && t in s.local && Performs(s.local[t], call) && s' == Next(s, step)
    requires Mine(step, t) ==> step.Run?
    ensures t in s'.local && Accounts(s.local[t], EmitsFor(s, step, t), s'.local[t], call)
  {
    if Mine(step, t) {
      OwnStep(s, t, step.c, call, s');
    } else {
      OthersKeep(s, step, t, s');
    }
  }

  lemma {:induction false} IdleStays(s: Stack, steps: seq<Step>, t: Thread, s': Stack)
    requires Trace(s, steps, s') && SameCall(steps, t) && t in s.local && s.local[t].Idle?
    ensures t in s'.local && s'.local[t].Idle?
    decreases |steps|
  {
    if steps != [] {
      OthersKeep(s, steps[0], t, Next(s, steps[0]));
      IdleStays(Next(s, steps[0]), steps[1..], t, s');
    }
  }

  lemma Stitch(l: Local, e: seq<Event>, l1: Local, rest: seq<Event>, l': Local, call: Step)
    requires Accounts(l, e, l1, call) && !l1.Idle? && Effect(l') == Effect(l1) + rest
    ensures Effect(l') == Effect(l) + (e + rest)
  {
  }

  lemma StepKeeps(s: Stack, step: Step, s': Stack)
    requires Inv(s) && Enabled(s, step) && s' == Next(s, step)
    ensures Inv(s')
  {
    StepInv(s, step);
  }

  /** The first step of a run, seen from the call of thread t. */
  lemma FirstStep(s: Stack, steps: seq<Step>, t: Thread, call: Step, s': Stack) returns (s1: Stack, e: seq<Event>)
    requires Inv(s) && Trace(s, steps, s') && steps != [] && SameCall(steps, t) && t in s.local && Performs(s.local[t], call)
    ensures Inv(s1) && Trace(s1, steps[1..], s') && SameCall(steps[1..], t)
    ensures t in s1.local && Accounts(s.local[t], e, s1.local[t], call)
    ensures EventsOf(s, steps, t) == e + EventsOf(s1, steps[1..], t)
  {
    s1, e := Next(s, steps[0]), EmitsFor(s, steps[0], t);
    StepKeeps(s, steps[0], s1);
    AnyStep(s, steps[0], t, call, s1);
  }

  /** While a call is under way its thread's events are those the operation has had. */
  lemma {:induction false} EffectOfRun(s: Stack, steps: seq<Step>, t: Thread, call: Step, s': Stack)
    requires Inv(s) && Trace(s, steps, s') && SameCall(steps, t) && t in s.local && Performs(s.local[t], call)
    requires t in s'.local && !s'.local[t].Idle?
    ensures Inv(s') && Performs(s'.local[t], call) && Effect(s'.local[t]) == Effect(s.local[t]) + EventsOf(s, steps, t)
    decreases |steps|
  {
    if steps != [] {
      var s1, e := FirstStep(s, steps, t, call, s');
      if s1.local[t].Idle? {
        IdleStays(s1, steps[1..], t, s');
      }
      EffectOfRun(s1, steps[1..], t, call, s');
      Stitch(s.local[t], e, s1.local[t], EventsOf(s1, steps[1..], t), s'.local[t], call);
    }
  }

  predicate Call(step: Step) {
    step.CallPush? || step.CallPop? || step.CallClear?
  }

  lemma CallStarts(s: Stack, call: Step, s1: Stack)
    requires Inv(s) && Call(call) && Enabled(s, call) && s1 == Next(s, call)
    ensures Inv(s1) && call.t in s1.local && Performs(s1.local[call.t], call) && Effect(s1.local[call.t]) == []
  {
    StepInv(s, call);
  }

  lemma CallReturns(s: Stack, call: Step, steps: seq<Step>, m: Stack, c: Choice, s': Stack)
    requires Inv(s) && Call(call) && call.t in s.local && Performs(s.local[call.t], call) && Effect(s.local[call.t]) == []
    requires Trace(s, steps, m) && SameCall(steps, call.t) && CanGo(m, call.t, c) && s' == Go(m, call.t, c)
    requires call.t in s'.local && s'.local[call.t].Idle?
    ensures EventsOf(s, steps, call.t) + Emits(m, Run(call.t, c), s') == [Outcome(m.local[call.t])]
    ensures Answers(Outcome(m.local[call.t]), call)
  {
    EffectOfRun(s, steps, call.t, call, m);
    OwnStep(m, call.t, c, call, s');
  }

  /**
    In every interleaving a Push, Pop or Clear that returns took effect exactly once since it
    was called, as the event that its value tells: at the step it returns with or before.
  */
  lemma CallTakesEffectOnce(earlier: seq<Step>, s: Stack, call: Step, s1: Stack, steps: seq<Step>, m: Stack, c: Choice, s': Stack)
    requires Trace(START_STACK, earlier, s) && Call(call) && Enabled(s, call) && s1 == Next(s, call)
    requires Trace(s1, steps, m) && SameCall(steps, call.t) && CanGo(m, call.t, c) && s' == Go(m, call.t, c)
    requires call.t in s'.local && s'.local[call.t].Idle?
    ensures EventsOf(s1, steps, call.t) + Emits(m, Run(call.t, c), s') == [Outcome(m.local[call.t])]
    ensures Answers(Outcome(m.local[call.t]), call)
  {
    StartStackInv();
    TraceInv(START_STACK, earlier, s);
    CallStarts(s, call, s1);
    CallReturns(s1, call, steps, m, c, s');
  }

  // ---------------------------------------------------------------------------
  // A thread that runs alone finishes
  // ---------------------------------------------------------------------------

  /** How many steps a thread is from its return when nobody interferes and no CAS fails spuriously. */
  function StepsLeft(s: Stack, l: Local): nat {
    match l
    case Idle => 0
    case PushLoad(_) => 5
    case PushNew(_, seen) => if seen == s.head then 2 else 4
    case PushCas(_, seen, _) => if seen == s.head then 1 else 3
    case PushRelink(_, seen, _) => if seen == s.head then 2 else 4
    case PopLoad => 8
    case PopStore(x) => if x == s.head then 7 else 9
    case PopCheck(x) => if x == s.head then 6 else 8
    case PopNext(x) => if x == s.head then 5 else 10
    case PopCas(x, _) => if x == s.head then 4 else 9
    case PopValue(_, _) => 3
    case PopRelease(_, _) => 2
    case PopRetire(_, _) => 1
    case ClearLoad => 2 * |s.chain| + 3
    case ClearCas(seen) => 2 * |s.chain| + (if seen == s.head then 2 else 4)
    case ClearWalk(_, rest) => 2 * |rest| + 1
    case ClearRetire(_, _, rest) => 2 * |rest| + 2
  }

  lemma PushProgress(s: Stack, t: Thread, c: Choice, s': Stack)
    requires CanGo(s, t, c) && LocalInv(s.heap, s.hp, s.guard, t, s.local[t]) && !c.weakFails && s' == Go(s, t, c)
    requires var l := s.local[t]; l.PushLoad? || l.PushNew? || l.PushCas? || l.PushRelink?
    ensures t in s'.local && StepsLeft(s', s'.local[t]) < StepsLeft(s, s.local[t])
  {
  }

  lemma PopTakeProgress(s: Stack, t: Thread, c: Choice, s': Stack)
    requires CanGo(s, t, c) && LocalInv(s.heap, s.hp, s.guard, t, s.local[t]) && !c.weakFails && s' == Go(s, t, c)
    requires var l := s.local[t]; l.PopLoad? || l.PopStore? || l.PopCheck? || l.PopNext? || l.PopCas?
    requires s.local[t].PopNext? ==> s.local[t].x in s.heap
    ensures t in s'.local && StepsLeft(s', s'.local[t]) < StepsLeft(s, s.local[t])
  {
  }

  lemma PopFinishProgress(s: Stack, t: Thread, c: Choice, s': Stack)
    requires CanGo(s, t, c) && LocalInv(s.heap, s.hp, s.guard, t, s.local[t]) && s' == Go(s, t, c)
    requires var l := s.local[t]; l.PopValue? || l.PopRelease? || l.PopRetire?
    ensures t in s'.local && StepsLeft(s', s'.local[t]) < StepsLeft(s, s.local[t])
  {
  }

  lemma ClearProgress(s: Stack, t: Thread, c: Choice, s': Stack)
    requires CanGo(s, t, c) && LocalInv(s.heap, s.hp, s.guard, t, s.local[t]) && !c.weakFails && s' == Go(s, t, c)
    requires var l := s.local[t]; l.ClearLoad? || l.ClearCas? || l.ClearWalk? || l.ClearRetire?
    ensures t in s'.local && StepsLeft(s', s'.local[t]) < StepsLeft(s, s.local[t])
  {
  }

  lemma OneProgress(s: Stack, t: Thread, c: Choice, s': Stack)
    requires Inv(s) && CanGo(s, t, c) && !c.weakFails && s' == Go(s, t, c)
    ensures t in s'.local && StepsLeft(s', s'.local[t]) < StepsLeft(s, s.local[t])
  {
    var l := s.local[t];
    assert LocalInv(s.heap, s.hp, s.guard, t, l);
    if l.PopNext? {
      assert s.guard[t] in s.heap;
    }
    if l.PushLoad? || l.PushNew? || l.PushCas? || l.PushRelink? {
      PushProgress(s, t, c, s');
    } else if l.ClearLoad? || l.ClearCas? || l.ClearWalk? || l.ClearRetire? {
      ClearProgress(s, t, c, s');
    } else if l.PopValue? || l.PopRelease? || l.PopRetire? {
      PopFinishProgress(s, t, c, s');
    } else {
      PopTakeProgress(s, t, c, s');
    }
  }

  /** From wherever it stands, however stale what it has read, a thread that runs alone returns. */
  lemma {:induction false} AloneReturns(s: Stack, t: Thread) returns (steps: seq<Step>, s': Stack)
    requires Inv(s) && t in s.local
    ensures Trace(s, steps, s') && t in s'.local && s'.local[t].Idle? && |steps| <= StepsLeft(s, s.local[t])
    ensures forall i :: 0 <= i < |steps| ==> steps[i].Run? && steps[i].t == t
    decreases StepsLeft(s, s.local[t])
  {
    if s.local[t].Idle? {
      steps, s' := [], s;
    } else {
      var a := AddressBeyond(s.heap.Keys);
      var c := Choice(a, 0, false);
      var s1 := Go(s, t, c);
      StepInv(s, Run(t, c));
      OneProgress(s, t, c, s1);
      var rest;
      rest, s' := AloneReturns(s1, t);
      steps := [Run(t, c)] + rest;
      assert steps[1..] == rest;
    }
  }

  /** In every reachable state any call can be completed by its own thread alone. */
  lemma CallCompletes(earlier: seq<Step>, s: Stack, t: Thread) returns (steps: seq<Step>, s': Stack)
    requires Trace(START_STACK, earlier, s) && t in s.local
    ensures Trace(s, steps, s') && t in s'.local && s'.local[t].Idle?
    ensures forall i :: 0 <= i < |steps| ==> steps[i].Run? && steps[i].t == t
  {
    StartStackInv();
    TraceInv(START_STACK, earlier, s);
    steps, s' := AloneReturns(s, t);
  }

  // ---------------------------------------------------------------------------
  // A thread outside Pop protects nothing
  // ---------------------------------------------------------------------------

  /** Inside the part of Pop that uses the hazard variable. */
  predicate Hazardous(l: Local) {
    l.PopLoad? || l.PopStore? || l.PopCheck? || l.Guarding()
  }

  ghost predicate HazardsClear(s: Stack) {
    forall t :: (t in s.local ==> !Hazardous(s.local[t])) ==> HazardOf(s.hp, t) == NULL
  }

  lemma PopHazard(s: Stack, t: Thread, c: Choice, s': Stack)
    requires CanGo(s, t, c) && Hazardous(s.local[t]) && LocalInv(s.heap, s.hp, s.guard, t, s.local[t]) && s' == Go(s, t, c)
    requires s.local[t].PopNext? ==> s.local[t].x in s.heap
    ensures t in s'.local && (!Hazardous(s'.local[t]) ==> HazardOf(s'.hp, t) == NULL)
    ensures forall u :: u != t ==> HazardOf(s'.hp, u) == HazardOf(s.hp, u)
  {
  }

  lemma PushHazard(s: Stack, t: Thread, c: Choice, s': Stack)
    requires CanGo(s, t, c) && s' == Go(s, t, c)
    requires var l := s.local[t]; l.PushLoad? || l.PushNew? || l.PushCas? || l.PushRelink?
    ensures t in s'.local && !Hazardous(s'.local[t]) && s'.hp.hazard == s.hp.hazard
  {
  }

  lemma ClearHazard(s: Stack, t: Thread, c: Choice, s': Stack)
    requires CanGo(s, t, c) && s' == Go(s, t, c)
    requires var l := s.local[t]; l.ClearLoad? || l.ClearCas? || l.ClearWalk? || l.ClearRetire?
    ensures t in s'.local && !Hazardous(s'.local[t]) && s'.hp.hazard == s.hp.hazard
  {
  }

  lemma OtherHazard(s: Stack, t: Thread, c: Choice, s': Stack)
    requires CanGo(s, t, c) && !Hazardous(s.local[t]) && s' == Go(s, t, c)
    ensures t in s'.local && !Hazardous(s'.local[t]) && s'.hp.hazard == s.hp.hazard
  {
    var l := s.local[t];
    if l.PushLoad? || l.PushNew? || l.PushCas? || l.PushRelink? {
      PushHazard(s, t, c, s');
    } else if !l.PopRetire? {
      ClearHazard(s, t, c, s');
    }
  }

  lemma StepHazards(s: Stack, step: Step, s': Stack)
    requires Inv(s) && HazardsClear(s) && Enabled(s, step) && s' == Next(s, step)
    ensures HazardsClear(s')
  {
    if step.Run? {
      var t, l := step.t, s.local[step.t];
      assert LocalInv(s.heap, s.hp, s.guard, t, l);
      if l.PopNext? {
        assert s.guard[t] in s.heap;
      }
      if Hazardous(l) { PopHazard(s, t, step.c, s'); } else { OtherHazard(s, t, step.c, s'); }
      RunHazards(s, t, step.c, s');
    } else {
      OutsideHazards(s, step, s');
    }
  }

  lemma RunHazards(s: Stack, t: Thread, c: Choice, s': Stack)
    requires HazardsClear(s) && CanGo(s, t, c) && s' == Go(s, t, c) && t in s'.local
    requires !Hazardous(s'.local[t]) ==> HazardOf(s'.hp, t) == NULL
    requires forall u :: u != t ==> HazardOf(s'.hp, u) == HazardOf(s.hp, u)
    ensures HazardsClear(s')
  {
    OnlyOwn(s, t, c, s');
    forall u | u in s'.local ==> !Hazardous(s'.local[u]) ensures HazardOf(s'.hp, u) == NULL {
      assert u != t && u in s.local ==> s'.local[u] == s.local[u];
      assert u != t && (u in s.local ==> !Hazardous(s.local[u])) ==> HazardOf(s.hp, u) == NULL;
    }
  }

  lemma OutsideHazards(s: Stack, step: Step, s': Stack)
    requires HazardsClear(s) && Enabled(s, step) && !step.Run? && s' == Next(s, step)
    ensures HazardsClear(s')
  {
    OutsideSteps(s, step, s');
    forall u | u in s'.local ==> !Hazardous(s'.local[u]) ensures HazardOf(s'.hp, u) == NULL {
      assert (u in s.local ==> !Hazardous(s.local[u])) ==> HazardOf(s.hp, u) == NULL;
    }
  }

  lemma OutsideSteps(s: Stack, step: Step, s': Stack)
    requires Enabled(s, step) && !step.Run? && s' == Next(s, step)
    ensures s'.hp.hazard == s.hp.hazard
    ensures forall u :: u in s.local && Hazardous(s.local[u]) ==> u in s'.local && Hazardous(s'.local[u])
  {
  }

  lemma {:induction false} TraceHazards(s: Stack, steps: seq<Step>, s': Stack)
    requires Inv(s) && HazardsClear(s) && Trace(s, steps, s')
    ensures HazardsClear(s')
    decreases |steps|
  {
    if steps != [] {
      StepInv(s, steps[0]);
      StepHazards(s, steps[0], Next(s, steps[0]));
      TraceHazards(Next(s, steps[0]), steps[1..], s');
    }
  }

  /** In every run a thread that is not inside Pop keeps no node from being freed. */
  lemma IdleProtectsNothing(steps: seq<Step>, s: Stack, t: Thread)
    requires Trace(START_STACK, steps, s) && (t in s.local ==> !Hazardous(s.local[t]))
    ensures HazardOf(s.hp, t) == NULL
  {
    StartStackInv();
    TraceHazards(START_STACK, steps, s);
  }

  /** In every run the node that a thread is about to read, and the node that a scan is about to free, is allocated. */
  lemma NothingFreedIsUsed(steps: seq<Step>, s: Stack, t: Thread, x: ScanStep)
    requires Trace(START_STACK, steps, s)
    ensures t in s.local ==>
              match s.local[t]
              case PopNext(a) => a in s.heap
              case PopCas(a, _) => a in s.heap
              case PopValue(a, _) => a in s.heap
              case PushCas(_, _, a) => a in s.heap
              case PushRelink(_, _, a) => a in s.heap
              case ClearWalk(a, _) => a != NULL ==> a in s.heap
              case _ => true
    ensures CanScan(s.hp, x) ==> Deleted(s.hp, x) <= s.heap.Keys
  {
    StartStackInv();
    TraceInv(START_STACK, steps, s);
    if t in s.local {
      assert LocalInv(s.heap, s.hp, s.guard, t, s.local[t]);
      if s.local[t].PopNext? {
        assert s.guard[t] in s.heap;
      }
    }
    if CanScan(s.hp, x) {
      ScanInv(s.hp, s.guard, Retired(s.heap), x);
    }
  }
}
