/**
  The hash table under many threads: a fixed number of mutexes guards a growing table of bucket
  lists. Every lock, unlock, comparison of a list scan, list update, access to the size counter,
  move of an entry by Rehash and clearing of a bucket is one step.
*/
module StripedLocks {
  import opened Common
  import opened HashTable

  type Thread = nat

  datatype Op = Ins(k: Key, v: Value) | Era(k: Key) | Get(k: Key)

  datatype Answer = Answer(ok: bool, value: Value)

  /** What an operation answers on a plain map, and what it leaves. */
  function Expected(op: Op, m: Contents): Answer {
    match op
    case Ins(k, _) => Answer(k !in m, 0)
    case Era(k) => Answer(k in m, 0)
    case Get(k) => if k in m then Answer(true, m[k]) else Answer(false, 0)
  }

  function Effect(op: Op, m: Contents): Contents {
    match op
    case Ins(k, v) => if k in m then m else m[k := v]
    case Era(k) => m - {k}
    case Get(_) => m
  }

  /** What a thread does while it holds all mutexes. */
  datatype Job = Rehash(op: Op, a: Answer) | Clear

  /** Scan and Apply carry the bucket index and the position in it, Split the old size as well. */
  datatype Local =
    | Rest
    | Lock(op: Op)
    | List(op: Op)
    | Scan(op: Op, j: nat, i: nat)
    | Apply(op: Op, j: nat, i: nat)
    | Count(op: Op, a: Answer)
    | Check(op: Op, a: Answer)
    | Unlock(op: Op, a: Answer, need: bool)
    | Flag(op: Op, a: Answer)
    | LockAll(job: Job, i: nat)
    | Work(job: Job)
    | Split(job: Job, n: nat, j: nat, i: nat)
    | Wipe(i: nat)
    | Reset
    | UnlockAll(job: Job, i: nat)
    | ClearFlag(op: Op, a: Answer)
    | Done(op: Op, a: Answer)
    | Cleared
  {
    predicate Resting() { Rest? || Done? || Cleared? }

    /** Inside the section guarded by one mutex. */
    predicate Single() { List? || Scan? || Apply? || Count? || Check? || Unlock? }

    /** In the middle of rebuilding or emptying the table, with all mutexes. */
    predicate Whole() { Split? || Wipe? || Reset? }
  }

  /**
    Auxiliary: data is the plain map the table stands for, place the bucket of every key while
    Rehash runs; pending maps a key whose list was changed but not yet counted to its thread;
    counted are the keys the counter counts.
  */
  datatype Sys = Sys(
    hash: Hasher, stripes: nat, table: Table, size: int, rehashing: bool, owner: map<nat, Thread>,
    local: map<Thread, Local>, data: Contents, place: Places, pending: map<Key, Thread>, counted: set<Key>)

  /** The mutex of a key. */
  function Stripe(s: Sys, k: Key): nat {
    Mod(s.hash(k), s.stripes)
  }

  /** The bucket of a key in a table of n buckets. */
  function Index(h: Hasher, k: Key, n: nat): nat {
    Mod(h(k), n)
  }

  function StartSys(h: Hasher, n: nat): Sys {
    Sys(h, n, seq(n, _ => []), 0, false, map[], map[], map[], map[], map[], {})
  }

  function LocalOf(s: Sys, t: Thread): Local {
    if t in s.local then s.local[t] else Rest
  }

  function Nth(t: Table, j: nat): Bucket {
    if j < |t| then t[j] else []
  }

  function Put(t: Table, j: nat, b: Bucket): Table {
    if j < |t| then t[j := b] else t
  }

  function At(s: Sys, t: Thread, l: Local): Sys {
    s.(local := s.local[t := l])
  }

  // ---------------------------------------------------------------------------
  // Effects
  // ---------------------------------------------------------------------------

  /** An operation or a Clear that took effect. */
  datatype Event = Did(t: Thread, op: Op, a: Answer) | Wiped(t: Thread)

  /** The effect a call of t has already had; it comes before the return. */
  function Fixed(t: Thread, l: Local): Option<Event> {
    match l
    case Count(op, a) => Some(Did(t, op, a))
    case Check(op, a) => Some(Did(t, op, a))
    case Unlock(op, a, _) => Some(Did(t, op, a))
    case Flag(op, a) => Some(Did(t, op, a))
    case LockAll(job, _) => FixedBy(t, job, false)
    case Work(job) => FixedBy(t, job, false)
    case Split(job, _, _, _) => FixedBy(t, job, true)
    case Wipe(_) => Some(Wiped(t))
    case Reset => Some(Wiped(t))
    case UnlockAll(job, _) => FixedBy(t, job, true)
    case ClearFlag(op, a) => Some(Did(t, op, a))
    case Done(op, a) => Some(Did(t, op, a))
    case Cleared => Some(Wiped(t))
    case _ => None
  }

  function FixedBy(t: Thread, job: Job, started: bool): Option<Event> {
    if job.Rehash? then Some(Did(t, job.op, job.a)) else if started then Some(Wiped(t)) else None
  }

  /** The event on a plain map: whether it is right there, and what it leaves. */
  predicate Right(e: Event, m: Contents) {
    e.Did? ==> e.a == Expected(e.op, m)
  }

  function Outcome(e: Event, m: Contents): Contents {
    if e.Did? then Effect(e.op, m) else map[]
  }

  /** What the call in progress asks for. */
  function Asked(l: Local): Option<Op> {
    if l.Lock? || l.Single() || l.Flag? || l.ClearFlag? || l.Done? then Some(l.op)
    else if l.LockAll? || l.Work? || l.Split? || l.UnlockAll? then (if l.job.Rehash? then Some(l.job.op) else None)
    else None
  }

  /** The moment a call takes effect it does so rightly, and the plain map changes just then. */
  ghost predicate Linearizes(t: Thread, l: Local, m: Contents, l': Local, m': Contents) {
    && Asked(l') == Asked(l) && !l'.Rest?
    && var r, r' := Fixed(t, l), Fixed(t, l');
       if r.None? && r'.Some? then
         Right(r'.value, m) && m' == Outcome(r'.value, m) && (r'.value.Did? ==> Asked(l) == Some(r'.value.op))
       else r' == r && m' == m
  }

  /** The step of t from l to s' changes the plain map only as a call that takes effect does. */
  ghost predicate Follows(s: Sys, t: Thread, l: Local, s': Sys) {
    t in s'.local && Linearizes(t, l, s.data, s'.local[t], s'.data)
  }

  // ---------------------------------------------------------------------------
  // Steps
  // ---------------------------------------------------------------------------

  /** The mutex the thread is about to lock, if any. */
  function Wanted(s: Sys, l: Local): Option<nat> {
    match l
    case Lock(op) => Some(Stripe(s, op.k))
    case LockAll(_, i) => Some(i)
    case _ => None
  }

  predicate CanGo(s: Sys, t: Thread) {
    && t in s.local && !s.local[t].Resting()
    && var w := Wanted(s, s.local[t]); w.Some? ==> w.value !in s.owner
  }

  /** FindPosInList compares one entry. */
  function Scanned(op: Op, j: nat, i: nat, b: Bucket): Local {
    if i >= |b| || b[i].key >= op.k then Apply(op, j, i) else Scan(op, j, i + 1)
  }

  /** What the entry the scan stopped at says. */
  function Found(op: Op, b: Bucket, i: nat): Answer {
    var here := i < |b| && b[i].key == op.k;
    match op
    case Ins(_, _) => Answer(!here, 0)
    case Era(_) => Answer(here, 0)
    case Get(_) => if here then Answer(true, b[i].value) else Answer(false, 0)
  }

  /** The list after InsertIntoList, EraseFromList or a mere lookup. */
  function Updated(op: Op, b: Bucket, i: nat): Bucket {
    if !Found(op, b, i).ok || i > |b| then b
    else if op.Ins? then InsertAt(b, i, Entry(op.k, op.v))
    else if op.Era? && i < |b| then RemoveAt(b, i)
    else b
  }

  /** The quotient of size and table exceeds the load factor. */
  predicate Overloaded(size: int, n: nat) {
    size >= (LOAD_FACTOR + 1) * n
  }

  lemma OverloadedIs(size: nat, n: nat)
    requires n > 0
    ensures Overloaded(size, n) <==> size / n > LOAD_FACTOR
  {
    var q := size / n;
    assert size == q * n + size % n;
    if q >= 3 {
      assert q * n >= 3 * n;
    } else {
      assert q * n <= 2 * n;
    }
  }

  function Afterwards(op: Op, a: Answer): Local {
    if op.Ins? then Check(op, a) else Unlock(op, a, false)
  }

  function AfterApply(op: Op, a: Answer): Local {
    if a.ok && !op.Get? then Count(op, a) else Afterwards(op, a)
  }

  function DoApply(s: Sys, t: Thread, op: Op, j: nat, i: nat): (r: Sys)
    ensures Moves(s, t, r) && r.local[t] == AfterApply(op, Found(op, Nth(s.table, j), i)) && r.data == Effect(op, s.data)
  {
    var b := Nth(s.table, j);
    var a := Found(op, b, i);
    At(s, t, AfterApply(op, a)).(
      table := Put(s.table, j, Updated(op, b, i)),
      data := Effect(op, s.data),
      pending := if a.ok && !op.Get? then s.pending[op.k := t] else s.pending)
  }

  function DoCount(s: Sys, t: Thread, op: Op, a: Answer): (r: Sys)
    ensures Moves(s, t, r) && Follows(s, t, Count(op, a), r)
  {
    At(s, t, Afterwards(op, a)).(
      size := if op.Ins? then s.size + 1 else s.size - 1,
      counted := if op.Ins? then s.counted + {op.k} else s.counted - {op.k},
      pending := s.pending - {op.k})
  }

  function DoUnlock(s: Sys, t: Thread, op: Op, a: Answer, need: bool): (r: Sys)
    ensures Moves(s, t, r) && Follows(s, t, Unlock(op, a, need), r)
  {
    At(s, t, if need then Flag(op, a) else Done(op, a)).(owner := s.owner - {Stripe(s, op.k)})
  }

  function AfterLock(job: Job, i: nat, stripes: nat): Local {
    if i + 1 < stripes then LockAll(job, i + 1) else Work(job)
  }

  function DoLockAll(s: Sys, t: Thread, job: Job, i: nat): (r: Sys)
    ensures Moves(s, t, r) && Follows(s, t, LockAll(job, i), r)
  {
    At(s, t, AfterLock(job, i, s.stripes)).(owner := s.owner[i := t])
  }

  /** Rehash resizes the vector; Clear turns to the first bucket. */
  function DoWork(s: Sys, t: Thread, job: Job): (r: Sys)
    ensures Moves(s, t, r) && Follows(s, t, Work(job), r)
  {
    At(s, t, if job.Rehash? then Split(job, |s.table|, 0, 0) else Wipe(0)).(
      table := if job.Rehash? then s.table + seq(|s.table|, _ => []) else s.table,
      place := if job.Rehash? && |s.table| > 0 then Homes(s.hash, s.data, |s.table|) else s.place,
      data := if job.Rehash? then s.data else map[])
  }

  /** The table after the entry at i of bucket j went to another bucket. */
  function Moved(t: Table, j: nat, i: nat, to: nat): Table {
    if j < |t| && to < |t| && i < |t[j]| then
      t[to := InsertAt(t[to], Position(t[to], t[j][i].key), t[j][i])][j := RemoveAt(t[j], i)]
    else t
  }

  /** The bucket that the entry Rehash looks at belongs to. */
  function Target(s: Sys, l: Local): nat
    requires l.Split?
  {
    if l.i < |Nth(s.table, l.j)| then Index(s.hash, Nth(s.table, l.j)[l.i].key, |s.table|) else l.j
  }

  /** Where Rehash goes on. */
  function AfterSplit(s: Sys, l: Local): Local
    requires l.Split?
  {
    if Target(s, l) != l.j then l
    else if l.i < |Nth(s.table, l.j)| then Split(l.job, l.n, l.j, l.i + 1)
    else if l.j + 1 < |s.table| then Split(l.job, l.n, l.j + 1, 0)
    else UnlockAll(l.job, s.stripes)
  }

  function DoSplit(s: Sys, t: Thread, l: Local): (r: Sys)
    requires l.Split?
    ensures Moves(s, t, r) && Follows(s, t, l, r)
  {
    var to := Target(s, l);
    At(s, t, AfterSplit(s, l)).(
      table := if to != l.j then Moved(s.table, l.j, l.i, to) else s.table,
      place := if to != l.j && l.i < |Nth(s.table, l.j)| then s.place[Nth(s.table, l.j)[l.i].key := to] else s.place)
  }

  function DoWipe(s: Sys, t: Thread, i: nat): (r: Sys)
    ensures Moves(s, t, r) && Follows(s, t, Wipe(i), r)
  {
    At(s, t, if i < |s.table| then Wipe(i + 1) else Reset).(table := Put(s.table, i, []))
  }

  /** Mutex i - 1 is the next to be unlocked. */
  function AfterUnlock(job: Job, i: nat): Local {
    if i > 1 then UnlockAll(job, i - 1) else if job.Rehash? then ClearFlag(job.op, job.a) else Cleared
  }

  function DoUnlockAll(s: Sys, t: Thread, job: Job, i: nat): (r: Sys)
    ensures Moves(s, t, r) && Follows(s, t, UnlockAll(job, i), r)
  {
    At(s, t, AfterUnlock(job, i)).(owner := if i > 0 then s.owner - {i - 1} else s.owner)
  }

  /** Steps of one operation on its own bucket. */
  function GoSection(s: Sys, t: Thread, l: Local): (r: Sys)
    requires l.Single() || l.Lock?
    ensures Moves(s, t, r) && (!l.Apply? ==> Follows(s, t, l, r))
  {
    match l
    case Lock(op) => At(s, t, List(op)).(owner := s.owner[Stripe(s, op.k) := t])
    case List(op) => At(s, t, Scan(op, Index(s.hash, op.k, |s.table|), 0))
    case Scan(op, j, i) => At(s, t, Scanned(op, j, i, Nth(s.table, j)))
    case Apply(op, j, i) => DoApply(s, t, op, j, i)
    case Count(op, a) => DoCount(s, t, op, a)
    case Check(op, a) => At(s, t, Unlock(op, a, Overloaded(s.size, |s.table|)))
    case Unlock(op, a, need) => DoUnlock(s, t, op, a, need)
  }

  /** The test-and-set before Rehash, and the clearing of the flag after it. */
  function GoFlag(s: Sys, t: Thread, l: Local): (r: Sys)
    requires l.Flag? || l.ClearFlag?
    ensures Moves(s, t, r) && Follows(s, t, l, r)
  {
    At(s, t, if l.Flag? && !s.rehashing then LockAll(Rehash(l.op, l.a), 0) else Done(l.op, l.a)).(rehashing := l.Flag?)
  }

  /** Steps of Rehash and Clear. */
  function GoWhole(s: Sys, t: Thread, l: Local): (r: Sys)
    requires l.LockAll? || l.Work? || l.Whole() || l.UnlockAll?
    ensures Moves(s, t, r) && Follows(s, t, l, r)
  {
    match l
    case LockAll(job, i) => DoLockAll(s, t, job, i)
    case Work(job) => DoWork(s, t, job)
    case Split(_, _, _, _) => DoSplit(s, t, l)
    case Wipe(i) => DoWipe(s, t, i)
    case Reset => At(s, t, UnlockAll(Clear, s.stripes)).(size := 0, counted := {})
    case UnlockAll(job, i) => DoUnlockAll(s, t, job, i)
  }

  function Go(s: Sys, t: Thread): (r: Sys)
    requires CanGo(s, t)
    ensures Moves(s, t, r) && (!s.local[t].Apply? ==> Follows(s, t, s.local[t], r))
  {
    var l := s.local[t];
    if l.Single() || l.Lock? then GoSection(s, t, l)
    else if l.Flag? || l.ClearFlag? then GoFlag(s, t, l)
    else GoWhole(s, t, l)
  }

  datatype Step = Call(t: Thread, op: Op) | CallClear(t: Thread) | Run(t: Thread)

  predicate Enabled(s: Sys, step: Step) {
    match step
    case Call(t, _) => LocalOf(s, t).Resting()
    case CallClear(t) => LocalOf(s, t).Resting()
    case Run(t) => CanGo(s, t)
  }

  function Next(s: Sys, step: Step): (r: Sys)
    requires Enabled(s, step)
    ensures Moves(s, step.t, r)
  {
    match step
    case Call(t, op) => At(s, t, Lock(op))
    case CallClear(t) => At(s, t, LockAll(Clear, 0))
    case Run(t) => Go(s, t)
  }

  // ---------------------------------------------------------------------------
  // Invariants
  // ---------------------------------------------------------------------------

  /** The thread's code position says it holds mutex i. */
  predicate Holds(s: Sys, l: Local, i: nat) {
    if l.Single() then i == Stripe(s, l.op.k)
    else if l.Work? || l.Whole() then i < s.stripes
    else (l.LockAll? || l.UnlockAll?) && i < l.i
  }

  /** A mutex is held by a thread exactly when that thread is where it holds it. */
  ghost predicate OwnersInv(s: Sys) {
    && (forall i :: i in s.owner ==> i < s.stripes && s.owner[i] in s.local && Holds(s, s.local[s.owner[i]], i))
    && (forall t, i :: t in s.local && Holds(s, s.local[t], i) ==> i in s.owner && s.owner[i] == t)
    && (forall t :: t in s.local ==> BoundOk(s, s.local[t]))
  }

  predicate BoundOk(s: Sys, l: Local) {
    (l.LockAll? ==> l.i < s.stripes) && (l.UnlockAll? ==> 1 <= l.i <= s.stripes)
  }

  /** The thread that rebuilds or empties the table, if any: it holds mutex 0 with all others. */
  function Mode(s: Sys): Local {
    if 0 in s.owner && LocalOf(s, s.owner[0]).Whole() then LocalOf(s, s.owner[0]) else Rest
  }

  ghost predicate Emptied(t: Table, i: nat) {
    i <= |t| && forall j :: 0 <= j < i ==> t[j] == []
  }

  /** Outside Rehash and Clear every bucket is sorted and holds exactly the pairs of its keys. */
  ghost predicate TableOk(h: Hasher, t: Table, c: Contents, p: Places, mode: Local)
    requires |t| > 0
  {
    if mode.Wipe? then c == map[] && Emptied(t, mode.i)
    else if mode.Reset? then c == map[] && Emptied(t, |t|)
    else if mode.Split? then
      && Total(t) == |c| && Stores(t, c, p) && Splitting(h, t, mode.n, mode.j, mode.i)
      && mode.i <= |t[mode.j]|
    else Total(t) == |c| && Stores(t, c, Homes(h, c, |t|))
  }

  /** A scan has passed only smaller keys; where it stopped is the place of its key. */
  ghost predicate LocalInv(h: Hasher, t: Table, l: Local) {
    && (l.Scan? ==> l.j == Index(h, l.op.k, |t|) < |t| && Passed(Nth(t, l.j), l.op.k, l.i))
    && (l.Apply? ==> l.j == Index(h, l.op.k, |t|) < |t| && PositionOf(Nth(t, l.j), l.op.k, l.i))
  }

  ghost predicate Passed(b: Bucket, k: Key, i: nat) {
    i <= |b| && forall m :: 0 <= m < i ==> b[m].key < k
  }

  ghost predicate LocalsInv(s: Sys) {
    forall t :: t in s.local ==> LocalInv(s.hash, s.table, s.local[t])
  }

  predicate PendingOk(s: Sys, k: Key, t: Thread) {
    && t in s.local && s.local[t].Count? && s.local[t].op.k == k && !s.local[t].op.Get?
    && (k in s.data <==> s.local[t].op.Ins?) && (k in s.counted <==> s.local[t].op.Era?)
  }

  /** The counter counts the stored keys, up to those just changed and not yet counted. */
  ghost predicate SizeInv(s: Sys) {
    && s.size == |s.counted|
    && (!Mode(s).Wipe? && !Mode(s).Reset? ==> forall k :: k !in s.pending ==> (k in s.counted <==> k in s.data))
    && (forall k :: k in s.pending ==> PendingOk(s, k, s.pending[k]))
    && (forall t :: t in s.local && s.local[t].Count? ==>
          s.local[t].op.k in s.pending && s.pending[s.local[t].op.k] == t)
  }

  predicate ShapeInv(s: Sys) {
    s.stripes > 0 && |s.table| > 0 && Mod(|s.table|, s.stripes) == 0
  }

  ghost predicate Inv(s: Sys) {
    && ShapeInv(s) && OwnersInv(s) && LocalsInv(s) && SizeInv(s)
    && TableOk(s.hash, s.table, s.data, s.place, Mode(s))
  }

  lemma StartInv(h: Hasher, n: nat)
    requires n > 0
    ensures Inv(StartSys(h, n))
  {
    EmptyTotal(n);
  }

  lemma IndexIs(h: Hasher, k: Key, n: nat)
    requires n > 0
    ensures Index(h, k, n) == h(k) % n < n
  {
    ModIs(h(k), n);
  }

  lemma StripeBound(s: Sys, k: Key)
    requires s.stripes > 0
    ensures Stripe(s, k) < s.stripes
  {
    ModIs(s.hash(k), s.stripes);
  }

  // ---------------------------------------------------------------------------
  // Who owns which mutex
  // ---------------------------------------------------------------------------

  predicate OwnedBy(s: Sys, t: Thread, i: nat) {
    i in s.owner && s.owner[i] == t
  }

  ghost predicate Moves(s: Sys, t: Thread, s': Sys) {
    && t in s'.local && s'.local == s.local[t := s'.local[t]]
    && s'.hash == s.hash && s'.stripes == s.stripes
  }

  ghost predicate OthersOwn(s: Sys, t: Thread, s': Sys) {
    forall u, i :: u != t ==> (OwnedBy(s', u, i) <==> OwnedBy(s, u, i))
  }

  lemma OwnerStays(s: Sys, t: Thread, s': Sys, i: nat)
    requires OwnersInv(s) && Moves(s, t, s') && OthersOwn(s, t, s') && i in s'.owner && s'.owner[i] != t
    ensures s'.owner[i] in s'.local && Holds(s', s'.local[s'.owner[i]], i)
  {
    var u := s'.owner[i];
    assert OwnedBy(s', u, i);
    assert OwnedBy(s, u, i);
    assert Holds(s, s.local[u], i);
  }

  lemma HolderStays(s: Sys, t: Thread, s': Sys, u: Thread, i: nat)
    requires OwnersInv(s) && Moves(s, t, s') && OthersOwn(s, t, s') && u != t && u in s'.local && Holds(s', s'.local[u], i)
    ensures OwnedBy(s', u, i)
  {
    assert Holds(s, s.local[u], i);
    assert OwnedBy(s, u, i);
  }

  /** What a thread takes or gives back matches its code position, and the others keep theirs. */
  lemma OwnersAfter(s: Sys, t: Thread, s': Sys)
    requires OwnersInv(s) && Moves(s, t, s') && BoundOk(s', s'.local[t]) && OthersOwn(s, t, s')
    requires forall i :: i in s'.owner ==> i < s.stripes
    requires forall i :: OwnedBy(s', t, i) <==> Holds(s', s'.local[t], i)
    ensures OwnersInv(s')
  {
    forall i | i in s'.owner ensures s'.owner[i] in s'.local && Holds(s', s'.local[s'.owner[i]], i) {
      if s'.owner[i] != t {
        OwnerStays(s, t, s', i);
      } else {
        assert OwnedBy(s', t, i);
      }
    }
    forall u, i | u in s'.local && Holds(s', s'.local[u], i) ensures i in s'.owner && s'.owner[i] == u {
      if u != t {
        HolderStays(s, t, s', u, i);
      } else {
        assert OwnedBy(s', t, i);
      }
    }
    forall u | u in s'.local ensures BoundOk(s', s'.local[u]) {
      if u != t {
        assert BoundOk(s, s.local[u]);
      }
    }
  }

  lemma OwnsWhatItHolds(s: Sys, t: Thread, i: nat)
    requires OwnersInv(s)
    ensures OwnedBy(s, t, i) <==> Holds(s, LocalOf(s, t), i)
  {
    if OwnedBy(s, t, i) {
      assert Holds(s, s.local[t], i);
    }
    if Holds(s, LocalOf(s, t), i) {
      assert t in s.local;
    }
  }

  /** A step that neither takes nor gives back a mutex. */
  lemma OwnersKept(s: Sys, t: Thread, s': Sys)
    requires OwnersInv(s) && Moves(s, t, s') && BoundOk(s', s'.local[t]) && s'.owner == s.owner
    requires forall i :: Holds(s', s'.local[t], i) <==> Holds(s, LocalOf(s, t), i)
    ensures OwnersInv(s')
  {
    forall i ensures OwnedBy(s', t, i) <==> Holds(s', s'.local[t], i) {
      OwnsWhatItHolds(s, t, i);
    }
    OwnersAfter(s, t, s');
  }

  lemma OwnersAcquire(s: Sys, t: Thread, m: nat, s': Sys)
    requires OwnersInv(s) && Moves(s, t, s') && BoundOk(s', s'.local[t])
    requires m !in s.owner && m < s.stripes && s'.owner == s.owner[m := t]
    requires forall i :: Holds(s', s'.local[t], i) <==> Holds(s, LocalOf(s, t), i) || i == m
    ensures OwnersInv(s')
  {
    forall i ensures OwnedBy(s', t, i) <==> Holds(s', s'.local[t], i) {
      OwnsWhatItHolds(s, t, i);
    }
    OwnersAfter(s, t, s');
  }

  lemma OwnersRelease(s: Sys, t: Thread, m: nat, s': Sys)
    requires OwnersInv(s) && Moves(s, t, s') && BoundOk(s', s'.local[t])
    requires Holds(s, LocalOf(s, t), m) && s'.owner == s.owner - {m}
    requires forall i :: Holds(s', s'.local[t], i) <==> Holds(s, LocalOf(s, t), i) && i != m
    ensures OwnersInv(s')
  {
    OwnsWhatItHolds(s, t, m);
    forall i ensures OwnedBy(s', t, i) <==> Holds(s', s'.local[t], i) {
      OwnsWhatItHolds(s, t, i);
    }
    OwnersAfter(s, t, s');
  }

  lemma OneHolder(s: Sys, t: Thread, u: Thread, i: nat)
    requires OwnersInv(s) && Holds(s, LocalOf(s, t), i) && Holds(s, LocalOf(s, u), i)
    ensures t == u
  {
    OwnsWhatItHolds(s, t, i);
    OwnsWhatItHolds(s, u, i);
  }

  /** A thread in the middle of Rehash or Clear is the one the mode speaks of. */
  lemma ModeIs(s: Sys, t: Thread)
    requires OwnersInv(s) && s.stripes > 0 && LocalOf(s, t).Whole()
    ensures Mode(s) == LocalOf(s, t)
  {
    OwnsWhatItHolds(s, t, 0);
  }

  lemma ModeWitness(s: Sys)
    requires Mode(s).Whole()
    ensures 0 in s.owner && LocalOf(s, s.owner[0]) == Mode(s)
  {
  }

  /** The steps of a thread outside Rehash and Clear do not change the mode. */
  lemma ModeKept(s: Sys, t: Thread, s': Sys)
    requires OwnersInv(s) && OwnersInv(s') && s.stripes > 0 && Moves(s, t, s')
    requires !LocalOf(s, t).Whole() && !s'.local[t].Whole()
    ensures Mode(s') == Mode(s)
  {
    if Mode(s).Whole() {
      ModeIs(s', s.owner[0]);
    } else if Mode(s').Whole() {
      ModeIs(s, s'.owner[0]);
    }
  }

  /** While one thread holds all mutexes no other is in a section, nor in the middle of another job. */
  lemma Alone(s: Sys, t: Thread, u: Thread)
    requires OwnersInv(s) && s.stripes > 0 && (LocalOf(s, t).Work? || LocalOf(s, t).Whole()) && u != t
    ensures !LocalOf(s, u).Single() && !LocalOf(s, u).Work? && !LocalOf(s, u).Whole()
  {
    var l := LocalOf(s, u);
    if l.Single() {
      StripeBound(s, l.op.k);
      OneHolder(s, t, u, Stripe(s, l.op.k));
    } else if l.Work? || l.Whole() {
      OneHolder(s, t, u, 0);
    }
  }

  /** While a thread is in a section, nobody rebuilds or empties the table. */
  lemma SectionCalm(s: Sys, t: Thread)
    requires OwnersInv(s) && s.stripes > 0 && LocalOf(s, t).Single()
    ensures Mode(s) == Rest
  {
    if Mode(s).Whole() {
      Alone(s, s.owner[0], t);
    }
  }

  lemma Division(x: nat, n: nat)
    requires n > 0
    ensures x == x / n * n + x % n
  {
  }

  lemma DividedRemainder(x: nat, y: nat, t: nat, m: nat)
    requires m > 0 && t > 0 && t % m == 0 && x % t == y % t
    ensures x % m == y % m
  {
    Division(x, t);
    Division(y, t);
    Division(t, m);
    SameAbsorbed(x / t, y / t, t / m, m, x % t, t, x, y);
  }

  lemma SameAbsorbed(a: nat, b: nat, c: nat, m: nat, r: nat, t: nat, x: nat, y: nat)
    requires m > 0 && t == c * m && x == a * t + r && y == b * t + r
    ensures x % m == y % m
  {
    Absorb(a, c, m, r, x);
    Absorb(b, c, m, r, y);
  }

  lemma Absorb(a: nat, c: nat, m: nat, r: nat, x: nat)
    requires m > 0 && x == a * (c * m) + r
    ensures x % m == r % m
  {
    var q := r / m;
    assert r == q * m + r % m;
    assert a * (c * m) == (a * c) * m;
    assert (a * c) * m + q * m == (a * c + q) * m;
    Remainder(x, m, a * c + q, r % m);
  }

  lemma SharedMutex(s: Sys, k: Key, k': Key)
    requires ShapeInv(s) && Index(s.hash, k, |s.table|) == Index(s.hash, k', |s.table|)
    ensures Stripe(s, k) == Stripe(s, k')
  {
    var x, y := s.hash(k), s.hash(k');
    ModIs(x, |s.table|);
    ModIs(y, |s.table|);
    ModIs(|s.table|, s.stripes);
    ModIs(x, s.stripes);
    ModIs(y, s.stripes);
    DividedRemainder(x, y, |s.table|, s.stripes);
  }

  /** Two sections never concern one bucket. */
  lemma SectionsApart(s: Sys, t: Thread, u: Thread)
    requires ShapeInv(s) && OwnersInv(s) && t != u && LocalOf(s, t).Single() && LocalOf(s, u).Single()
    ensures Index(s.hash, s.local[t].op.k, |s.table|) != Index(s.hash, s.local[u].op.k, |s.table|)
  {
    var k, k' := s.local[t].op.k, s.local[u].op.k;
    if Index(s.hash, k, |s.table|) == Index(s.hash, k', |s.table|) {
      SharedMutex(s, k, k');
      OneHolder(s, t, u, Stripe(s, k));
    }
  }

  // ---------------------------------------------------------------------------
  // Frames
  // ---------------------------------------------------------------------------

  /** A step that does not touch data and counter, by a thread not about to count. */
  lemma SizeKept(s: Sys, t: Thread, s': Sys)
    requires SizeInv(s) && Moves(s, t, s')
    requires s'.data == s.data && s'.size == s.size && s'.counted == s.counted && s'.pending == s.pending
    requires !LocalOf(s, t).Count? && !s'.local[t].Count?
    requires !Mode(s').Wipe? && !Mode(s').Reset? ==> !Mode(s).Wipe? && !Mode(s).Reset?
    ensures SizeInv(s')
  {
    forall k | k in s'.pending ensures PendingOk(s', k, s'.pending[k]) {
      assert PendingOk(s, k, s.pending[k]);
    }
  }

  lemma LocalsKept(s: Sys, t: Thread, s': Sys)
    requires LocalsInv(s) && Moves(s, t, s') && s'.table == s.table && LocalInv(s'.hash, s'.table, s'.local[t])
    ensures LocalsInv(s')
  {
    forall u | u in s'.local ensures LocalInv(s'.hash, s'.table, s'.local[u]) {
      if u != t {
        assert LocalInv(s.hash, s.table, s.local[u]);
      }
    }
  }

  /** With all mutexes in one hand the table may change: no scan is under way. */
  lemma LocalsAlone(s: Sys, t: Thread, s': Sys)
    requires OwnersInv(s) && s.stripes > 0 && Moves(s, t, s') && !s'.local[t].Single()
    requires LocalOf(s, t).Work? || LocalOf(s, t).Whole()
    ensures LocalsInv(s')
  {
    forall u | u in s'.local ensures LocalInv(s'.hash, s'.table, s'.local[u]) {
      if u != t {
        Alone(s, t, u);
      }
    }
  }

  /** A step that leaves table and data alone, given the bookkeeping of the counter after it. */
  lemma SteadyInv(s: Sys, t: Thread, s': Sys)
    requires Inv(s) && Moves(s, t, s') && OwnersInv(s') && SizeInv(s')
    requires s'.table == s.table && s'.data == s.data && s'.place == s.place
    requires !LocalOf(s, t).Whole() && !s'.local[t].Whole() && LocalInv(s'.hash, s'.table, s'.local[t])
    ensures Inv(s')
  {
    ModeKept(s, t, s');
    LocalsKept(s, t, s');
  }

  /** A step that changes neither table, nor data, nor counter. */
  lemma CalmInv(s: Sys, t: Thread, s': Sys)
    requires Inv(s) && Moves(s, t, s') && OwnersInv(s')
    requires s'.table == s.table && s'.data == s.data && s'.place == s.place
    requires s'.size == s.size && s'.counted == s.counted && s'.pending == s.pending
    requires !LocalOf(s, t).Count? && !s'.local[t].Count? && !LocalOf(s, t).Whole() && !s'.local[t].Whole()
    requires LocalInv(s'.hash, s'.table, s'.local[t])
    ensures Inv(s')
  {
    ModeKept(s, t, s');
    SizeKept(s, t, s');
    LocalsKept(s, t, s');
  }

  // ---------------------------------------------------------------------------
  // One operation on its bucket
  // ---------------------------------------------------------------------------

  lemma SameHolds(s: Sys, s': Sys, l: Local, i: nat)
    requires s'.hash == s.hash && s'.stripes == s.stripes
    ensures Holds(s', l, i) <==> Holds(s, l, i)
  {
  }

  /** A step within a section leaves the mutexes as they are. */
  lemma SectionOwners(s: Sys, t: Thread, s': Sys)
    requires OwnersInv(s) && Moves(s, t, s') && s'.owner == s.owner && t in s.local
    requires s.local[t].Single() && s'.local[t].Single() && s.local[t].op == s'.local[t].op
    ensures OwnersInv(s')
  {
    forall i ensures Holds(s', s'.local[t], i) <==> Holds(s, LocalOf(s, t), i) {
      SameHolds(s, s', s'.local[t], i);
    }
    OwnersKept(s, t, s');
  }

  lemma LockInv(s: Sys, t: Thread, op: Op, s': Sys)
    requires Inv(s) && t in s.local && s.local[t] == Lock(op) && Stripe(s, op.k) !in s.owner
    requires s' == At(s, t, List(op)).(owner := s.owner[Stripe(s, op.k) := t])
    ensures Inv(s')
  {
    StripeBound(s, op.k);
    OwnersAcquire(s, t, Stripe(s, op.k), s');
    CalmInv(s, t, s');
  }

  /** A move within a section that changes nothing shared. */
  lemma SectionMove(s: Sys, t: Thread, l': Local)
    requires Inv(s) && t in s.local && s.local[t].Single() && l'.Single() && l'.op == s.local[t].op
    requires !s.local[t].Count? && !l'.Count? && LocalInv(s.hash, s.table, l')
    ensures Inv(At(s, t, l'))
  {
    SectionOwners(s, t, At(s, t, l'));
    CalmInv(s, t, At(s, t, l'));
  }

  lemma BucketSorted(s: Sys, j: nat)
    requires |s.table| > 0 && TableOk(s.hash, s.table, s.data, s.place, Rest) && j < |s.table|
    ensures Sorted(s.table[j])
  {
    assert BucketOk(s.table[j], j, s.data, Homes(s.hash, s.data, |s.table|));
  }

  lemma ScanStops(b: Bucket, k: Key, i: nat)
    requires Sorted(b) && Passed(b, k, i) && (i >= |b| || b[i].key >= k)
    ensures PositionOf(b, k, i)
  {
    forall m | i <= m < |b| ensures k <= b[m].key {
      assert m > i ==> b[i].key < b[m].key;
    }
  }

  lemma ScanInv(s: Sys, t: Thread, op: Op, j: nat, i: nat, s': Sys)
    requires Inv(s) && t in s.local && s.local[t] == Scan(op, j, i) && s' == At(s, t, Scanned(op, j, i, Nth(s.table, j)))
    ensures Inv(s')
  {
    assert LocalInv(s.hash, s.table, s.local[t]);
    SectionCalm(s, t);
    BucketSorted(s, j);
    var b := s.table[j];
    if i >= |b| || b[i].key >= op.k {
      ScanStops(b, op.k, i);
    }
    SectionMove(s, t, Scanned(op, j, i, b));
  }

  /** What a bucket says about its keys is what the plain map says. */
  lemma BucketKnows(h: Hasher, t: Table, c: Contents, k: Key, j: nat, i: nat)
    requires |t| > 0 && j < |t| && Stores(t, c, Homes(h, c, |t|)) && j == Index(h, k, |t|) && PositionOf(t[j], k, i)
    ensures (i < |t[j]| && t[j][i].key == k) <==> k in c
    ensures i < |t[j]| && t[j][i].key == k ==> c[k] == t[j][i].value
  {
    var p := Homes(h, c, |t|);
    assert BucketOk(t[j], j, c, p);
    IndexIs(h, k, |t|);
    if k in c {
      assert InBucket(t[p[k]], k);
      var m :| 0 <= m < |t[j]| && t[j][m].key == k;
      assert i <= m && t[j][i].key <= t[j][m].key;
    }
  }

  /** The answer read from the bucket is the one the plain map gives. */
  lemma FoundRight(s: Sys, t: Thread, op: Op, j: nat, i: nat)
    requires Inv(s) && t in s.local && s.local[t] == Apply(op, j, i)
    ensures Mode(s) == Rest && j < |s.table| && PositionOf(s.table[j], op.k, i)
    ensures Found(op, s.table[j], i) == Expected(op, s.data)
  {
    assert LocalInv(s.hash, s.table, s.local[t]);
    SectionCalm(s, t);
    BucketKnows(s.hash, s.table, s.data, op.k, j, i);
  }

  /** The list update does to the table what the operation does to the plain map. */
  lemma ApplyTable(h: Hasher, t: Table, c: Contents, op: Op, j: nat, i: nat)
    requires |t| > 0 && Total(t) == |c| && Stores(t, c, Homes(h, c, |t|))
    requires j == Index(h, op.k, |t|) < |t| && PositionOf(t[j], op.k, i) && Found(op, t[j], i) == Expected(op, c)
    ensures var t' := Put(t, j, Updated(op, t[j], i));
            |t'| == |t| && Total(t') == |Effect(op, c)| && Stores(t', Effect(op, c), Homes(h, Effect(op, c), |t|))
  {
    BucketKnows(h, t, c, op.k, j, i);
    if Found(op, t[j], i).ok && op.Ins? {
      ApplyInsert(h, t, c, op, j, i);
    } else if Found(op, t[j], i).ok && op.Era? {
      ApplyErase(h, t, c, op, j, i);
    } else {
      EffectSame(op, c);
      assert t[j := t[j]] == t;
    }
  }

  lemma ApplyInsert(h: Hasher, t: Table, c: Contents, op: Op, j: nat, i: nat)
    requires |t| > 0 && Total(t) == |c| && Stores(t, c, Homes(h, c, |t|)) && op.Ins? && op.k !in c
    requires j == Index(h, op.k, |t|) < |t| && PositionOf(t[j], op.k, i)
    ensures var t', c' := t[j := InsertAt(t[j], i, Entry(op.k, op.v))], c[op.k := op.v];
            Total(t') == |c'| && Stores(t', c', Homes(h, c', |t|))
  {
    StoresInsert(t, c, Homes(h, c, |t|), j, i, Entry(op.k, op.v));
    IndexIs(h, op.k, |t|);
    assert Homes(h, c[op.k := op.v], |t|) == Homes(h, c, |t|)[op.k := j];
  }

  lemma ApplyErase(h: Hasher, t: Table, c: Contents, op: Op, j: nat, i: nat)
    requires |t| > 0 && Total(t) == |c| && Stores(t, c, Homes(h, c, |t|))
    requires j < |t| && i < |t[j]| && t[j][i].key == op.k && op.k in c
    ensures var t', c' := t[j := RemoveAt(t[j], i)], c - {op.k};
            Total(t') == |c'| && Stores(t', c', Homes(h, c', |t|))
  {
    StoresErase(t, c, Homes(h, c, |t|), j, i);
    Shrink(c, op.k);
    assert Homes(h, c - {op.k}, |t|) == Homes(h, c, |t|) - {op.k};
  }

  lemma EffectSame(op: Op, m: Contents)
    requires !Expected(op, m).ok || op.Get?
    ensures Effect(op, m) == m
  {
  }

  /** Updating one bucket leaves the scans of other threads, which are in other buckets, right. */
  lemma LocalsElsewhere(s: Sys, t: Thread, s': Sys, j: nat, b: Bucket)
    requires ShapeInv(s) && OwnersInv(s) && LocalsInv(s) && Moves(s, t, s') && s'.table == Put(s.table, j, b)
    requires t in s.local && s.local[t].Single() && j == Index(s.hash, s.local[t].op.k, |s.table|)
    requires !s'.local[t].Scan? && !s'.local[t].Apply?
    ensures LocalsInv(s')
  {
    forall u | u in s'.local ensures LocalInv(s'.hash, s'.table, s'.local[u]) {
      if u != t {
        assert LocalInv(s.hash, s.table, s.local[u]);
        if s.local[u].Single() {
          SectionsApart(s, t, u);
        }
      }
    }
  }

  /** While a thread holds the mutex of k, k is pending only through that thread. */
  lemma HolderPending(s: Sys, t: Thread, k: Key)
    requires OwnersInv(s) && SizeInv(s) && Holds(s, LocalOf(s, t), Stripe(s, k)) && k in s.pending
    ensures s.pending[k] == t && PendingOk(s, k, t)
  {
    var u := s.pending[k];
    assert PendingOk(s, k, u);
    OneHolder(s, t, u, Stripe(s, k));
  }

  lemma ApplySize(s: Sys, t: Thread, op: Op, s': Sys)
    requires SizeInv(s) && Moves(s, t, s') && op.k !in s.pending && Mode(s) == Rest && !LocalOf(s, t).Count?
    requires s'.size == s.size && s'.counted == s.counted && s'.data == Effect(op, s.data)
    requires var a := Expected(op, s.data);
             s'.local[t] == AfterApply(op, a) && s'.pending == if a.ok && !op.Get? then s.pending[op.k := t] else s.pending
    ensures SizeInv(s')
  {
    if !Expected(op, s.data).ok || op.Get? {
      EffectSame(op, s.data);
    }
    forall k | k in s'.pending ensures PendingOk(s', k, s'.pending[k]) {
      if k != op.k {
        assert PendingOk(s, k, s.pending[k]);
      }
    }
  }

  /** How the list update changes the state. */
  lemma ApplyFields(s: Sys, t: Thread, op: Op, j: nat, i: nat, s': Sys)
    requires t in s.local && s.local[t] == Apply(op, j, i) && j < |s.table| && s' == DoApply(s, t, op, j, i)
    requires Found(op, s.table[j], i) == Expected(op, s.data)
    ensures Moves(s, t, s') && s'.owner == s.owner && s'.size == s.size && s'.counted == s.counted && s'.place == s.place
    ensures s'.table == Put(s.table, j, Updated(op, s.table[j], i)) && s'.data == Effect(op, s.data)
    ensures var a := Expected(op, s.data);
            s'.local[t] == AfterApply(op, a) && s'.pending == if a.ok && !op.Get? then s.pending[op.k := t] else s.pending
    ensures s'.local[t].Single() && s'.local[t].op == op && !s'.local[t].Scan? && !s'.local[t].Apply?
  {
  }

  lemma ApplyRest(s: Sys, t: Thread, op: Op, s': Sys)
    requires OwnersInv(s) && SizeInv(s) && s.stripes > 0 && Mode(s) == Rest && Moves(s, t, s') && s'.owner == s.owner
    requires t in s.local && s.local[t].Apply? && s.local[t].op == op && s'.local[t].Single() && s'.local[t].op == op
    requires s'.size == s.size && s'.counted == s.counted && s'.data == Effect(op, s.data)
    requires var a := Expected(op, s.data);
             s'.local[t] == AfterApply(op, a) && s'.pending == if a.ok && !op.Get? then s.pending[op.k := t] else s.pending
    ensures OwnersInv(s') && SizeInv(s') && Mode(s') == Rest
  {
    SectionOwners(s, t, s');
    ModeKept(s, t, s');
    if op.k in s.pending {
      HolderPending(s, t, op.k);
    }
    ApplySize(s, t, op, s');
  }

  lemma ApplyBuckets(s: Sys, t: Thread, op: Op, j: nat, i: nat, s': Sys)
    requires ShapeInv(s) && OwnersInv(s) && LocalsInv(s) && TableOk(s.hash, s.table, s.data, s.place, Rest) && Moves(s, t, s')
    requires t in s.local && s.local[t] == Apply(op, j, i) && j < |s.table| && Found(op, s.table[j], i) == Expected(op, s.data)
    requires s'.table == Put(s.table, j, Updated(op, s.table[j], i)) && s'.data == Effect(op, s.data)
    requires !s'.local[t].Scan? && !s'.local[t].Apply?
    ensures |s'.table| == |s.table| && LocalsInv(s') && TableOk(s'.hash, s'.table, s'.data, s'.place, Rest)
  {
    assert LocalInv(s.hash, s.table, s.local[t]);
    ApplyTable(s.hash, s.table, s.data, op, j, i);
    LocalsElsewhere(s, t, s', j, Updated(op, s.table[j], i));
  }

  lemma ApplyInv(s: Sys, t: Thread, op: Op, j: nat, i: nat, s': Sys)
    requires Inv(s) && t in s.local && s.local[t] == Apply(op, j, i) && s' == DoApply(s, t, op, j, i)
    ensures Inv(s')
  {
    FoundRight(s, t, op, j, i);
    ApplyFields(s, t, op, j, i, s');
    ApplyRest(s, t, op, s');
    ApplyBuckets(s, t, op, j, i, s');
  }

  /** The counted keys after the counter was adjusted for k. */
  function Adjusted(op: Op, counted: set<Key>): set<Key> {
    if op.Ins? then counted + {op.k} else counted - {op.k}
  }

  lemma AdjustedSize(op: Op, counted: set<Key>)
    requires !op.Get? && (op.k in counted <==> op.Era?)
    ensures |Adjusted(op, counted)| == if op.Ins? then |counted| + 1 else |counted| - 1
  {
  }

  lemma CountSize(s: Sys, t: Thread, op: Op, s': Sys)
    requires SizeInv(s) && Moves(s, t, s') && LocalOf(s, t).Count? && s.local[t].op == op && Mode(s) == Rest
    requires !s'.local[t].Count? && s'.data == s.data && s'.counted == Adjusted(op, s.counted)
    requires s'.size == |s'.counted| && s'.pending == s.pending - {op.k}
    ensures SizeInv(s')
  {
    assert PendingOk(s, op.k, t);
    forall k | k in s'.pending ensures PendingOk(s', k, s'.pending[k]) {
      assert PendingOk(s, k, s.pending[k]);
    }
    forall k | k !in s'.pending ensures k in s'.counted <==> k in s'.data {
      assert k != op.k ==> k !in s.pending;
    }
  }

  lemma CountFields(s: Sys, t: Thread, op: Op, a: Answer, s': Sys)
    requires SizeInv(s) && t in s.local && s.local[t] == Count(op, a) && s' == DoCount(s, t, op, a)
    ensures Moves(s, t, s') && s'.owner == s.owner && s'.table == s.table && s'.data == s.data && s'.place == s.place
    ensures s'.counted == Adjusted(op, s.counted) && s'.size == |s'.counted| && s'.pending == s.pending - {op.k}
    ensures s'.local[t] == Afterwards(op, a)
  {
    assert PendingOk(s, op.k, t);
    AdjustedSize(op, s.counted);
  }

  lemma CountInv(s: Sys, t: Thread, op: Op, a: Answer, s': Sys)
    requires Inv(s) && t in s.local && s.local[t] == Count(op, a) && s' == DoCount(s, t, op, a)
    ensures Inv(s')
  {
    CountFields(s, t, op, a, s');
    CountDone(s, t, op, s');
  }

  lemma CountDone(s: Sys, t: Thread, op: Op, s': Sys)
    requires Inv(s) && Moves(s, t, s') && LocalOf(s, t).Count? && s.local[t].op == op && s'.owner == s.owner
    requires (s'.local[t].Check? || s'.local[t].Unlock?) && s'.local[t].op == op
    requires s'.table == s.table && s'.data == s.data && s'.place == s.place && s'.counted == Adjusted(op, s.counted)
    requires s'.size == |s'.counted| && s'.pending == s.pending - {op.k}
    ensures Inv(s')
  {
    CountRest(s, t, op, s');
    SteadyInv(s, t, s');
  }

  lemma CountRest(s: Sys, t: Thread, op: Op, s': Sys)
    requires OwnersInv(s) && SizeInv(s) && s.stripes > 0 && Moves(s, t, s') && LocalOf(s, t).Count? && s.local[t].op == op
    requires s'.local[t].Single() && s'.local[t].op == op && !s'.local[t].Count? && s'.owner == s.owner
    requires s'.data == s.data && s'.counted == Adjusted(op, s.counted)
    requires s'.size == |s'.counted| && s'.pending == s.pending - {op.k}
    ensures OwnersInv(s') && SizeInv(s')
  {
    SectionCalm(s, t);
    SectionOwners(s, t, s');
    CountSize(s, t, op, s');
  }

  lemma UnlockInv(s: Sys, t: Thread, l: Local, s': Sys)
    requires Inv(s) && t in s.local && s.local[t] == l && l.Unlock? && s' == DoUnlock(s, t, l.op, l.a, l.need)
    ensures Inv(s')
  {
    OwnersRelease(s, t, Stripe(s, l.op.k), s');
    CalmInv(s, t, s');
  }

  // ---------------------------------------------------------------------------
  // Rehash and Clear
  // ---------------------------------------------------------------------------

  lemma LockAllOwners(s: Sys, t: Thread, job: Job, i: nat, s': Sys)
    requires OwnersInv(s) && t in s.local && s.local[t] == LockAll(job, i) && i !in s.owner
    requires Moves(s, t, s') && s'.local[t] == AfterLock(job, i, s.stripes) && s'.owner == s.owner[i := t]
    ensures OwnersInv(s')
  {
    assert BoundOk(s, s.local[t]);
    OwnersAcquire(s, t, i, s');
  }

  lemma LockAllInv(s: Sys, t: Thread, job: Job, i: nat, s': Sys)
    requires Inv(s) && t in s.local && s.local[t] == LockAll(job, i) && i !in s.owner && s' == DoLockAll(s, t, job, i)
    ensures Inv(s')
  {
    LockAllOwners(s, t, job, i, s');
    CalmInv(s, t, s');
  }

  lemma UnlockAllOwners(s: Sys, t: Thread, job: Job, i: nat, s': Sys)
    requires OwnersInv(s) && t in s.local && s.local[t] == UnlockAll(job, i) && i >= 1
    requires Moves(s, t, s') && s'.local[t] == AfterUnlock(job, i) && s'.owner == s.owner - {i - 1}
    ensures OwnersInv(s')
  {
    assert BoundOk(s, s.local[t]);
    OwnersRelease(s, t, i - 1, s');
  }

  lemma UnlockAllInv(s: Sys, t: Thread, job: Job, i: nat, s': Sys)
    requires Inv(s) && t in s.local && s.local[t] == UnlockAll(job, i) && s' == DoUnlockAll(s, t, job, i)
    ensures Inv(s')
  {
    assert BoundOk(s, s.local[t]);
    UnlockAllOwners(s, t, job, i, s');
    CalmInv(s, t, s');
  }

  /** A move between places where no mutex is held. */
  lemma OutsideInv(s: Sys, t: Thread, l': Local, flag: bool, s': Sys)
    requires Inv(s) && s' == At(s, t, l').(rehashing := flag) && Outside(LocalOf(s, t)) && Outside(l')
    ensures Inv(s')
  {
    OutsideOwners(s, t, s');
    CalmInv(s, t, s');
  }

  lemma OutsideOwners(s: Sys, t: Thread, s': Sys)
    requires OwnersInv(s) && s.stripes > 0 && Moves(s, t, s') && s'.owner == s.owner
    requires Outside(LocalOf(s, t)) && Outside(s'.local[t])
    ensures OwnersInv(s')
  {
    OwnersKept(s, t, s');
  }

  predicate Outside(l: Local) {
    l.Resting() || l.Lock? || l.Flag? || l.ClearFlag? || (l.LockAll? && l.i == 0)
  }

  /** A step of the thread that holds all mutexes, given what it leaves of the table. */
  lemma WholeInv(s: Sys, t: Thread, s': Sys)
    requires Inv(s) && Moves(s, t, s') && s'.owner == s.owner && ShapeInv(s') && SizeInv(s')
    requires LocalOf(s, t).Work? || LocalOf(s, t).Whole()
    requires s'.local[t].Whole() || (s'.local[t].UnlockAll? && s'.local[t].i == s.stripes)
    requires TableOk(s'.hash, s'.table, s'.data, s'.place, s'.local[t])
    ensures Inv(s')
  {
    OwnersKept(s, t, s');
    LocalsAlone(s, t, s');
    WholeMode(s, t, s');
  }

  /** Afterwards the mode is what the thread does, or nothing once it turns to unlocking. */
  lemma WholeMode(s: Sys, t: Thread, s': Sys)
    requires OwnersInv(s) && OwnersInv(s') && s.stripes > 0 && Moves(s, t, s')
    requires LocalOf(s, t).Work? || LocalOf(s, t).Whole()
    ensures Mode(s') == if s'.local[t].Whole() then s'.local[t] else Rest
  {
    if s'.local[t].Whole() {
      ModeIs(s', t);
    } else if Mode(s').Whole() {
      Alone(s, t, s'.owner[0]);
    }
  }

  lemma ModeBefore(s: Sys, t: Thread)
    requires OwnersInv(s) && s.stripes > 0 && (LocalOf(s, t).Work? || LocalOf(s, t).Whole())
    ensures Mode(s) == if LocalOf(s, t).Whole() then LocalOf(s, t) else Rest
  {
    OwnsWhatItHolds(s, t, 0);
  }

  /** With all mutexes in one hand nothing waits to be counted. */
  lemma NothingPending(s: Sys, t: Thread, k: Key)
    requires OwnersInv(s) && SizeInv(s) && s.stripes > 0 && (LocalOf(s, t).Work? || LocalOf(s, t).Whole())
    ensures k !in s.pending
  {
    if k in s.pending {
      StripeBound(s, k);
      HolderPending(s, t, k);
    }
  }

  lemma GrowInv(s: Sys, t: Thread, job: Job, s': Sys)
    requires Inv(s) && t in s.local && s.local[t] == Work(job) && job.Rehash? && s' == DoWork(s, t, job)
    ensures Inv(s')
  {
    ModeBefore(s, t);
    DoubledStart(s.hash, s.table, s.data, |s.table|);
    DoubledMod(|s.table|, s.stripes);
    GrowSize(s, t, s');
    WholeInv(s, t, s');
  }

  lemma WorkInv(s: Sys, t: Thread, job: Job, s': Sys)
    requires Inv(s) && t in s.local && s.local[t] == Work(job) && s' == DoWork(s, t, job)
    ensures Inv(s')
  {
    if job.Rehash? { GrowInv(s, t, job, s'); } else { StartWipeInv(s, t, s'); }
  }

  lemma DoubledMod(n: nat, m: nat)
    requires m > 0 && Mod(n, m) == 0
    ensures Mod(2 * n, m) == 0
  {
    ModIs(n, m);
    Doubled(n, m);
    ModIs(2 * n, m);
  }

  lemma GrowSize(s: Sys, t: Thread, s': Sys)
    requires SizeInv(s) && Moves(s, t, s') && Mode(s) == Rest && LocalOf(s, t).Work? && s'.local[t].Split?
    requires s'.data == s.data && s'.size == s.size && s'.counted == s.counted && s'.pending == s.pending
    ensures SizeInv(s')
  {
    SizeKept(s, t, s');
  }

  lemma StartWipeInv(s: Sys, t: Thread, s': Sys)
    requires Inv(s) && t in s.local && s.local[t] == Work(Clear) && s' == DoWork(s, t, Clear)
    ensures Inv(s')
  {
    forall k ensures k !in s.pending { NothingPending(s, t, k); }
    StartWipeMode(s, t, s');
    WholeInv(s, t, s');
  }

  lemma StartWipeMode(s: Sys, t: Thread, s': Sys)
    requires Inv(s) && t in s.local && s.local[t] == Work(Clear) && s' == DoWork(s, t, Clear)
    requires forall k :: k !in s.pending
    ensures SizeInv(s')
  {
    OwnersKept(s, t, s');
    WholeMode(s, t, s');
  }

  lemma WipeTable(t: Table, i: nat)
    requires i < |t| && Emptied(t, i)
    ensures Emptied(Put(t, i, []), i + 1) && |Put(t, i, [])| == |t|
  {
  }

  lemma WipeInv(s: Sys, t: Thread, i: nat, s': Sys)
    requires Inv(s) && t in s.local && s.local[t] == Wipe(i) && s' == DoWipe(s, t, i)
    ensures Inv(s')
  {
    ModeIs(s, t);
    if i < |s.table| {
      WipeTable(s.table, i);
    }
    SizeKept(s, t, s');
    WholeInv(s, t, s');
  }

  lemma {:induction false} EmptiedTotal(t: Table)
    requires Emptied(t, |t|)
    ensures Total(t) == 0
  {
    if t != [] {
      assert forall j :: 0 <= j < |t| - 1 ==> t[1..][j] == t[j + 1];
      EmptiedTotal(t[1..]);
    }
  }

  lemma EmptiedStores(t: Table, p: Places)
    requires Emptied(t, |t|)
    ensures Stores(t, map[], p)
  {
  }

  lemma ResetSize(s: Sys, t: Thread, s': Sys)
    requires Inv(s) && Moves(s, t, s') && LocalOf(s, t).Reset? && s'.local[t].UnlockAll?
    requires s'.data == s.data && s'.size == 0 && s'.counted == {} && s'.pending == s.pending
    ensures SizeInv(s')
  {
    ModeIs(s, t);
    forall k ensures k !in s.pending { NothingPending(s, t, k); }
  }

  lemma ResetInv(s: Sys, t: Thread, s': Sys)
    requires Inv(s) && t in s.local && s.local[t] == Reset
    requires s' == At(s, t, UnlockAll(Clear, s.stripes)).(size := 0, counted := {})
    ensures Inv(s')
  {
    ModeIs(s, t);
    EmptiedTotal(s.table);
    EmptiedStores(s.table, Homes(s.hash, map[], |s.table|));
    ResetSize(s, t, s');
    WholeInv(s, t, s');
  }

  /** One step of the splitting pass keeps the table true to the data. */
  lemma SplitMoves(h: Hasher, t: Table, c: Contents, p: Places, n: nat, j: nat, i: nat)
    requires Stores(t, c, p) && Splitting(h, t, n, j, i) && i < |t[j]| && Total(t) == |c|
    requires Index(h, t[j][i].key, |t|) != j
    ensures var to := Index(h, t[j][i].key, |t|);
            var t' := Moved(t, j, i, to);
            && |t'| == |t| && Total(t') == |c| && Stores(t', c, p[t[j][i].key := to]) && Splitting(h, t', n, j, i)
            && i <= |t'[j]|
  {
    var to := Index(h, t[j][i].key, |t|);
    IndexIs(h, t[j][i].key, |t|);
    assert BucketOk(t[to], to, c, p);
    PositionRight(t[to], t[j][i].key);
    var x := Position(t[to], t[j][i].key);
    StoresMove(t, c, p, j, i, to, x);
    SplittingMove(h, t, n, j, i, to, x);
  }

  lemma SplitStays(h: Hasher, t: Table, n: nat, j: nat, i: nat)
    requires Splitting(h, t, n, j, i) && i < |t[j]| && Index(h, t[j][i].key, |t|) == j
    ensures Splitting(h, t, n, j, i + 1)
  {
    IndexIs(h, t[j][i].key, |t|);
  }

  lemma SplitStayInv(s: Sys, t: Thread, l: Local, s': Sys)
    requires Inv(s) && t in s.local && s.local[t] == l && l.Split? && s' == At(s, t, Split(l.job, l.n, l.j, l.i + 1))
    requires l.i < |Nth(s.table, l.j)| && Index(s.hash, s.table[l.j][l.i].key, |s.table|) == l.j
    ensures Inv(s')
  {
    ModeIs(s, t);
    SplitStays(s.hash, s.table, l.n, l.j, l.i);
    SizeKept(s, t, s');
    WholeInv(s, t, s');
  }

  lemma SplitMoveInv(s: Sys, t: Thread, l: Local, s': Sys)
    requires Inv(s) && t in s.local && s.local[t] == l && l.Split?
    requires l.i < |Nth(s.table, l.j)| && Index(s.hash, s.table[l.j][l.i].key, |s.table|) != l.j
    requires var to := Index(s.hash, s.table[l.j][l.i].key, |s.table|);
             s' == At(s, t, l).(table := Moved(s.table, l.j, l.i, to), place := s.place[s.table[l.j][l.i].key := to])
    ensures Inv(s')
  {
    ModeIs(s, t);
    SplitMoves(s.hash, s.table, s.data, s.place, l.n, l.j, l.i);
    SizeKept(s, t, s');
    WholeInv(s, t, s');
  }

  lemma SplitNextInv(s: Sys, t: Thread, l: Local, s': Sys)
    requires Inv(s) && t in s.local && s.local[t] == l && l.Split? && s' == At(s, t, Split(l.job, l.n, l.j + 1, 0))
    requires l.i >= |Nth(s.table, l.j)| && l.j + 1 < |s.table|
    ensures Inv(s')
  {
    ModeIs(s, t);
    SplittingNext(s.hash, s.table, l.n, l.j);
    SizeKept(s, t, s');
    WholeInv(s, t, s');
  }

  lemma SplitEndInv(s: Sys, t: Thread, l: Local, s': Sys)
    requires Inv(s) && t in s.local && s.local[t] == l && l.Split? && s' == At(s, t, UnlockAll(l.job, s.stripes))
    requires l.i >= |Nth(s.table, l.j)| && l.j + 1 >= |s.table|
    ensures Inv(s')
  {
    ModeIs(s, t);
    SplitDone(s.hash, s.table, s.data, s.place, l.n);
    SizeKept(s, t, s');
    WholeInv(s, t, s');
  }

  lemma SplitInv(s: Sys, t: Thread, l: Local, s': Sys)
    requires Inv(s) && t in s.local && s.local[t] == l && l.Split? && s' == DoSplit(s, t, l)
    ensures Inv(s')
  {
    ModeIs(s, t);
    var b := s.table[l.j];
    if l.i < |b| {
      if Index(s.hash, b[l.i].key, |s.table|) == l.j { SplitStayInv(s, t, l, s'); } else { SplitMoveInv(s, t, l, s'); }
    } else {
      if l.j + 1 < |s.table| { SplitNextInv(s, t, l, s'); } else { SplitEndInv(s, t, l, s'); }
    }
  }

  // ---------------------------------------------------------------------------
  // Every step
  // ---------------------------------------------------------------------------

  lemma SectionStep(s: Sys, t: Thread, l: Local, s': Sys)
    requires Inv(s) && t in s.local && s.local[t] == l && (l.List? || l.Scan? || l.Check?) && s' == GoSection(s, t, l)
    ensures Inv(s')
  {
    match l {
      case List(op) =>
        IndexIs(s.hash, op.k, |s.table|);
        SectionMove(s, t, Scan(op, Index(s.hash, op.k, |s.table|), 0));
      case Scan(op, j, i) => ScanInv(s, t, op, j, i, s');
      case Check(op, a) => SectionMove(s, t, s'.local[t]);
    }
  }

  lemma EdgeStep(s: Sys, t: Thread, l: Local, s': Sys)
    requires Inv(s) && t in s.local && s.local[t] == l && (l.Lock? || l.Apply? || l.Count? || l.Unlock?)
    requires s' == GoSection(s, t, l) && (l.Lock? ==> Stripe(s, l.op.k) !in s.owner)
    ensures Inv(s')
  {
    match l {
      case Lock(op) => LockInv(s, t, op, s');
      case Apply(op, j, i) => ApplyInv(s, t, op, j, i, s');
      case Count(op, a) => CountInv(s, t, op, a, s');
      case Unlock(_, _, _) => UnlockInv(s, t, l, s');
    }
  }

  lemma SectionRun(s: Sys, t: Thread, l: Local, s': Sys)
    requires Inv(s) && CanGo(s, t) && s.local[t] == l && (l.Single() || l.Lock?) && s' == GoSection(s, t, l)
    ensures Inv(s')
  {
    if l.List? || l.Scan? || l.Check? { SectionStep(s, t, l, s'); } else { EdgeStep(s, t, l, s'); }
  }

  lemma FlagRun(s: Sys, t: Thread, l: Local, s': Sys)
    requires Inv(s) && CanGo(s, t) && s.local[t] == l && (l.Flag? || l.ClearFlag?) && s' == GoFlag(s, t, l)
    ensures Inv(s')
  {
    OutsideInv(s, t, s'.local[t], s'.rehashing, s');
  }

  lemma WholeRun(s: Sys, t: Thread, l: Local, s': Sys)
    requires Inv(s) && CanGo(s, t) && s.local[t] == l && (l.LockAll? || l.Work? || l.Whole() || l.UnlockAll?)
    requires s' == GoWhole(s, t, l)
    ensures Inv(s')
  {
    match l {
      case LockAll(job, i) => LockAllInv(s, t, job, i, s');
      case Work(job) => WorkInv(s, t, job, s');
      case Split(_, _, _, _) => SplitInv(s, t, l, s');
      case Wipe(i) => WipeInv(s, t, i, s');
      case Reset => ResetInv(s, t, s');
      case UnlockAll(job, i) => UnlockAllInv(s, t, job, i, s');
    }
  }

  lemma RunInv(s: Sys, t: Thread, s': Sys)
    requires Inv(s) && CanGo(s, t) && s' == Go(s, t)
    ensures Inv(s')
  {
    var l := s.local[t];
    if l.Single() || l.Lock? {
      SectionRun(s, t, l, s');
    } else if l.Flag? || l.ClearFlag? {
      FlagRun(s, t, l, s');
    } else {
      WholeRun(s, t, l, s');
    }
  }

  lemma AnswerLinear(t: Thread, op: Op, j: nat, i: nat, m: Contents)
    ensures Linearizes(t, Apply(op, j, i), m, AfterApply(op, Expected(op, m)), Effect(op, m))
  {
  }

  /** The list update is where an operation takes effect, with the answer its bucket gave. */
  lemma ApplyLinear(s: Sys, t: Thread, l: Local, s': Sys)
    requires Inv(s) && t in s.local && s.local[t] == l && l.Apply? && s' == DoApply(s, t, l.op, l.j, l.i)
    ensures Follows(s, t, l, s')
  {
    FoundRight(s, t, l.op, l.j, l.i);
    AnswerLinear(t, l.op, l.j, l.i, s.data);
  }

  lemma RunStep(s: Sys, t: Thread, s': Sys)
    requires Inv(s) && CanGo(s, t) && s' == Go(s, t)
    ensures Inv(s') && Follows(s, t, s.local[t], s')
  {
    RunInv(s, t, s');
    if s.local[t].Apply? {
      ApplyLinear(s, t, s.local[t], s');
    }
  }

  /** What a step does to the plain map. */
  ghost predicate Sound(s: Sys, step: Step, s': Sys) {
    if step.Run? then step.t in s.local && Follows(s, step.t, s.local[step.t], s') else s'.data == s.data
  }

  lemma StepInv(s: Sys, step: Step, s': Sys)
    requires Inv(s) && Enabled(s, step) && s' == Next(s, step)
    ensures Inv(s') && Sound(s, step, s')
  {
    match step {
      case Call(t, op) => OutsideInv(s, t, Lock(op), s.rehashing, s');
      case CallClear(t) => OutsideInv(s, t, LockAll(Clear, 0), s.rehashing, s');
      case Run(t) => RunStep(s, t, s');
    }
  }

  // ---------------------------------------------------------------------------
  // Every run
  // ---------------------------------------------------------------------------

  predicate Runs(s: Sys, steps: seq<Step>)
    decreases |steps|
  {
    steps == [] || (Enabled(s, steps[0]) && Runs(Next(s, steps[0]), steps[1..]))
  }

  function After(s: Sys, steps: seq<Step>): Sys
    requires Runs(s, steps)
    decreases |steps|
  {
    if steps == [] then s else After(Next(s, steps[0]), steps[1..])
  }

  /** The call that takes effect at a step, if any. */
  function Emits(s: Sys, step: Step): seq<Event>
    requires Enabled(s, step)
  {
    if step.Run? && Fixed(step.t, s.local[step.t]).None? && step.t in Next(s, step).local then
      var r := Fixed(step.t, Next(s, step).local[step.t]);
      if r.Some? then [r.value] else []
    else []
  }

  function Log(s: Sys, steps: seq<Step>): seq<Event>
    requires Runs(s, steps)
    decreases |steps|
  {
    if steps == [] then [] else Emits(s, steps[0]) + Log(Next(s, steps[0]), steps[1..])
  }

  /** The events, one after another on a plain map, have these answers and lead from m to m'. */
  predicate Legal(m: Contents, log: seq<Event>, m': Contents)
    decreases |log|
  {
    if log == [] then m == m' else Right(log[0], m) && Legal(Outcome(log[0], m), log[1..], m')
  }

  lemma OneLegal(m: Contents, first: seq<Event>, rest: seq<Event>, m1: Contents, m': Contents)
    requires |first| <= 1 && Legal(m1, rest, m')
    requires if first == [] then m1 == m else Right(first[0], m) && m1 == Outcome(first[0], m)
    ensures Legal(m, first + rest, m')
  {
    if first == [] {
      assert first + rest == rest;
    } else {
      assert (first + rest)[1..] == rest;
    }
  }

  lemma {:induction false} LogLegal(s: Sys, steps: seq<Step>)
    requires Inv(s) && Runs(s, steps)
    ensures Inv(After(s, steps)) && Legal(s.data, Log(s, steps), After(s, steps).data)
    decreases |steps|
  {
    if steps != [] {
      var s1 := Next(s, steps[0]);
      StepInv(s, steps[0], s1);
      LogLegal(s1, steps[1..]);
      OneLegal(s.data, Emits(s, steps[0]), Log(s1, steps[1..]), s1.data, After(s, steps).data);
    }
  }

  /**
    In every interleaving, rehashes and clears included, the calls in the order in which they
    take effect form a legal history of a plain map. Outside a rehash or clear the buckets store
    exactly that map, sorted, each key where its hash says; with no mutex held the counter is
    the number of entries in the buckets.
  */
  lemma TableLinearizable(h: Hasher, n: nat, steps: seq<Step>)
    requires n > 0 && Runs(StartSys(h, n), steps)
    ensures var s := After(StartSys(h, n), steps);
            && Legal(map[], Log(StartSys(h, n), steps), s.data)
            && (Mode(s) == Rest ==> |s.table| > 0 && Stores(s.table, s.data, Homes(h, s.data, |s.table|)))
            && (s.owner == map[] ==> s.size == Total(s.table))
  {
    StartInv(h, n);
    LogLegal(StartSys(h, n), steps);
    var s := After(StartSys(h, n), steps);
    HashKept(StartSys(h, n), steps);
    if s.owner == map[] {
      QuietSize(s);
    }
  }

  lemma {:induction false} HashKept(s: Sys, steps: seq<Step>)
    requires Runs(s, steps)
    ensures After(s, steps).hash == s.hash
    decreases |steps|
  {
    if steps != [] {
      HashKept(Next(s, steps[0]), steps[1..]);
    }
  }

  /** With no mutex held, the counter is the number of entries in the buckets. */
  lemma QuietSize(s: Sys)
    requires Inv(s) && s.owner == map[]
    ensures s.size == Total(s.table) == |s.data|
  {
    forall k ensures k !in s.pending {
      if k in s.pending {
        PendingHeld(s, k);
      }
    }
    forall k ensures k in s.counted <==> k in s.data.Keys {
      assert k !in s.pending;
    }
    assert s.counted == s.data.Keys;
  }

  lemma PendingHeld(s: Sys, k: Key)
    requires Inv(s) && k in s.pending
    ensures Stripe(s, k) in s.owner
  {
    assert PendingOk(s, k, s.pending[k]);
    OwnsWhatItHolds(s, s.pending[k], Stripe(s, k));
  }

  /** No new call of thread t: the one in progress goes on. */
  predicate SameCall(steps: seq<Step>, t: Thread) {
    steps == [] || ((steps[0].t == t ==> steps[0].Run?) && SameCall(steps[1..], t))
  }

  function EventsOf(log: seq<Event>, t: Thread): seq<Event> {
    if log == [] then [] else (if log[0].t == t then [log[0]] else []) + EventsOf(log[1..], t)
  }

  lemma EventsOfConcat(a: seq<Event>, b: seq<Event>, t: Thread)
    requires |a| <= 1
    ensures EventsOf(a + b, t) == EventsOf(a, t) + EventsOf(b, t)
  {
    if |a| == 1 {
      assert (a + b)[1..] == b && a[1..] == [];
    } else {
      assert a + b == b;
    }
  }

  /** From r to r' a call took effect in the events: never, or once as r'. */
  predicate Decided(r: Option<Event>, events: seq<Event>, r': Option<Event>) {
    (r.Some? ==> r' == r) && events == if r.None? && r'.Some? then [r'.value] else []
  }

  lemma DecidedNone(r: Option<Event>)
    ensures Decided(r, [], r)
  {
  }

  lemma DecidedThen(r: Option<Event>, a: seq<Event>, r1: Option<Event>, b: seq<Event>, r': Option<Event>)
    requires Decided(r, a, r1) && Decided(r1, b, r')
    ensures Decided(r, a + b, r')
  {
  }

  lemma FixedThread(t: Thread, l: Local)
    ensures Fixed(t, l).Some? ==> Fixed(t, l).value.t == t
  {
  }

  lemma OwnStep(s: Sys, t: Thread, s': Sys)
    requires CanGo(s, t) && s' == Go(s, t) && Follows(s, t, s.local[t], s')
    ensures Decided(Fixed(t, s.local[t]), EventsOf(Emits(s, Run(t)), t), Fixed(t, s'.local[t]))
    ensures !s'.local[t].Rest? && Asked(s'.local[t]) == Asked(s.local[t])
  {
    FixedThread(t, s'.local[t]);
  }

  lemma OtherStep(s: Sys, step: Step, t: Thread, s': Sys)
    requires Enabled(s, step) && t in s.local && step.t != t && s' == Next(s, step)
    ensures t in s'.local && s'.local[t] == s.local[t] && EventsOf(Emits(s, step), t) == []
  {
    if step.Run? {
      FixedThread(step.t, s'.local[step.t]);
    }
  }

  /** What one step does to the call of t in progress. */
  lemma OneStep(s: Sys, step: Step, t: Thread, s': Sys)
    requires Inv(s) && Enabled(s, step) && (step.t == t ==> step.Run?) && s' == Next(s, step) && t in s.local && !s.local[t].Rest?
    ensures Inv(s') && t in s'.local && !s'.local[t].Rest? && Asked(s'.local[t]) == Asked(s.local[t])
    ensures Decided(Fixed(t, s.local[t]), EventsOf(Emits(s, step), t), Fixed(t, s'.local[t]))
  {
    StepInv(s, step, s');
    if step.t == t {
      OwnStep(s, t, s');
    } else {
      OtherStep(s, step, t, s');
      DecidedNone(Fixed(t, s.local[t]));
    }
  }

  /** Within one call a thread takes effect at most once, and keeps the answer. */
  lemma {:induction false} OneEvent(s: Sys, steps: seq<Step>, t: Thread)
    requires Inv(s) && Runs(s, steps) && SameCall(steps, t) && t in s.local && !s.local[t].Rest?
    ensures var s' := After(s, steps);
            && t in s'.local && !s'.local[t].Rest? && Asked(s'.local[t]) == Asked(s.local[t])
            && Decided(Fixed(t, s.local[t]), EventsOf(Log(s, steps), t), Fixed(t, s'.local[t]))
    decreases |steps|
  {
    if steps == [] {
      DecidedNone(Fixed(t, s.local[t]));
    } else {
      var s1 := Next(s, steps[0]);
      OneStep(s, steps[0], t, s1);
      OneEvent(s1, steps[1..], t);
      var a, b := Emits(s, steps[0]), Log(s1, steps[1..]);
      EventsOfConcat(a, b, t);
      DecidedThen(Fixed(t, s.local[t]), EventsOf(a, t), Fixed(t, s1.local[t]), EventsOf(b, t), Fixed(t, After(s, steps).local[t]));
    }
  }

  lemma AfterCall(s: Sys, call: Step, steps: seq<Step>, s1: Sys)
    requires Inv(s) && !call.Run? && Enabled(s, call) && s1 == Next(s, call) && Runs(s1, steps) && SameCall(steps, call.t)
    ensures var s' := After(s1, steps);
            && call.t in s'.local && Asked(s'.local[call.t]) == (if call.Call? then Some(call.op) else None)
            && Decided(None, EventsOf(Log(s1, steps), call.t), Fixed(call.t, s'.local[call.t]))
  {
    StepInv(s, call, s1);
    OneEvent(s1, steps, call.t);
  }

  lemma DoneDecided(t: Thread, l: Local, op: Option<Op>, events: seq<Event>)
    requires Asked(l) == op && Decided(None, events, Fixed(t, l))
    ensures l.Done? ==> op == Some(l.op) && events == [Did(t, l.op, l.a)]
    ensures l.Cleared? ==> events == [Wiped(t)]
  {
  }

  lemma ReturnedCall(s: Sys, call: Step, steps: seq<Step>, s1: Sys, l: Local)
    requires Inv(s) && !call.Run? && Enabled(s, call) && s1 == Next(s, call) && Runs(s1, steps) && SameCall(steps, call.t)
    requires l == LocalOf(After(s1, steps), call.t)
    ensures l.Done? && call.Call? ==> l.op == call.op && EventsOf(Log(s1, steps), call.t) == [Did(call.t, call.op, l.a)]
    ensures l.Cleared? ==> EventsOf(Log(s1, steps), call.t) == [Wiped(call.t)]
  {
    AfterCall(s, call, steps, s1);
    DoneDecided(call.t, l, if call.Call? then Some(call.op) else None, EventsOf(Log(s1, steps), call.t));
  }

  /**
    A call that returns took effect exactly once since it was made: an operation with the
    answer it returns, a Clear by emptying the map.
  */
  lemma CallTakesEffectOnce(h: Hasher, n: nat, earlier: seq<Step>, call: Step, steps: seq<Step>, s: Sys, l: Local)
    requires n > 0 && Runs(StartSys(h, n), earlier) && s == After(StartSys(h, n), earlier)
    requires !call.Run? && Enabled(s, call) && Runs(Next(s, call), steps) && SameCall(steps, call.t)
    requires l == LocalOf(After(Next(s, call), steps), call.t)
    ensures l.Done? && call.Call? ==>
              l.op == call.op && EventsOf(Log(Next(s, call), steps), call.t) == [Did(call.t, call.op, l.a)]
    ensures l.Cleared? ==> EventsOf(Log(Next(s, call), steps), call.t) == [Wiped(call.t)]
  {
    StartInv(h, n);
    LogLegal(StartSys(h, n), earlier);
    ReturnedCall(s, call, steps, Next(s, call), l);
  }

  /** However often the table has grown, keys of one bucket share one mutex. */
  lemma SameBucketSameMutex(h: Hasher, n: nat, steps: seq<Step>, s: Sys, k: Key, k': Key)
    requires n > 0 && Runs(StartSys(h, n), steps) && s == After(StartSys(h, n), steps)
    ensures |s.table| > 0 && (s.hash(k) % |s.table| == s.hash(k') % |s.table| ==> Stripe(s, k) == Stripe(s, k'))
  {
    StartInv(h, n);
    LogLegal(StartSys(h, n), steps);
    IndexIs(s.hash, k, |s.table|);
    IndexIs(s.hash, k', |s.table|);
    if s.hash(k) % |s.table| == s.hash(k') % |s.table| {
      SharedMutex(s, k, k');
    }
  }

  /** Two threads never work on one bucket at once, nor on any bucket while another rehashes or clears. */
  lemma BucketAccessExclusive(h: Hasher, n: nat, steps: seq<Step>, s: Sys, t: Thread, u: Thread)
    requires n > 0 && Runs(StartSys(h, n), steps) && s == After(StartSys(h, n), steps)
    requires t != u && LocalOf(s, t).Single()
    ensures !LocalOf(s, u).Work? && !LocalOf(s, u).Whole() && |s.table| > 0
    ensures LocalOf(s, u).Single() ==> s.hash(s.local[t].op.k) % |s.table| != s.hash(s.local[u].op.k) % |s.table|
  {
    StartInv(h, n);
    LogLegal(StartSys(h, n), steps);
    if LocalOf(s, u).Work? || LocalOf(s, u).Whole() {
      Alone(s, u, t);
    } else if LocalOf(s, u).Single() {
      IndexIs(s.hash, s.local[t].op.k, |s.table|);
      IndexIs(s.hash, s.local[u].op.k, |s.table|);
      SectionsApart(s, t, u);
    }
  }

  // ---------------------------------------------------------------------------
  // No deadlock
  // ---------------------------------------------------------------------------

  /** A thread that waits for mutex i while holding others leads to one further up, which can go on. */
  lemma {:induction false} LockAllProceeds(s: Sys, t: Thread) returns (u: Thread)
    requires Inv(s) && t in s.local && s.local[t].LockAll?
    ensures CanGo(s, u)
    decreases s.stripes - s.local[t].i
  {
    var i := s.local[t].i;
    if i !in s.owner {
      u := t;
    } else {
      var w := s.owner[i];
      assert Holds(s, s.local[w], i);
      if s.local[w].LockAll? {
        u := LockAllProceeds(s, w);
      } else {
        u := w;
      }
    }
  }

  lemma HolderProceeds(s: Sys, i: nat) returns (u: Thread)
    requires Inv(s) && i in s.owner
    ensures CanGo(s, u)
  {
    var w := s.owner[i];
    assert Holds(s, s.local[w], i);
    if s.local[w].LockAll? {
      u := LockAllProceeds(s, w);
    } else {
      u := w;
    }
  }

  /** Whenever an operation is under way, some thread can take its next step. */
  lemma NoDeadlock(h: Hasher, n: nat, steps: seq<Step>, s: Sys, t: Thread) returns (u: Thread)
    requires n > 0 && Runs(StartSys(h, n), steps) && s == After(StartSys(h, n), steps) && !LocalOf(s, t).Resting()
    ensures CanGo(s, u)
  {
    StartInv(h, n);
    LogLegal(StartSys(h, n), steps);
    var l := s.local[t];
    if l.LockAll? {
      u := LockAllProceeds(s, t);
    } else if l.Lock? && Stripe(s, l.op.k) in s.owner {
      u := HolderProceeds(s, Stripe(s, l.op.k));
    } else {
      u := t;
    }
  }

  // ---------------------------------------------------------------------------
  // A thread that runs alone finishes, and when it doubles the table
  // ---------------------------------------------------------------------------

  function Phase(l: Local): nat {
    match l
    case Lock(_) => 14
    case List(_) => 13
    case Scan(_, _, _) => 12
    case Apply(_, _, _) => 11
    case Count(_, _) => 10
    case Check(_, _) => 9
    case Unlock(_, _, _) => 8
    case Flag(_, _) => 7
    case LockAll(_, _) => 6
    case Work(_) => 5
    case Split(_, _, _, _) => 4
    case Wipe(_) => 4
    case Reset => 3
    case UnlockAll(_, _) => 2
    case ClearFlag(_, _) => 1
    case _ => 0
  }

  /** The entries of the buckets from j on, and the buckets themselves. */
  function Visits(t: Table, j: nat): nat
    requires j <= |t|
  {
    Total(t[j..]) + (|t| - j)
  }

  /** How much of its phase is left for a thread. */
  function Detail(s: Sys, l: Local): int {
    match l
    case Scan(_, j, i) => |Nth(s.table, j)| - i
    case LockAll(_, i) => s.stripes - i
    case Split(_, _, j, i) => if j <= |s.table| then Visits(s.table, j) - i else 0
    case Wipe(i) => |s.table| - i
    case UnlockAll(_, i) => i
    case _ => 0
  }

  /** How much is left in the bucket that Rehash is at. */
  function BucketLeft(s: Sys, l: Local): nat {
    if l.Split? then |Nth(s.table, l.j)| else 0
  }

  ghost predicate Nearer(s: Sys, l: Local, s': Sys, l': Local) {
    || Phase(l') < Phase(l)
    || (Phase(l') == Phase(l) && 0 <= Detail(s', l') < Detail(s, l))
    || (Phase(l') == Phase(l) && Detail(s', l') == Detail(s, l) && BucketLeft(s', l') < BucketLeft(s, l))
  }

  lemma SectionNearer(s: Sys, t: Thread, l: Local, s': Sys)
    requires LocalInv(s.hash, s.table, l) && (l.Single() || l.Lock?) && s' == GoSection(s, t, l)
    ensures Nearer(s, l, s', s'.local[t]) && (l.Scan? ==> s'.table == s.table)
  {
  }

  lemma FlagNearer(s: Sys, t: Thread, l: Local, s': Sys)
    requires (l.Flag? || l.ClearFlag?) && s' == GoFlag(s, t, l)
    ensures Nearer(s, l, s', s'.local[t])
  {
  }

  lemma WholeNearer(s: Sys, t: Thread, l: Local, s': Sys)
    requires (l.LockAll? || l.Work? || l.Wipe? || l.Reset? || l.UnlockAll?) && s' == GoWhole(s, t, l) && BoundOk(s, l)
    requires l.Wipe? ==> l.i <= |s.table|
    ensures Nearer(s, l, s', s'.local[t])
  {
  }

  lemma VisitsMove(t: Table, j: nat, to: nat, b: Bucket, c: Bucket)
    requires j < to < |t| && |b| == |t[to]| + 1 && |c| + 1 == |t[j]|
    ensures Visits(t[to := b][j := c], j) == Visits(t, j)
  {
    var u := t[j..];
    assert t[to := b][j := c][j..] == u[to - j := b][0 := c];
    TotalUpdate(u, to - j, b);
    TotalUpdate(u[to - j := b], 0, c);
  }

  lemma VisitsNext(t: Table, j: nat)
    requires j < |t|
    ensures Visits(t, j) == |t[j]| + 1 + Visits(t, j + 1)
  {
    assert t[j..][0] == t[j] && t[j..][1..] == t[j + 1..];
  }

  lemma SplitNearer(s: Sys, t: Thread, l: Local, s': Sys)
    requires |s.table| > 0 && TableOk(s.hash, s.table, s.data, s.place, l) && l.Split? && s' == DoSplit(s, t, l)
    ensures Nearer(s, l, s', s'.local[t])
  {
    var b := s.table[l.j];
    VisitsNext(s.table, l.j);
    if Target(s, l) != l.j {
      var to := Target(s, l);
      IndexIs(s.hash, b[l.i].key, |s.table|);
      PositionRight(s.table[to], b[l.i].key);
      SplittingMove(s.hash, s.table, l.n, l.j, l.i, to, Position(s.table[to], b[l.i].key));
      MoveAhead(s, l, to);
      VisitsMove(s.table, l.j, to, InsertAt(s.table[to], Position(s.table[to], b[l.i].key), b[l.i]), RemoveAt(b, l.i));
    }
  }

  lemma MoveAhead(s: Sys, l: Local, to: nat)
    requires l.Split? && Splitting(s.hash, s.table, l.n, l.j, l.i) && l.i < |s.table[l.j]|
    requires to == s.hash(s.table[l.j][l.i].key) % (2 * l.n) && to != l.j && to >= l.n
    ensures l.j < to
  {
    assert Home(s.hash, s.table[l.j], l.i, |s.table[l.j]|, l.j, if l.j < l.n then l.n else 2 * l.n);
  }

  /** Nobody but t holds a mutex. */
  ghost predicate OnlyHolder(s: Sys, t: Thread) {
    forall i :: i in s.owner ==> s.owner[i] == t
  }

  lemma SectionAlone(s: Sys, t: Thread, l: Local, s': Sys)
    requires OnlyHolder(s, t) && (l.Single() || l.Lock?) && s' == GoSection(s, t, l)
    ensures OnlyHolder(s', t)
  {
  }

  lemma WholeAlone(s: Sys, t: Thread, l: Local, s': Sys)
    requires OnlyHolder(s, t) && (l.LockAll? || l.Work? || l.Whole() || l.UnlockAll?) && s' == GoWhole(s, t, l)
    ensures OnlyHolder(s', t)
  {
  }

  lemma OneNearer(s: Sys, t: Thread, s': Sys)
    requires Inv(s) && OnlyHolder(s, t) && CanGo(s, t) && s' == Go(s, t)
    ensures OnlyHolder(s', t) && t in s'.local && Nearer(s, s.local[t], s', s'.local[t]) && !s'.local[t].Rest?
  {
    var l := s.local[t];
    assert LocalInv(s.hash, s.table, l) && BoundOk(s, l);
    if l.Single() || l.Lock? {
      SectionAlone(s, t, l, s');
      SectionNearer(s, t, l, s');
    } else if l.Flag? || l.ClearFlag? {
      FlagNearer(s, t, l, s');
    } else {
      WholeAlone(s, t, l, s');
      if l.Whole() {
        ModeIs(s, t);
      }
      if l.Split? {
        SplitNearer(s, t, l, s');
      } else {
        WholeNearer(s, t, l, s');
      }
    }
  }

  /** Behind the list update and the counting. */
  predicate PastUpdate(l: Local) {
    Phase(l) <= 9 && !l.Rest?
  }

  /** The thread is going to double the table. */
  predicate Grows(s: Sys, l: Local)
    requires |s.table| > 0
  {
    match l
    case Check(_, _) => !s.rehashing && s.size / |s.table| > 2
    case Unlock(_, _, need) => !s.rehashing && need
    case Flag(_, _) => !s.rehashing
    case LockAll(job, _) => job.Rehash?
    case Work(job) => job.Rehash?
    case _ => false
  }

  /** A step of t doubles the table, or leaves its size and what t is going to do about it. */
  ghost predicate GrowsRightly(s: Sys, l: Local, s': Sys, l': Local)
    requires |s.table| > 0
  {
    && |s'.table| > 0 && PastUpdate(l')
    && if l.Work? && l.job.Rehash? then |s'.table| == 2 * |s.table| && !Grows(s', l')
       else |s'.table| == |s.table| && Grows(s', l') == Grows(s, l)
  }

  lemma SectionGrows(s: Sys, t: Thread, l: Local, s': Sys)
    requires |s.table| > 0 && s.size >= 0 && (l.Check? || l.Unlock?) && s' == GoSection(s, t, l)
    ensures GrowsRightly(s, l, s', s'.local[t])
  {
    OverloadedIs(s.size, |s.table|);
  }

  lemma FlagGrows(s: Sys, t: Thread, l: Local, s': Sys)
    requires |s.table| > 0 && (l.Flag? || l.ClearFlag?) && s' == GoFlag(s, t, l)
    ensures GrowsRightly(s, l, s', s'.local[t])
  {
  }

  lemma WholeGrows(s: Sys, t: Thread, l: Local, s': Sys)
    requires |s.table| > 0 && (l.LockAll? || l.Work? || l.Whole() || l.UnlockAll?) && s' == GoWhole(s, t, l)
    ensures GrowsRightly(s, l, s', s'.local[t])
  {
  }

  lemma OneGrows(s: Sys, t: Thread, s': Sys)
    requires Inv(s) && CanGo(s, t) && s' == Go(s, t) && PastUpdate(s.local[t])
    ensures t in s'.local && GrowsRightly(s, s.local[t], s', s'.local[t])
  {
    var l := s.local[t];
    if l.Check? || l.Unlock? {
      SectionGrows(s, t, l, s');
    } else if l.Flag? || l.ClearFlag? {
      FlagGrows(s, t, l, s');
    } else {
      WholeGrows(s, t, l, s');
    }
  }

  /**
    From wherever it stands, a thread that runs alone while nobody else holds a mutex returns;
    behind its update it doubles the table exactly when the load exceeds 2 and no rehash is flagged.
  */
  lemma {:induction false} AloneReturns(s: Sys, t: Thread) returns (steps: seq<Step>, s': Sys)
    requires Inv(s) && t in s.local && OnlyHolder(s, t) && !s.local[t].Rest?
    ensures Runs(s, steps) && s' == After(s, steps) && t in s'.local && (s'.local[t].Done? || s'.local[t].Cleared?)
    ensures forall i :: 0 <= i < |steps| ==> steps[i] == Run(t)
    ensures PastUpdate(s.local[t]) ==> |s'.table| == if Grows(s, s.local[t]) then 2 * |s.table| else |s.table|
    decreases Phase(s.local[t]), Detail(s, s.local[t]), BucketLeft(s, s.local[t])
  {
    if s.local[t].Resting() {
      steps, s' := [], s;
    } else {
      var s1 := AloneStep(s, t);
      var rest;
      rest, s' := AloneReturns(s1, t);
      steps := [Run(t)] + rest;
      assert steps[1..] == rest;
    }
  }

  lemma AloneStep(s: Sys, t: Thread) returns (s1: Sys)
    requires Inv(s) && t in s.local && OnlyHolder(s, t) && !s.local[t].Resting()
    ensures Enabled(s, Run(t)) && s1 == Next(s, Run(t)) && Inv(s1) && OnlyHolder(s1, t) && t in s1.local && !s1.local[t].Rest?
    ensures Nearer(s, s.local[t], s1, s1.local[t])
    ensures PastUpdate(s.local[t]) ==> GrowsRightly(s, s.local[t], s1, s1.local[t])
  {
    AloneCanGo(s, t);
    s1 := Go(s, t);
    StepInv(s, Run(t), s1);
    OneNearer(s, t, s1);
    if PastUpdate(s.local[t]) {
      OneGrows(s, t, s1);
    }
  }

  lemma AloneCanGo(s: Sys, t: Thread)
    requires OwnersInv(s) && t in s.local && OnlyHolder(s, t) && !s.local[t].Resting()
    ensures CanGo(s, t)
  {
    var w := Wanted(s, s.local[t]);
    if w.Some? && w.value in s.owner {
      assert Holds(s, s.local[t], w.value);
    }
  }

  /** In every reachable state with all mutexes free, any call can be completed by its own thread alone. */
  lemma CallCompletes(h: Hasher, n: nat, earlier: seq<Step>, s: Sys, t: Thread) returns (steps: seq<Step>, s': Sys)
    requires n > 0 && Runs(StartSys(h, n), earlier) && s == After(StartSys(h, n), earlier)
    requires t in s.local && !s.local[t].Rest? && s.owner == map[]
    ensures Runs(s, steps) && s' == After(s, steps) && t in s'.local && (s'.local[t].Done? || s'.local[t].Cleared?)
  {
    StartInv(h, n);
    LogLegal(StartSys(h, n), earlier);
    steps, s' := AloneReturns(s, t);
  }

  lemma SectionKeepsSize(s: Sys, t: Thread, l: Local, s': Sys)
    requires (l.Single() || l.Lock?) && s' == GoSection(s, t, l)
    ensures |s'.table| == |s.table|
  {
  }

  /** The table keeps its size, or a Rehash doubles it. */
  predicate Doubles(s: Sys, step: Step, s': Sys) {
    || |s'.table| == |s.table|
    || (step.Run? && LocalOf(s, step.t).Work? && LocalOf(s, step.t).job.Rehash? && |s'.table| == 2 * |s.table|)
  }

  lemma StepDoubles(s: Sys, step: Step, s': Sys)
    requires Inv(s) && Enabled(s, step) && s' == Next(s, step)
    ensures Doubles(s, step, s')
  {
    if step.Run? {
      if PastUpdate(s.local[step.t]) {
        OneGrows(s, step.t, s');
      } else {
        SectionKeepsSize(s, step.t, s.local[step.t], s');
      }
    }
  }

  /** In every run the table grows only by doubling, in a Rehash. */
  lemma GrowsByDoubling(h: Hasher, n: nat, earlier: seq<Step>, s: Sys, step: Step, s': Sys)
    requires n > 0 && Runs(StartSys(h, n), earlier) && s == After(StartSys(h, n), earlier)
    requires Enabled(s, step) && s' == Next(s, step)
    ensures Doubles(s, step, s')
  {
    StartInv(h, n);
    LogLegal(StartSys(h, n), earlier);
    StepDoubles(s, step, s');
  }
}
