/**
  The bounded multi-producer multi-consumer queue: a ring of generation-stamped slots, two
  claim counters advanced by weak CAS. Every load, CAS, value access and fetch_add is one step.
*/
module Mpmc {
  import opened Common

  type Thread = nat

  // ---------------------------------------------------------------------------
  // The ring index
  // ---------------------------------------------------------------------------

  /** Bitwise conjunction of natural numbers. */
  function And(a: nat, b: nat): nat {
    if a == 0 || b == 0 then 0 else 2 * And(a / 2, b / 2) + (a % 2) * (b % 2)
  }

  /** Masking with size - 1 is the remainder, because the size is a power of two. */
  lemma {:induction false} MaskIsRemainder(a: nat, bits: nat)
    ensures And(a, Pow2(bits) - 1) == a % Pow2(bits)
  {
    if a == 0 {
      Remainder(0, Pow2(bits), 0, 0);
    } else if bits > 0 {
      MaskIsRemainder(a / 2, bits - 1);
      HalveMask(a, Pow2(bits - 1), Pow2(bits));
    }
  }

  lemma HalveMask(a: nat, half: nat, n: nat)
    requires a > 0 && half > 0 && n == 2 * half && And(a / 2, half - 1) == a / 2 % half
    ensures And(a, n - 1) == a % n
  {
    AndStep(a, half);
    HalvedRemainder(a, half);
  }

  lemma AndStep(a: nat, half: nat)
    requires a > 0 && half > 0
    ensures And(a, 2 * half - 1) == 2 * And(a / 2, half - 1) + a % 2
  {
    assert (2 * half - 1) / 2 == half - 1 && (2 * half - 1) % 2 == 1;
  }

  lemma HalvedRemainder(a: nat, half: nat)
    requires half > 0
    ensures 2 * (a / 2 % half) + a % 2 == a % (2 * half)
  {
    var q, r := a / 2 / half, a / 2 % half;
    assert a == 2 * (q * half + r) + a % 2;
    assert a == q * (2 * half) + (2 * r + a % 2);
    Remainder(a, 2 * half, q, 2 * r + a % 2);
  }

  /** Positions in one slot are whole rounds apart. */
  lemma SameSlot(p: nat, q: nat, n: nat)
    requires n > 0 && p % n == q % n && p < q + n && q < p + n
    ensures p == q
  {
    assert p == p / n * n + p % n && q == q / n * n + q % n;
    assert (p / n - q / n) * n == p - q;
    MultipleBelow(p / n - q / n, n);
  }

  lemma NextRound(p: nat, n: nat)
    requires n > 0
    ensures (p + n) % n == p % n
  {
    Remainder(p + n, n, p / n + 1, p % n);
  }

  // ---------------------------------------------------------------------------
  // The queue and its threads
  // ---------------------------------------------------------------------------

  datatype Local =
    | Idle
    | EnqLoad(v: int)
    | EnqCheck(v: int, tail: nat)
    | EnqCas(v: int, tail: nat)
    | EnqWrite(v: int, p: nat)
    | EnqPublish(v: int, p: nat)
    | EnqDone(ok: bool)
    | DeqLoad
    | DeqCheck(head: nat)
    | DeqCas(head: nat)
    | DeqRead(p: nat)
    | DeqFree(p: nat, data: int)
    | DeqDone(result: Option<int>)
  {
    /** The thread is about to access, or has just accessed, the value of a claimed slot. */
    predicate Owning() { EnqWrite? || EnqPublish? || DeqRead? || DeqFree? }

    predicate Resting() { Idle? || EnqDone? || DeqDone? }
  }

  /**
    Auxiliary: at[i] is the position slot i currently serves, owner[i] the thread between its
    claim of slot i and its fetch_add, sent[p] the value of the Enqueue that claimed position p.
  */
  datatype Queue = Queue(
    bits: nat, head: nat, tail: nat, generation: seq<nat>, value: seq<int>, local: map<Thread, Local>,
    at: seq<nat>, owner: map<nat, Thread>, sent: seq<int>)
  {
    function Size(): nat { Pow2(bits) }

    function Index(p: nat): nat { And(p, Size() - 1) }

    function Gen(p: nat): nat {
      if Index(p) < |generation| then generation[Index(p)] else 0
    }

    function Val(p: nat): int {
      if Index(p) < |value| then value[Index(p)] else 0
    }
  }

  function StartQueue(bits: nat, values: seq<int>): Queue
    requires |values| == Pow2(bits)
  {
    var n := Pow2(bits);
    Queue(bits, 0, 0, seq(n, i requires 0 <= i < n => i), values, map[], seq(n, i requires 0 <= i < n => i), map[], [])
  }

  /** What the scheduler and the hardware choose: a spurious CAS failure, a moved-from value. */
  datatype Choice = Choice(weakFails: bool, junk: int)

  function At(q: Queue, t: Thread, l: Local): Queue {
    q.(local := q.local[t := l])
  }

  function Put<T>(s: seq<T>, i: nat, x: T): seq<T> {
    if i < |s| then s[i := x] else s
  }

  function EnqClaim(q: Queue, t: Thread, l: Local): Queue
    requires l.EnqCas?
  {
    At(q, t, EnqWrite(l.v, l.tail))
      .(tail := l.tail + 1, owner := q.owner[q.Index(l.tail) := t], sent := q.sent + [l.v])
  }

  function DeqClaim(q: Queue, t: Thread, l: Local): Queue
    requires l.DeqCas?
  {
    At(q, t, DeqRead(l.head)).(head := l.head + 1, owner := q.owner[q.Index(l.head) := t])
  }

  function Write(q: Queue, t: Thread, l: Local): Queue
    requires l.EnqWrite?
  {
    At(q, t, EnqPublish(l.v, l.p)).(value := Put(q.value, q.Index(l.p), l.v))
  }

  function Publish(q: Queue, t: Thread, l: Local): Queue
    requires l.EnqPublish?
  {
    At(q, t, EnqDone(true))
      .(generation := Put(q.generation, q.Index(l.p), q.Gen(l.p) + 1), owner := q.owner - {q.Index(l.p)})
  }

  function Take(q: Queue, t: Thread, l: Local, junk: int): Queue
    requires l.DeqRead?
  {
    At(q, t, DeqFree(l.p, q.Val(l.p))).(value := Put(q.value, q.Index(l.p), junk))
  }

  function Free(q: Queue, t: Thread, l: Local): Queue
    requires l.DeqFree?
  {
    At(q, t, DeqDone(Some(l.data)))
      .(generation := Put(q.generation, q.Index(l.p), q.Gen(l.p) + (q.Size() - 1)),
        at := Put(q.at, q.Index(l.p), l.p + q.Size()), owner := q.owner - {q.Index(l.p)})
  }

  predicate CanGo(q: Queue, t: Thread) {
    t in q.local && !q.local[t].Resting()
  }

  function Go(q: Queue, t: Thread, c: Choice): Queue
    requires CanGo(q, t)
  {
    var l := q.local[t];
    match l
    case EnqLoad(v) => At(q, t, EnqCheck(v, q.tail))
    case EnqCheck(v, tail) =>
      At(q, t, if q.Gen(tail) + (q.Size() - 1) <= tail then EnqDone(false) else EnqCas(v, tail))
    case EnqCas(v, tail) =>
      if q.tail == tail && !c.weakFails then EnqClaim(q, t, l) else At(q, t, EnqCheck(v, q.tail))
    case EnqWrite(_, _) => Write(q, t, l)
    case EnqPublish(_, _) => Publish(q, t, l)
    case DeqLoad => At(q, t, DeqCheck(q.head))
    case DeqCheck(head) => At(q, t, if q.Gen(head) < head + 1 then DeqDone(None) else DeqCas(head))
    case DeqCas(head) =>
      if q.head == head && !c.weakFails then DeqClaim(q, t, l) else At(q, t, DeqCheck(q.head))
    case DeqRead(_) => Take(q, t, l, c.junk)
    case DeqFree(_, _) => Free(q, t, l)
    case _ => q
  }

  datatype Step = CallEnqueue(t: Thread, v: int) | CallDequeue(t: Thread) | Run(t: Thread, c: Choice)

  predicate Enabled(q: Queue, step: Step) {
    match step
    case CallEnqueue(t, _) => t in q.local ==> q.local[t].Resting()
    case CallDequeue(t) => t in q.local ==> q.local[t].Resting()
    case Run(t, _) => CanGo(q, t)
  }

  function Next(q: Queue, step: Step): Queue
    requires Enabled(q, step)
  {
    match step
    case CallEnqueue(t, v) => At(q, t, EnqLoad(v))
    case CallDequeue(t) => At(q, t, DeqLoad)
    case Run(t, c) => Go(q, t, c)
  }

  // ---------------------------------------------------------------------------
  // The invariant
  // ---------------------------------------------------------------------------

  predicate Shape(q: Queue) {
    && q.bits >= 1 && |q.generation| == |q.value| == |q.at| == q.Size()
    && q.head <= q.tail <= q.head + q.Size() && |q.sent| == q.tail
  }

  /** Slot i serves position p with generation g: either p may still be enqueued or p is stored. */
  predicate SlotOk(q: Queue, i: nat, p: nat, g: nat, v: int, owned: bool) {
    && q.Index(p) == i && (g == p || g == p + 1)
    && p < q.head + q.Size() && q.tail <= p + q.Size()
    && (g == p ==> q.head <= p && (!owned ==> q.tail <= p))
    && (g == p + 1 ==> p < q.tail && (!owned ==> q.head <= p && p < |q.sent| && v == q.sent[p]))
  }

  predicate SlotsInv(q: Queue)
    requires Shape(q)
  {
    forall i :: 0 <= i < q.Size() ==> SlotOk(q, i, q.at[i], q.generation[i], q.value[i], i in q.owner)
  }

  predicate Owns(q: Queue, t: Thread, p: nat) {
    q.Index(p) in q.owner && q.owner[q.Index(p)] == t && q.Index(p) < |q.at| && q.at[q.Index(p)] == p
  }

  predicate LocalInv(q: Queue, t: Thread, l: Local) {
    match l
    case EnqCheck(_, tail) => tail <= q.tail
    case EnqCas(_, tail) => tail <= q.tail && tail <= q.Gen(tail)
    case EnqWrite(v, p) => Owns(q, t, p) && p < q.tail && q.Gen(p) == p && p < |q.sent| && q.sent[p] == v
    case EnqPublish(v, p) =>
      Owns(q, t, p) && p < q.tail && q.Gen(p) == p && p < |q.sent| && q.sent[p] == v && q.Val(p) == v
    case DeqCheck(head) => head <= q.head
    case DeqCas(head) => head <= q.head && head + 1 <= q.Gen(head)
    case DeqRead(p) => Owns(q, t, p) && p < q.head && q.Gen(p) == p + 1 && p < |q.sent| && q.Val(p) == q.sent[p]
    case DeqFree(p, data) => Owns(q, t, p) && p < q.head && q.Gen(p) == p + 1 && p < |q.sent| && data == q.sent[p]
    case _ => true
  }

  predicate LocalsInv(q: Queue) {
    forall t :: t in q.local ==> LocalInv(q, t, q.local[t])
  }

  predicate OwnerOk(q: Queue, i: nat, t: Thread) {
    t in q.local && q.local[t].Owning() && q.Index(q.local[t].p) == i
  }

  predicate OwnersInv(q: Queue) {
    forall i :: i in q.owner ==> OwnerOk(q, i, q.owner[i])
  }

  predicate Inv(q: Queue) {
    Shape(q) && SlotsInv(q) && LocalsInv(q) && OwnersInv(q)
  }

  lemma IndexBound(q: Queue, p: nat)
    ensures q.Index(p) == p % q.Size() < q.Size()
  {
    MaskIsRemainder(p, q.bits);
  }

  lemma IndexSame(q: Queue, p: nat, r: nat)
    requires q.Index(p) == q.Index(r) && p < r + q.Size() && r < p + q.Size()
    ensures p == r
  {
    IndexBound(q, p);
    IndexBound(q, r);
    SameSlot(p, r, q.Size());
  }

  lemma IndexRound(q: Queue, p: nat)
    ensures q.Index(p + q.Size()) == q.Index(p)
  {
    IndexBound(q, p);
    IndexBound(q, p + q.Size());
    NextRound(p, q.Size());
  }

  lemma IndexSmall(q: Queue, i: nat)
    requires i < q.Size()
    ensures q.Index(i) == i
  {
    IndexBound(q, i);
    Remainder(i, q.Size(), 0, i);
  }

  lemma StartQueueInv(bits: nat, values: seq<int>)
    requires bits >= 1 && |values| == Pow2(bits)
    ensures Inv(StartQueue(bits, values))
  {
    var q := StartQueue(bits, values);
    forall i | 0 <= i < q.Size() ensures SlotOk(q, i, q.at[i], q.generation[i], q.value[i], i in q.owner) {
      IndexSmall(q, i);
    }
  }

  // ---------------------------------------------------------------------------
  // What a generation tells about a position
  // ---------------------------------------------------------------------------

  /** The slot of position p, as the invariant describes it. */
  lemma SlotOf(q: Queue, p: nat)
    requires Shape(q) && SlotsInv(q)
    ensures var i := q.Index(p);
            && i < q.Size() && i < |q.at| && q.Gen(p) == q.generation[i] && q.Val(p) == q.value[i]
            && SlotOk(q, i, q.at[i], q.generation[i], q.value[i], i in q.owner)
  {
    IndexBound(q, p);
  }

  /**
    Enqueue's test on a tail value read earlier: it fails exactly when that value is still
    the tail and the position one round before has not been released.
  */
  lemma FullTest(q: Queue, p: nat)
    requires Shape(q) && SlotsInv(q) && p <= q.tail
    ensures var i := q.Index(p);
            && i < |q.at|
            && (q.Gen(p) + (q.Size() - 1) <= p <==> p == q.tail && q.at[i] + q.Size() == p)
            && (q.Gen(p) + (q.Size() - 1) > p ==> q.Gen(p) >= p)
  {
    SlotOf(q, p);
    var i := q.Index(p);
    var s := q.at[i];
    Rounds(q, s, p);
  }

  /** Two positions of one slot are equal or at least a round apart. */
  lemma Rounds(q: Queue, s: nat, p: nat)
    requires q.Index(s) == q.Index(p)
    ensures s == p || s + q.Size() <= p || p + q.Size() <= s
  {
    if s < p + q.Size() && p < s + q.Size() {
      IndexSame(q, s, p);
    }
  }

  /**
    Dequeue's test on a head value read earlier: it fails exactly when that value is still
    the head and nothing has been published there.
  */
  lemma EmptyTest(q: Queue, p: nat)
    requires Shape(q) && SlotsInv(q) && p <= q.head
    ensures q.Gen(p) < p + 1 <==> p == q.head && q.Gen(p) <= p
    ensures q.Gen(p) < p + 1 ==> q.tail <= p || q.Gen(p) == p
  {
    SlotOf(q, p);
    Rounds(q, q.at[q.Index(p)], p);
  }

  // ---------------------------------------------------------------------------
  // Frames: a step touches at most slot k, which no other thread owns
  // ---------------------------------------------------------------------------

  ghost predicate SlotFrame(q: Queue, q': Queue, k: nat) {
    && q'.bits == q.bits && |q.generation| == |q'.generation| && |q.value| == |q'.value| && |q.at| == |q'.at|
    && |q.at| == |q.value| == |q.generation|
    && (forall j :: 0 <= j < |q.at| && j != k ==>
          q'.generation[j] == q.generation[j] && q'.value[j] == q.value[j] && q'.at[j] == q.at[j])
    && (k < |q.at| ==> q'.generation[k] >= q.generation[k])
  }

  ghost predicate OwnerFrame(q: Queue, q': Queue, k: nat) {
    forall j :: j != k ==> (j in q'.owner <==> j in q.owner) && (j in q.owner ==> q'.owner[j] == q.owner[j])
  }

  ghost predicate CounterFrame(q: Queue, q': Queue) {
    q.tail <= q'.tail && q.head <= q'.head && |q.sent| <= |q'.sent|
    && forall p :: 0 <= p < |q.sent| ==> q'.sent[p] == q.sent[p]
  }

  lemma OtherThread(q: Queue, q': Queue, k: nat, t: Thread, u: Thread, l: Local)
    requires LocalInv(q, u, l) && u != t && |q.at| == q.Size()
    requires SlotFrame(q, q', k) && OwnerFrame(q, q', k) && CounterFrame(q, q')
    requires k in q.owner ==> q.owner[k] == t
    ensures LocalInv(q', u, l)
  {
    if l.EnqCas? { IndexBound(q, l.tail); }
    if l.DeqCas? { IndexBound(q, l.head); }
    if l.Owning() { IndexBound(q, l.p); }
  }

  lemma OwnersAfter(q: Queue, q': Queue, k: nat, t: Thread)
    requires OwnersInv(q) && t in q'.local && q'.local == q.local[t := q'.local[t]] && q'.bits == q.bits
    requires OwnerFrame(q, q', k)
    requires k in q'.owner ==> q'.owner[k] == t && q'.local[t].Owning() && q.Index(q'.local[t].p) == k
    requires t in q.local && q.local[t].Owning() ==> q.Index(q.local[t].p) == k
    ensures OwnersInv(q')
  {
    forall j | j in q'.owner ensures OwnerOk(q', j, q'.owner[j]) {
      if j != k {
        assert OwnerOk(q, j, q.owner[j]);
      }
    }
  }

  lemma LocalsAfter(q: Queue, q': Queue, k: nat, t: Thread)
    requires LocalsInv(q) && OwnersInv(q) && |q.at| == q.Size() && t in q'.local
    requires q'.local == q.local[t := q'.local[t]] && LocalInv(q', t, q'.local[t])
    requires SlotFrame(q, q', k) && OwnerFrame(q, q', k) && CounterFrame(q, q')
    requires k in q.owner ==> q.owner[k] == t
    requires k in q'.owner ==> q'.owner[k] == t && q'.local[t].Owning() && q.Index(q'.local[t].p) == k
    requires t in q.local && q.local[t].Owning() ==> q.Index(q.local[t].p) == k
    ensures LocalsInv(q') && OwnersInv(q')
  {
    OwnersAfter(q, q', k, t);
    forall u | u in q'.local ensures LocalInv(q', u, q'.local[u]) {
      if u != t {
        OtherThread(q, q', k, t, u, q.local[u]);
      }
    }
  }

  /** An owned slot serves a position claimed by a producer or by a consumer. */
  lemma OwnedSlot(q: Queue, k: nat)
    requires Inv(q) && k in q.owner
    ensures k < q.Size()
    ensures (q.generation[k] == q.at[k] < q.tail) || (q.generation[k] == q.at[k] + 1 && q.at[k] < q.head)
  {
    var u := q.owner[k];
    assert OwnerOk(q, k, u);
    assert LocalInv(q, u, q.local[u]);
    IndexBound(q, q.local[u].p);
  }

  /** A step that only moves a thread that owns nothing. */
  lemma SimpleInv(q: Queue, t: Thread, l: Local)
    requires Inv(q) && (t in q.local ==> !q.local[t].Owning()) && !l.Owning() && LocalInv(q, t, l)
    ensures Inv(At(q, t, l))
  {
    var k := |q.at|;
    if k in q.owner {
      OwnedSlot(q, k);
    }
    LocalsAfter(q, At(q, t, l), k, t);
    SimpleSlots(q, At(q, t, l));
  }

  lemma SimpleSlots(q: Queue, q': Queue)
    requires Shape(q) && SlotsInv(q) && q' == q.(local := q'.local)
    ensures Shape(q') && SlotsInv(q')
  {
    forall i | 0 <= i < q'.Size() ensures SlotOk(q', i, q'.at[i], q'.generation[i], q'.value[i], i in q'.owner) {
      assert SlotOk(q, i, q.at[i], q.generation[i], q.value[i], i in q.owner);
    }
  }

  // ---------------------------------------------------------------------------
  // Steps
  // ---------------------------------------------------------------------------

  /** When the CAS on tail_ succeeds, the slot serves that very position and nobody owns it. */
  lemma EnqSlotFree(q: Queue, p: nat)
    requires Inv(q) && p == q.tail && p <= q.Gen(p)
    ensures var k := q.Index(p); k < q.Size() && q.at[k] == p && q.generation[k] == p && k !in q.owner
    ensures q.tail < q.head + q.Size()
  {
    SlotOf(q, p);
    var k := q.Index(p);
    Rounds(q, q.at[k], p);
    if k in q.owner {
      OwnedSlot(q, k);
    }
  }

  lemma EnqClaimSlots(q: Queue, q': Queue, t: Thread, p: nat)
    requires Shape(q) && SlotsInv(q) && p == q.tail && Shape(q')
    requires var k := q.Index(p); k < q.Size() && q.at[k] == p && q.generation[k] == p
    requires q' == q.(tail := p + 1, owner := q.owner[q.Index(p) := t], sent := q'.sent, local := q'.local)
    requires |q'.sent| == p + 1 && q'.sent[..p] == q.sent
    ensures SlotsInv(q')
  {
    var k := q.Index(p);
    forall i | 0 <= i < q'.Size() ensures SlotOk(q', i, q'.at[i], q'.generation[i], q'.value[i], i in q'.owner) {
      assert SlotOk(q, i, q.at[i], q.generation[i], q.value[i], i in q.owner);
      if i != k {
        IndexRound(q, q.at[i]);
        assert q.at[i] != p && q.at[i] + q.Size() != p;
        if q.at[i] < |q.sent| { assert q'.sent[..p][q.at[i]] == q'.sent[q.at[i]]; }
      }
    }
  }

  lemma EnqClaimInv(q: Queue, t: Thread, l: Local, q': Queue)
    requires Inv(q) && t in q.local && q.local[t] == l && l.EnqCas? && q.tail == l.tail && q' == EnqClaim(q, t, l)
    ensures Inv(q') && q'.local[t] == EnqWrite(l.v, q.tail)
  {
    assert LocalInv(q, t, l);
    EnqSlotFree(q, l.tail);
    EnqClaimSlots(q, q', t, l.tail);
    LocalsAfter(q, q', q.Index(l.tail), t);
  }

  /** When the CAS on head_ succeeds, the slot holds that very position and nobody owns it. */
  lemma DeqSlotStored(q: Queue, p: nat)
    requires Inv(q) && p == q.head && p + 1 <= q.Gen(p)
    ensures var k := q.Index(p);
            && k < q.Size() && q.at[k] == p && q.generation[k] == p + 1 && k !in q.owner
            && p < |q.sent| && q.value[k] == q.sent[p]
    ensures q.head < q.tail
  {
    SlotOf(q, p);
    var k := q.Index(p);
    Rounds(q, q.at[k], p);
    if k in q.owner {
      OwnedSlot(q, k);
    }
  }

  lemma DeqClaimSlots(q: Queue, q': Queue, t: Thread, p: nat)
    requires Shape(q) && SlotsInv(q) && p == q.head && Shape(q')
    requires var k := q.Index(p); k < q.Size() && q.at[k] == p && q.generation[k] == p + 1
    requires q' == q.(head := p + 1, owner := q.owner[q.Index(p) := t], local := q'.local)
    ensures SlotsInv(q')
  {
    var k := q.Index(p);
    forall i | 0 <= i < q'.Size() ensures SlotOk(q', i, q'.at[i], q'.generation[i], q'.value[i], i in q'.owner) {
      assert SlotOk(q, i, q.at[i], q.generation[i], q.value[i], i in q.owner);
      if i != k {
        assert q.at[i] != p;
      }
    }
  }

  lemma DeqClaimInv(q: Queue, t: Thread, l: Local, q': Queue)
    requires Inv(q) && t in q.local && q.local[t] == l && l.DeqCas? && q.head == l.head && q' == DeqClaim(q, t, l)
    ensures Inv(q') && q'.local[t] == DeqRead(q.head)
  {
    assert LocalInv(q, t, l);
    DeqSlotStored(q, l.head);
    DeqClaimSlots(q, q', t, l.head);
    LocalsAfter(q, q', q.Index(l.head), t);
  }

  /** A step of the owner of slot k that leaves the counters alone. */
  lemma OwnerStep(q: Queue, q': Queue, t: Thread, p: nat)
    requires Inv(q) && t in q.local && q.local[t].Owning() && q.local[t].p == p
    requires SlotFrame(q, q', q.Index(p)) && OwnerFrame(q, q', q.Index(p))
    requires q'.head == q.head && q'.tail == q.tail && q'.sent == q.sent
    requires t in q'.local && q'.local == q.local[t := q'.local[t]] && LocalInv(q', t, q'.local[t])
    requires q.Index(p) in q'.owner ==> q'.owner[q.Index(p)] == t && q'.local[t].Owning() && q'.local[t].p == p
    requires q.Index(p) < q.Size() ==>
               SlotOk(q', q.Index(p), q'.at[q.Index(p)], q'.generation[q.Index(p)], q'.value[q.Index(p)], q.Index(p) in q'.owner)
    ensures Inv(q')
  {
    var k := q.Index(p);
    IndexBound(q, p);
    assert LocalInv(q, t, q.local[t]);
    LocalsAfter(q, q', k, t);
    forall i | 0 <= i < q'.Size() ensures SlotOk(q', i, q'.at[i], q'.generation[i], q'.value[i], i in q'.owner) {
      if i != k {
        assert SlotOk(q, i, q.at[i], q.generation[i], q.value[i], i in q.owner);
      }
    }
  }

  lemma WriteInv(q: Queue, t: Thread, l: Local, q': Queue)
    requires Inv(q) && t in q.local && q.local[t] == l && l.EnqWrite? && q' == Write(q, t, l)
    ensures Inv(q')
  {
    assert LocalInv(q, t, l);
    SlotOf(q, l.p);
    OwnerStep(q, q', t, l.p);
  }

  lemma PublishInv(q: Queue, t: Thread, l: Local, q': Queue)
    requires Inv(q) && t in q.local && q.local[t] == l && l.EnqPublish? && q' == Publish(q, t, l)
    ensures Inv(q') && q'.Gen(l.p) == l.p + 1
  {
    assert LocalInv(q, t, l);
    SlotOf(q, l.p);
    OwnerStep(q, q', t, l.p);
  }

  lemma TakeInv(q: Queue, t: Thread, l: Local, junk: int, q': Queue)
    requires Inv(q) && t in q.local && q.local[t] == l && l.DeqRead? && q' == Take(q, t, l, junk)
    ensures Inv(q') && l.p < |q.sent| && q'.local[t] == DeqFree(l.p, q.sent[l.p])
  {
    assert LocalInv(q, t, l);
    SlotOf(q, l.p);
    OwnerStep(q, q', t, l.p);
  }

  lemma FreeInv(q: Queue, t: Thread, l: Local, q': Queue)
    requires Inv(q) && t in q.local && q.local[t] == l && l.DeqFree? && q' == Free(q, t, l)
    ensures Inv(q') && l.p < |q.sent| && q'.local[t] == DeqDone(Some(q.sent[l.p]))
  {
    assert LocalInv(q, t, l);
    SlotOf(q, l.p);
    FreedFields(q, t, l, q');
    FreedSlot(q, l.p, q', q'.value[q.Index(l.p)]);
    OwnerStep(q, q', t, l.p);
  }

  lemma FreedFields(q: Queue, t: Thread, l: Local, q': Queue)
    requires Shape(q) && l.DeqFree? && q' == Free(q, t, l) && q.Index(l.p) < q.Size() && q.Gen(l.p) == l.p + 1
    ensures var k := q.Index(l.p);
            && |q'.at| == |q'.generation| == |q'.value| == q.Size() && q'.value == q.value
            && q'.at[k] == l.p + q.Size() && q'.generation[k] == l.p + q.Size() && k !in q'.owner
            && SlotFrame(q, q', k) && OwnerFrame(q, q', k)
  {
  }

  /** The slot of a freed position serves the position one round later. */
  lemma FreedSlot(q: Queue, p: nat, q': Queue, v: int)
    requires Shape(q) && q.Index(p) < q.Size() && q'.bits == q.bits && q'.head == q.head && q'.tail == q.tail && q'.sent == q.sent
    requires p < q.head && q.tail <= p + q.Size()
    ensures SlotOk(q', q.Index(p), p + q.Size(), p + q.Size(), v, false)
  {
    IndexRound(q, p);
  }

  // ---------------------------------------------------------------------------
  // Every run
  // ---------------------------------------------------------------------------

  /** The abstract queue: values of claimed positions not yet claimed by a consumer. */
  function Contents(q: Queue): seq<int> {
    if q.head <= q.tail == |q.sent| then q.sent[q.head..] else []
  }

  /**
    What a step of a thread does: an Enqueue CAS appends its value, a Dequeue CAS removes the
    front, and the claimed position fixes the value that will be returned.
  */
  ghost predicate Refines(q: Queue, t: Thread, q': Queue) {
    && t in q.local && t in q'.local
    && var l, l' := q.local[t], q'.local[t];
       if l.EnqCas? && l'.EnqWrite? then
         l'.p == q.tail && l'.v == l.v && Contents(q') == Contents(q) + [l.v] && q'.sent == q.sent + [l.v]
       else if l.DeqCas? && l'.DeqRead? then
         l'.p == q.head && q.head < |q.sent| && Contents(q) == [q.sent[l'.p]] + Contents(q') && q'.sent == q.sent
       else q'.head == q.head && q'.tail == q.tail && q'.sent == q.sent
  }

  /** What a step of a thread reports. */
  ghost predicate Reports(q: Queue, t: Thread, q': Queue) {
    && t in q.local && t in q'.local
    && var l, l' := q.local[t], q'.local[t];
       && (l.EnqWrite? ==> l' == EnqPublish(l.v, l.p))
       && (l.EnqPublish? ==> l' == EnqDone(true))
       && (l.DeqRead? ==> l.p < |q.sent| && l' == DeqFree(l.p, q.sent[l.p]))
       && (l.DeqFree? ==> l.p < |q.sent| && l' == DeqDone(Some(q.sent[l.p])))
       && (l.EnqCheck? ==> (l' == EnqDone(false) <==> l.tail == q.tail && Unreleased(q)))
       && (l.DeqCheck? ==> (l' == DeqDone(None) <==> l.head == q.head && Unpublished(q)))
  }

  /** The slot of the next position to enqueue still serves the position one round before. */
  predicate Unreleased(q: Queue) {
    q.Index(q.tail) < |q.at| && q.at[q.Index(q.tail)] + q.Size() == q.tail
  }

  /** Nothing has been stored at the next position to dequeue. */
  predicate Unpublished(q: Queue) {
    q.Gen(q.head) <= q.head
  }

  lemma EnqCheckStep(q: Queue, t: Thread, l: Local, c: Choice, q': Queue)
    requires Inv(q) && t in q.local && q.local[t] == l && l.EnqCheck? && q' == Go(q, t, c)
    ensures Inv(q') && Refines(q, t, q') && Reports(q, t, q')
  {
    assert LocalInv(q, t, l);
    FullTest(q, l.tail);
    SimpleInv(q, t, q'.local[t]);
  }

  lemma EnqClaimStep(q: Queue, t: Thread, l: Local, c: Choice, q': Queue)
    requires Inv(q) && t in q.local && q.local[t] == l && (l.EnqLoad? || l.EnqCas?) && q' == Go(q, t, c)
    ensures Inv(q') && Refines(q, t, q') && Reports(q, t, q')
  {
    assert LocalInv(q, t, l);
    if l.EnqCas? && q.tail == l.tail && !c.weakFails {
      EnqClaimInv(q, t, l, q');
    } else {
      SimpleInv(q, t, q'.local[t]);
    }
  }

  lemma DeqCheckStep(q: Queue, t: Thread, l: Local, c: Choice, q': Queue)
    requires Inv(q) && t in q.local && q.local[t] == l && l.DeqCheck? && q' == Go(q, t, c)
    ensures Inv(q') && Refines(q, t, q') && Reports(q, t, q')
  {
    assert LocalInv(q, t, l);
    EmptyTest(q, l.head);
    SimpleInv(q, t, q'.local[t]);
  }

  lemma DeqClaimStep(q: Queue, t: Thread, l: Local, c: Choice, q': Queue)
    requires Inv(q) && t in q.local && q.local[t] == l && (l.DeqLoad? || l.DeqCas?) && q' == Go(q, t, c)
    ensures Inv(q') && Refines(q, t, q') && Reports(q, t, q')
  {
    assert LocalInv(q, t, l);
    if l.DeqCas? && q.head == l.head && !c.weakFails {
      DeqClaimInv(q, t, l, q');
    } else {
      SimpleInv(q, t, q'.local[t]);
    }
  }

  lemma OwnedStep(q: Queue, t: Thread, l: Local, c: Choice, q': Queue)
    requires Inv(q) && t in q.local && q.local[t] == l && l.Owning() && q' == Go(q, t, c)
    ensures Inv(q') && Refines(q, t, q') && Reports(q, t, q')
  {
    match l {
      case EnqWrite(_, _) => WriteInv(q, t, l, q');
      case EnqPublish(_, _) => PublishInv(q, t, l, q');
      case DeqRead(_) => TakeInv(q, t, l, c.junk, q');
      case DeqFree(_, _) => FreeInv(q, t, l, q');
    }
  }

  lemma StepInv(q: Queue, step: Step, q': Queue)
    requires Inv(q) && Enabled(q, step) && q' == Next(q, step)
    ensures Inv(q')
    ensures if step.Run? then Refines(q, step.t, q') && Reports(q, step.t, q') else Contents(q') == Contents(q)
  {
    match step {
      case CallEnqueue(t, v) => SimpleInv(q, t, EnqLoad(v));
      case CallDequeue(t) => SimpleInv(q, t, DeqLoad);
      case Run(t, c) =>
        var l := q.local[t];
        if l.Owning() {
          OwnedStep(q, t, l, c, q');
        } else if l.EnqCheck? {
          EnqCheckStep(q, t, l, c, q');
        } else if l.DeqCheck? {
          DeqCheckStep(q, t, l, c, q');
        } else if l.EnqLoad? || l.EnqCas? {
          EnqClaimStep(q, t, l, c, q');
        } else {
          DeqClaimStep(q, t, l, c, q');
        }
    }
  }

  predicate Trace(q: Queue, steps: seq<Step>, q': Queue)
    decreases |steps|
  {
    if steps == [] then q == q' else Enabled(q, steps[0]) && Trace(Next(q, steps[0]), steps[1..], q')
  }

  lemma {:induction false} TraceInv(q: Queue, steps: seq<Step>, q': Queue)
    requires Inv(q) && Trace(q, steps, q')
    ensures Inv(q')
    decreases |steps|
  {
    if steps != [] {
      StepInv(q, steps[0], Next(q, steps[0]));
      TraceInv(Next(q, steps[0]), steps[1..], q');
    }
  }

  /** Two threads never access the value of one slot at the same time. */
  lemma Exclusive(q: Queue, t: Thread, u: Thread)
    requires Inv(q) && t in q.local && u in q.local && t != u && q.local[t].Owning() && q.local[u].Owning()
    ensures q.Index(q.local[t].p) != q.Index(q.local[u].p)
  {
    assert LocalInv(q, t, q.local[t]) && LocalInv(q, u, q.local[u]);
  }

  /** In every interleaving: the bounds, one abstract first-in first-out queue, and exact reports. */
  lemma QueueSafe(bits: nat, values: seq<int>, steps: seq<Step>, q: Queue, t: Thread, c: Choice)
    requires bits >= 1 && |values| == Pow2(bits) && Trace(StartQueue(bits, values), steps, q) && CanGo(q, t)
    ensures q.head <= q.tail <= q.head + q.Size()
    ensures Refines(q, t, Go(q, t, c)) && Reports(q, t, Go(q, t, c))
    ensures forall u :: u in q.local && u != t && q.local[u].Owning() && q.local[t].Owning() ==>
              q.Index(q.local[u].p) != q.Index(q.local[t].p)
  {
    StartQueueInv(bits, values);
    TraceInv(StartQueue(bits, values), steps, q);
    StepInv(q, Run(t, c), Go(q, t, c));
    forall u | u in q.local && u != t && q.local[u].Owning() && q.local[t].Owning()
      ensures q.Index(q.local[u].p) != q.Index(q.local[t].p)
    {
      Exclusive(q, t, u);
    }
  }

  /** A producer has claimed position p and not yet raised its generation. */
  predicate StillWriting(q: Queue, p: nat) {
    var k := q.Index(p);
    && k in q.owner && q.owner[k] in q.local
    && var l := q.local[q.owner[k]]; (l.EnqWrite? || l.EnqPublish?) && l.p == p
  }

  /** A consumer has claimed position p and not yet raised its generation. */
  predicate StillReading(q: Queue, p: nat) {
    var k := q.Index(p);
    && k in q.owner && q.owner[k] in q.local
    && var l := q.local[q.owner[k]]; (l.DeqRead? || l.DeqFree?) && l.p == p
  }

  lemma OwnerPosition(q: Queue, k: nat)
    requires Inv(q) && k in q.owner
    ensures k < q.Size() && q.Index(q.at[k]) == k
    ensures if q.generation[k] == q.at[k] then StillWriting(q, q.at[k]) else StillReading(q, q.at[k])
  {
    var u := q.owner[k];
    assert OwnerOk(q, k, u);
    assert LocalInv(q, u, q.local[u]);
    IndexBound(q, q.local[u].p);
  }

  /** Dequeue finds nothing exactly when the queue is empty or the front is still being written. */
  lemma EmptyMeans(q: Queue)
    requires Inv(q)
    ensures Unpublished(q) <==> Contents(q) == [] || StillWriting(q, q.head)
  {
    SlotOf(q, q.head);
    var k := q.Index(q.head);
    Rounds(q, q.at[k], q.head);
    if k in q.owner {
      OwnerPosition(q, k);
      assert LocalInv(q, q.owner[k], q.local[q.owner[k]]);
    }
  }

  /** Enqueue finds no room exactly when the queue is full or the last reader of the slot is not done. */
  lemma FullMeans(q: Queue)
    requires Inv(q)
    ensures Unreleased(q) <==>
            |Contents(q)| == q.Size() || (q.tail >= q.Size() && StillReading(q, q.tail - q.Size()))
  {
    SlotOf(q, q.tail);
    var k := q.Index(q.tail);
    Rounds(q, q.at[k], q.tail);
    if q.tail >= q.Size() {
      IndexRound(q, q.tail - q.Size());
    }
    if k in q.owner {
      OwnerPosition(q, k);
      assert LocalInv(q, q.owner[k], q.local[q.owner[k]]);
    }
  }

  /** With no thread between its claim and its fetch_add, the two tests mean full and empty. */
  lemma QuiescentTests(q: Queue)
    requires Inv(q) && forall t :: t in q.local ==> !q.local[t].Owning()
    ensures Unreleased(q) <==> |Contents(q)| == q.Size()
    ensures Unpublished(q) <==> Contents(q) == []
  {
    EmptyMeans(q);
    FullMeans(q);
  }

  // ---------------------------------------------------------------------------
  // The history of effects, and the effect of one call
  // ---------------------------------------------------------------------------

  datatype Event = Appended(v: int) | Removed(v: int)

  /** What a step does to the abstract queue: seen from the sequence of sent values and the head alone. */
  ghost function Emits(q: Queue, q': Queue): seq<Event> {
    (if |q'.sent| > |q.sent| then [Appended(q'.sent[|q.sent|])] else [])
    + (if q'.head > q.head && q.head < |q.sent| then [Removed(q.sent[q.head])] else [])
  }

  ghost function History(q: Queue, steps: seq<Step>): seq<Event>
    decreases |steps|
  {
    if steps == [] || !Enabled(q, steps[0]) then []
    else Emits(q, Next(q, steps[0])) + History(Next(q, steps[0]), steps[1..])
  }

  /** The events, one after another on a plain queue of at most size values, lead from c to c'. */
  predicate Legal(c: seq<int>, size: nat, log: seq<Event>, c': seq<int>)
    decreases |log|
  {
    if log == [] then c == c'
    else
      match log[0]
      case Appended(v) => |c| < size && Legal(c + [v], size, log[1..], c')
      case Removed(v) => c != [] && c[0] == v && Legal(c[1..], size, log[1..], c')
  }

  lemma OneLegal(q: Queue, q': Queue, rest: seq<Event>, c': seq<int>)
    requires Shape(q) && Shape(q') && q'.Size() == q.Size() && Legal(Contents(q'), q.Size(), rest, c')
    requires || (q'.head == q.head && q'.sent == q.sent)
             || (q'.head == q.head && |q'.sent| == |q.sent| + 1 && q'.sent[..|q.sent|] == q.sent)
             || (q'.head == q.head + 1 && q'.sent == q.sent && q.head < |q.sent|)
    ensures Legal(Contents(q), q.Size(), Emits(q, q') + rest, c')
  {
    var log := Emits(q, q') + rest;
    if Emits(q, q') == [] {
      assert log == rest;
    } else {
      assert log[1..] == rest;
      if log[0].Appended? {
        assert Contents(q') == Contents(q) + [log[0].v];
      } else {
        assert Contents(q)[1..] == Contents(q');
      }
    }
  }

  /** Who changes head, tail and sent, and how. */
  lemma StepShape(q: Queue, step: Step, q': Queue)
    requires Inv(q) && Enabled(q, step) && q' == Next(q, step)
    ensures Inv(q') && q'.bits == q.bits
    ensures || (q'.head == q.head && q'.sent == q.sent)
            || (q'.head == q.head && |q'.sent| == |q.sent| + 1 && q'.sent[..|q.sent|] == q.sent)
            || (q'.head == q.head + 1 && q'.sent == q.sent && q.head < |q.sent|)
  {
    StepInv(q, step, q');
    BitsKept(q, step, q');
  }

  lemma BitsKept(q: Queue, step: Step, q': Queue)
    requires Enabled(q, step) && q' == Next(q, step)
    ensures q'.bits == q.bits && (q'.head == q.head || (step.Run? && q'.head == q.head + 1))
  {
  }

  lemma {:induction false} HistoryLegal(q: Queue, steps: seq<Step>, q': Queue)
    requires Inv(q) && Trace(q, steps, q')
    ensures q'.bits == q.bits && Legal(Contents(q), q.Size(), History(q, steps), Contents(q'))
    decreases |steps|
  {
    if steps != [] {
      var q1 := Next(q, steps[0]);
      StepShape(q, steps[0], q1);
      HistoryLegal(q1, steps[1..], q');
      OneLegal(q, q1, History(q1, steps[1..]), Contents(q'));
    }
  }

  /** In every interleaving the claims form a legal history of one bounded first-in first-out queue. */
  lemma QueueLinearizable(bits: nat, values: seq<int>, steps: seq<Step>, q: Queue)
    requires bits >= 1 && |values| == Pow2(bits) && Trace(StartQueue(bits, values), steps, q)
    ensures Legal([], Pow2(bits), History(StartQueue(bits, values), steps), Contents(q))
  {
    StartQueueInv(bits, values);
    HistoryLegal(StartQueue(bits, values), steps, q);
  }

  /** Where a call may stand. */
  predicate Performs(l: Local, call: Step) {
    match call
    case CallEnqueue(_, v) =>
      l.EnqDone? || ((l.EnqLoad? || l.EnqCheck? || l.EnqCas? || l.EnqWrite? || l.EnqPublish?) && l.v == v)
    case CallDequeue(_) => l.DeqLoad? || l.DeqCheck? || l.DeqCas? || l.DeqRead? || l.DeqFree? || l.DeqDone?
    case _ => false
  }

  /** The effect a call has had by the time it stands at l. */
  function Effect(sent: seq<int>, l: Local, call: Step): seq<Event>
    requires call.CallEnqueue? || call.CallDequeue?
  {
    if call.CallEnqueue? then
      if l.EnqWrite? || l.EnqPublish? || l == EnqDone(true) then [Appended(call.v)] else []
    else
      match l
      case DeqRead(p) => if p < |sent| then [Removed(sent[p])] else []
      case DeqFree(_, data) => [Removed(data)]
      case DeqDone(result) => if result.Some? then [Removed(result.value)] else []
      case _ => []
  }

  /** A step of the calling thread emits exactly what its call has then had. */
  predicate Accounts(q: Queue, l: Local, e: seq<Event>, q': Queue, l': Local, call: Step)
    requires call.CallEnqueue? || call.CallDequeue?
  {
    Performs(l', call) && Effect(q'.sent, l', call) == Effect(q.sent, l, call) + e
  }

  lemma OwnEnqueue(q: Queue, t: Thread, c: Choice, call: Step, q': Queue)
    requires Inv(q) && CanGo(q, t) && call.CallEnqueue? && Performs(q.local[t], call) && q' == Go(q, t, c)
    ensures t in q'.local && Accounts(q, q.local[t], Emits(q, q'), q', q'.local[t], call)
  {
  }

  lemma OwnDequeue(q: Queue, t: Thread, c: Choice, call: Step, q': Queue)
    requires Inv(q) && CanGo(q, t) && call.CallDequeue? && Performs(q.local[t], call) && q' == Go(q, t, c)
    ensures t in q'.local && Accounts(q, q.local[t], Emits(q, q'), q', q'.local[t], call)
  {
    var l := q.local[t];
    assert LocalInv(q, t, l);
    if l.DeqCas? && q.head == l.head {
      DeqSlotStored(q, l.head);
    }
  }

  predicate SameCall(steps: seq<Step>, t: Thread) {
    forall i :: 0 <= i < |steps| && steps[i].t == t ==> steps[i].Run?
  }

  /** The events of the steps of thread t. */
  ghost function EventsOf(q: Queue, steps: seq<Step>, t: Thread): seq<Event>
    decreases |steps|
  {
    if steps == [] || !Enabled(q, steps[0]) then []
    else
      (if steps[0].t == t then Emits(q, Next(q, steps[0])) else []) + EventsOf(Next(q, steps[0]), steps[1..], t)
  }

  lemma OthersKeep(q: Queue, step: Step, t: Thread, q': Queue)
    requires Enabled(q, step) && step.t != t && t in q.local && q' == Next(q, step)
    ensures t in q'.local && q'.local[t] == q.local[t]
  {
  }

  /** The values sent so far stay, so a position claimed by a Dequeue keeps its meaning. */
  lemma EffectStays(q: Queue, step: Step, l: Local, call: Step, q': Queue, t: Thread)
    requires Inv(q) && Enabled(q, step) && q' == Next(q, step) && t in q.local && q.local[t] == l
    requires call.CallEnqueue? || call.CallDequeue?
    ensures Effect(q'.sent, l, call) == Effect(q.sent, l, call)
  {
    StepShape(q, step, q');
    assert LocalInv(q, t, l);
    if l.DeqRead? {
      assert q'.sent[..|q.sent|][l.p] == q.sent[l.p] || q'.sent == q.sent;
    }
  }

  /** A thread that rests takes no step of its own without a new call. */
  lemma AnyStep(q: Queue, step: Step, t: Thread, call: Step, q': Queue)
    requires Inv(q) && Enabled(q, step) && q' == Next(q, step) && t in q.local && Performs(q.local[t], call)
    requires (step.t == t ==> step.Run?) && (call.CallEnqueue? || call.CallDequeue?)
    ensures t in q'.local
    ensures Accounts(q, q.local[t], if step.t == t then Emits(q, q') else [], q', q'.local[t], call)
  {
    if step.t != t {
      OthersKeep(q, step, t, q');
      EffectStays(q, step, q.local[t], call, q', t);
    } else if call.CallEnqueue? {
      OwnEnqueue(q, t, step.c, call, q');
    } else {
      OwnDequeue(q, t, step.c, call, q');
    }
  }

  lemma Stitch(a: seq<Event>, e: seq<Event>, b: seq<Event>, rest: seq<Event>, c: seq<Event>)
    requires b == a + e && c == b + rest
    ensures c == a + (e + rest)
  {
  }

  lemma {:induction false} EffectOfRun(q: Queue, steps: seq<Step>, t: Thread, call: Step, q': Queue)
    requires Inv(q) && Trace(q, steps, q') && SameCall(steps, t) && t in q.local && Performs(q.local[t], call)
    requires call.CallEnqueue? || call.CallDequeue?
    ensures t in q'.local && Performs(q'.local[t], call)
    ensures Effect(q'.sent, q'.local[t], call) == Effect(q.sent, q.local[t], call) + EventsOf(q, steps, t)
    decreases |steps|
  {
    if steps != [] {
      var q1 := Next(q, steps[0]);
      var e := if steps[0].t == t then Emits(q, q1) else [];
      StepInv(q, steps[0], q1);
      AnyStep(q, steps[0], t, call, q1);
      EffectOfRun(q1, steps[1..], t, call, q');
      Stitch(Effect(q.sent, q.local[t], call), e, Effect(q1.sent, q1.local[t], call), EventsOf(q1, steps[1..], t),
             Effect(q'.sent, q'.local[t], call));
    }
  }

  lemma CallStarts(q: Queue, call: Step, q1: Queue)
    requires Inv(q) && !call.Run? && Enabled(q, call) && q1 == Next(q, call)
    ensures Inv(q1) && call.t in q1.local && Performs(q1.local[call.t], call) && Effect(q1.sent, q1.local[call.t], call) == []
  {
    StepInv(q, call, q1);
  }

  /** What the answer of a call says about its events. */
  predicate Answered(l: Local, call: Step, events: seq<Event>) {
    if call.CallEnqueue? then l.EnqDone? && events == if l.ok then [Appended(call.v)] else []
    else l.DeqDone? && events == if l.result.Some? then [Removed(l.result.value)] else []
  }

  lemma CallEnds(q: Queue, call: Step, steps: seq<Step>, q': Queue)
    requires Inv(q) && !call.Run? && call.t in q.local && Performs(q.local[call.t], call)
    requires Effect(q.sent, q.local[call.t], call) == [] && Trace(q, steps, q') && SameCall(steps, call.t)
    ensures call.t in q'.local
    ensures q'.local[call.t].Resting() ==> Answered(q'.local[call.t], call, EventsOf(q, steps, call.t))
  {
    EffectOfRun(q, steps, call.t, call, q');
  }

  /**
    In every interleaving: an Enqueue that returned true appended its value exactly once since
    its call, one that returned false appended nothing; a Dequeue that returned a value removed
    just that value from the front, one that returned nothing removed nothing.
  */
  lemma CallTakesEffectOnce(bits: nat, values: seq<int>, earlier: seq<Step>, q: Queue, call: Step, q1: Queue,
                            steps: seq<Step>, q': Queue)
    requires bits >= 1 && |values| == Pow2(bits) && Trace(StartQueue(bits, values), earlier, q)
    requires !call.Run? && Enabled(q, call) && q1 == Next(q, call) && Trace(q1, steps, q') && SameCall(steps, call.t)
    ensures call.t in q'.local
    ensures q'.local[call.t].Resting() ==> Answered(q'.local[call.t], call, EventsOf(q1, steps, call.t))
  {
    StartQueueInv(bits, values);
    TraceInv(StartQueue(bits, values), earlier, q);
    CallStarts(q, call, q1);
    CallEnds(q1, call, steps, q');
  }

  // ---------------------------------------------------------------------------
  // Refusals that are not about the number of values
  // ---------------------------------------------------------------------------

  const SURE: Choice := Choice(false, 0)

  lemma {:induction false} TraceJoin(q: Queue, steps: seq<Step>, q': Queue, more: seq<Step>, q'': Queue)
    requires Trace(q, steps, q') && Trace(q', more, q'')
    ensures Trace(q, steps + more, q'')
    decreases |steps|
  {
    if steps == [] {
      assert steps + more == more;
    } else {
      assert (steps + more)[1..] == steps[1..] + more;
      TraceJoin(Next(q, steps[0]), steps[1..], q', more, q'');
    }
  }

  predicate Resting(q: Queue, t: Thread) {
    t in q.local ==> q.local[t].Resting()
  }

  lemma RunOnce(q: Queue, steps: seq<Step>, m: Queue, t: Thread, q': Queue) returns (longer: seq<Step>)
    requires Trace(q, steps, m) && CanGo(m, t) && q' == Go(m, t, SURE)
    ensures Trace(q, longer, q')
  {
    assert Trace(Next(m, Run(t, SURE)), [], q') && [Run(t, SURE)][1..] == [];
    assert Trace(m, [Run(t, SURE)], q');
    TraceJoin(q, steps, m, [Run(t, SURE)], q');
    longer := steps + [Run(t, SURE)];
  }

  lemma EnqueueStarts(q: Queue, t: Thread, v: int, q': Queue) returns (steps: seq<Step>)
    requires Resting(q, t) && q' == At(q, t, EnqCheck(v, q.tail))
    ensures Trace(q, steps, q')
  {
    var m := At(q, t, EnqLoad(v));
    steps := [CallEnqueue(t, v)];
    assert steps[1..] == [] && Trace(m, [], m);
    assert At(m, t, EnqCheck(v, q.tail)) == q';
    steps := RunOnce(q, steps, m, t, q');
  }

  /** An Enqueue whose slot is free, up to and including its CAS. */
  lemma EnqueueClaims(q: Queue, t: Thread, v: int, q': Queue) returns (steps: seq<Step>)
    requires Resting(q, t) && q.tail < q.Gen(q.tail) + (q.Size() - 1) && q' == EnqClaim(q, t, EnqCas(v, q.tail))
    ensures Trace(q, steps, q')
  {
    var q2, q3 := At(q, t, EnqCheck(v, q.tail)), At(q, t, EnqCas(v, q.tail));
    steps := EnqueueStarts(q, t, v, q2);
    assert At(q2, t, EnqCas(v, q.tail)) == q3 && EnqClaim(q3, t, EnqCas(v, q.tail)) == q';
    steps := RunOnce(q, steps, q2, t, q3);
    steps := RunOnce(q, steps, q3, t, q');
  }

  /** An Enqueue that finds its slot taken. */
  lemma EnqueueGivesUp(q: Queue, t: Thread, v: int, q': Queue) returns (steps: seq<Step>)
    requires Resting(q, t) && q.Gen(q.tail) + (q.Size() - 1) <= q.tail && q' == At(q, t, EnqDone(false))
    ensures Trace(q, steps, q')
  {
    var m := At(q, t, EnqCheck(v, q.tail));
    steps := EnqueueStarts(q, t, v, m);
    assert At(m, t, EnqDone(false)) == q';
    steps := RunOnce(q, steps, m, t, q');
  }

  lemma DequeueStarts(q: Queue, t: Thread, q': Queue) returns (steps: seq<Step>)
    requires Resting(q, t) && q' == At(q, t, DeqCheck(q.head))
    ensures Trace(q, steps, q')
  {
    var m := At(q, t, DeqLoad);
    steps := [CallDequeue(t)];
    assert steps[1..] == [] && Trace(m, [], m);
    assert At(m, t, DeqCheck(q.head)) == q';
    steps := RunOnce(q, steps, m, t, q');
  }

  lemma DequeueClaims(q: Queue, t: Thread, q': Queue) returns (steps: seq<Step>)
    requires Resting(q, t) && q.head + 1 <= q.Gen(q.head) && q' == DeqClaim(q, t, DeqCas(q.head))
    ensures Trace(q, steps, q')
  {
    var q2, q3 := At(q, t, DeqCheck(q.head)), At(q, t, DeqCas(q.head));
    steps := DequeueStarts(q, t, q2);
    assert At(q2, t, DeqCas(q.head)) == q3 && DeqClaim(q3, t, DeqCas(q.head)) == q';
    steps := RunOnce(q, steps, q2, t, q3);
    steps := RunOnce(q, steps, q3, t, q');
  }

  lemma DequeueGivesUp(q: Queue, t: Thread, q': Queue) returns (steps: seq<Step>)
    requires Resting(q, t) && q.Gen(q.head) < q.head + 1 && q' == At(q, t, DeqDone(None))
    ensures Trace(q, steps, q')
  {
    var m := At(q, t, DeqCheck(q.head));
    steps := DequeueStarts(q, t, m);
    assert At(m, t, DeqDone(None)) == q';
    steps := RunOnce(q, steps, m, t, q');
  }

  /** The two steps after a claim. */
  lemma Finishes(q: Queue, t: Thread, m: Queue, q': Queue) returns (steps: seq<Step>)
    requires CanGo(q, t) && m == Go(q, t, SURE) && CanGo(m, t) && q' == Go(m, t, SURE)
    ensures Trace(q, steps, q')
  {
    steps := [];
    steps := RunOnce(q, steps, q, t, m);
    steps := RunOnce(q, steps, m, t, q');
  }

  /** One Enqueue from call to return, into a free slot. */
  lemma EnqueueRuns(q: Queue, t: Thread, v: int, q': Queue) returns (steps: seq<Step>)
    requires Resting(q, t) && q.tail < q.Gen(q.tail) + (q.Size() - 1) && q.Index(q.tail) < |q.generation|
    requires q.Index(q.tail) !in q.owner
    requires q' == q.(tail := q.tail + 1, generation := Put(q.generation, q.Index(q.tail), q.Gen(q.tail) + 1),
                      value := Put(q.value, q.Index(q.tail), v), local := q.local[t := EnqDone(true)], sent := q.sent + [v])
    ensures Trace(q, steps, q')
  {
    var m := EnqClaim(q, t, EnqCas(v, q.tail));
    var n := Go(m, t, SURE);
    assert Go(n, t, SURE) == q' by {
      assert m.owner - {q.Index(q.tail)} == q.owner;
      assert n.local[t := EnqDone(true)] == q'.local;
    }
    var first := EnqueueClaims(q, t, v, m);
    var second := Finishes(m, t, n, q');
    TraceJoin(q, first, m, second, q');
    steps := first + second;
  }

  lemma TwoSlots(q: Queue)
    requires q.bits == 1
    ensures q.Size() == 2 && q.Index(0) == 0 && q.Index(1) == 1 && q.Index(2) == 0
  {
    assert Pow2(1) == 2 * Pow2(0);
    IndexBound(q, 0);
    IndexBound(q, 1);
    IndexBound(q, 2);
  }

  /** Threads 0 and 1 have claimed the two slots; thread 1 has stored its value, thread 0 has not. */
  function SlowWriter(a: int, b: int, v: int, w: int, l: map<Thread, Local>): Queue {
    Queue(1, 0, 2, [0, 2], [a, w], l, [0, 1], map[0 := 0], [v, w])
  }

  lemma StartOfTwo(a: int, b: int)
    ensures Pow2(1) == 2 && StartQueue(1, [a, b]) == Queue(1, 0, 0, [0, 1], [a, b], map[], [0, 1], map[], [])
  {
    assert Pow2(1) == 2 * Pow2(0);
  }

  lemma ReachSlowWriter(a: int, b: int, v: int, w: int) returns (steps: seq<Step>)
    ensures Pow2(1) == 2
    ensures Trace(StartQueue(1, [a, b]), steps, SlowWriter(a, b, v, w, map[0 := EnqWrite(v, 0), 1 := EnqDone(true)]))
  {
    var l: map<Thread, Local> := map[0 := EnqWrite(v, 0)];
    var q0 := Queue(1, 0, 0, [0, 1], [a, b], map[], [0, 1], map[], []);
    var q1 := Queue(1, 0, 1, [0, 1], [a, b], l, [0, 1], map[0 := 0], [v]);
    var q4 := SlowWriter(a, b, v, w, l[1 := EnqDone(true)]);
    TwoSlots(q0);
    TwoSlots(q1);
    StartOfTwo(a, b);
    var first := EnqueueClaims(q0, 0, v, q1);
    var second := EnqueueRuns(q1, 1, w, q4);
    TraceJoin(q0, first, q1, second, q4);
    steps := first + second;
  }

  /** Two values are in the queue, one Enqueue has returned, and a Dequeue finds nothing. */
  lemma EmptyWithValues(a: int, b: int, v: int, w: int) returns (steps: seq<Step>, q: Queue)
    ensures Pow2(1) == 2 && Trace(StartQueue(1, [a, b]), steps, q)
    ensures 1 in q.local && q.local[1] == EnqDone(true) && 2 in q.local && q.local[2] == DeqDone(None)
    ensures Contents(q) == [v, w]
  {
    var l: map<Thread, Local> := map[0 := EnqWrite(v, 0), 1 := EnqDone(true)];
    var m := SlowWriter(a, b, v, w, l);
    TwoSlots(m);
    q := At(m, 2, DeqDone(None));
    var before := ReachSlowWriter(a, b, v, w);
    var last := DequeueGivesUp(m, 2, q);
    TraceJoin(StartQueue(1, [a, b]), before, m, last, q);
    steps := before + last;
  }

  /** Thread 0 has filled both slots and taken the first value's position; thread 1 has dequeued the second value. */
  lemma ReachSlowReader(a: int, b: int, v: int, w: int, q: Queue) returns (steps: seq<Step>)
    requires q == Queue(1, 2, 2, [1, 3], [v, 0], map[0 := DeqRead(0), 1 := DeqDone(Some(w))], [0, 3], map[0 := 0], [v, w])
    ensures Pow2(1) == 2 && Trace(StartQueue(1, [a, b]), steps, q)
  {
    var l: map<Thread, Local> := map[0 := EnqDone(true)];
    var q0 := Queue(1, 0, 0, [0, 1], [a, b], map[], [0, 1], map[], []);
    var q1 := Queue(1, 0, 1, [1, 1], [v, b], l, [0, 1], map[], [v]);
    var q2 := Queue(1, 0, 2, [1, 2], [v, w], l, [0, 1], map[], [v, w]);
    TwoSlots(q0);
    TwoSlots(q1);
    StartOfTwo(a, b);
    assert l == l[0 := EnqDone(true)];
    var first := EnqueueRuns(q0, 0, v, q1);
    var second := EnqueueRuns(q1, 0, w, q2);
    var third := BothDequeue(v, w, q2, q);
    TraceJoin(q0, first, q1, second, q2);
    TraceJoin(q0, first + second, q2, third, q);
    steps := first + second + third;
  }

  lemma BothDequeue(v: int, w: int, q2: Queue, q: Queue) returns (steps: seq<Step>)
    requires q2 == Queue(1, 0, 2, [1, 2], [v, w], map[0 := EnqDone(true)], [0, 1], map[], [v, w])
    requires q == Queue(1, 2, 2, [1, 3], [v, 0], map[0 := DeqRead(0), 1 := DeqDone(Some(w))], [0, 3], map[0 := 0], [v, w])
    ensures Trace(q2, steps, q)
  {
    var l: map<Thread, Local> := map[0 := DeqRead(0)];
    var q3 := Queue(1, 1, 2, [1, 2], [v, w], l, [0, 1], map[0 := 0], [v, w]);
    var q4 := Queue(1, 2, 2, [1, 2], [v, w], l[1 := DeqRead(1)], [0, 1], map[0 := 0, 1 := 1], [v, w]);
    var q5 := Queue(1, 2, 2, [1, 2], [v, 0], l[1 := DeqFree(1, w)], [0, 1], map[0 := 0, 1 := 1], [v, w]);
    TwoSlots(q2);
    TwoSlots(q3);
    TwoSlots(q4);
    TwoSlots(q5);
    var first := DequeueClaims(q2, 0, q3);
    var second := DequeueClaims(q3, 1, q4);
    assert Go(q5, 1, SURE) == q by { assert map[0 := 0, 1 := 1] - {1} == map[0 := 0]; }
    var third := Finishes(q4, 1, q5, q);
    TraceJoin(q2, first, q3, second, q4);
    TraceJoin(q2, first + second, q4, third, q);
    steps := first + second + third;
  }

  /** Nothing is in the queue, both slots having been claimed by Dequeues, and an Enqueue finds no room. */
  lemma FullWithoutValues(a: int, b: int, v: int, w: int, x: int) returns (steps: seq<Step>, q: Queue)
    ensures Pow2(1) == 2 && Trace(StartQueue(1, [a, b]), steps, q)
    ensures 1 in q.local && q.local[1] == DeqDone(Some(w)) && 2 in q.local && q.local[2] == EnqDone(false)
    ensures Contents(q) == []
  {
    var m := Queue(1, 2, 2, [1, 3], [v, 0], map[0 := DeqRead(0), 1 := DeqDone(Some(w))], [0, 3], map[0 := 0], [v, w]);
    TwoSlots(m);
    q := At(m, 2, EnqDone(false));
    var before := ReachSlowReader(a, b, v, w, m);
    var last := EnqueueGivesUp(m, 2, x, q);
    TraceJoin(StartQueue(1, [a, b]), before, m, last, q);
    steps := before + last;
  }

  // ---------------------------------------------------------------------------
  // A ring of one slot
  // ---------------------------------------------------------------------------

  /** With a single slot the test for full always succeeds, so nothing ever enters. */
  predicate Barred(q: Queue) {
    && q.bits == 0 && q.tail == 0 && q.generation == [0] && q.sent == []
    && (forall t :: t in q.local ==>
          !q.local[t].EnqCas? && !q.local[t].Owning() && !q.local[t].DeqCas? && q.local[t] != EnqDone(true)
          && (q.local[t].DeqDone? ==> q.local[t].result == None))
    && (forall t :: t in q.local && q.local[t].EnqCheck? ==> q.local[t].tail == 0)
  }

  lemma {:induction false} BarredForever(q: Queue, steps: seq<Step>, q': Queue)
    requires Barred(q) && Trace(q, steps, q')
    ensures Barred(q')
    decreases |steps|
  {
    if steps != [] {
      OneSlotStep(q, steps[0], Next(q, steps[0]));
      BarredForever(Next(q, steps[0]), steps[1..], q');
    }
  }

  lemma OneSlotStep(q: Queue, step: Step, q': Queue)
    requires Barred(q) && Enabled(q, step) && q' == Next(q, step)
    ensures Barred(q')
  {
  }

  /** In a queue of one slot no Enqueue ever succeeds and no Dequeue ever returns a value. */
  lemma OneSlotRefuses(values: seq<int>, steps: seq<Step>, q: Queue, t: Thread)
    requires |values| == Pow2(0) && Trace(StartQueue(0, values), steps, q) && t in q.local
    ensures q.local[t] != EnqDone(true) && (q.local[t].DeqDone? ==> q.local[t].result == None)
  {
    var start := StartQueue(0, values);
    assert Pow2(0) == 1 && start.generation == [0];
    BarredForever(start, steps, q);
  }
}
