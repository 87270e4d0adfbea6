/**
  The fiber scheduler's timers: a binary heap in an array, where every active timer knows its
  position, so that any timer can be removed.
*/
module TimerHeap {

  datatype HeapEntry = HeapEntry(deadline: int, timer: Timer)

  type Entries = seq<HeapEntry>

  // ---------------------------------------------------------------------------
  // The heap order on sequences
  // ---------------------------------------------------------------------------

  function D(h: Entries, i: int): int {
    if 0 <= i < |h| then h[i].deadline else 0
  }

  function Parent(i: int): int {
    if i > 0 then (i - 1) / 2 else -1
  }

  predicate Edge(h: Entries, i: int) {
    i <= 0 || D(h, Parent(i)) <= D(h, i)
  }

  ghost predicate Ordered(h: Entries) {
    forall i :: 0 <= i < |h| ==> Edge(h, i)
  }

  /** The parent of k is no later than the children of k. */
  ghost predicate Bridge(h: Entries, k: int) {
    k > 0 ==> forall c :: 0 <= c < |h| && Parent(c) == k ==> D(h, Parent(k)) <= D(h, c)
  }

  /** Only the edge above k may be wrong. */
  ghost predicate UpReady(h: Entries, k: int) {
    Bridge(h, k) && forall i :: 0 <= i < |h| && i != k ==> Edge(h, i)
  }

  /** Only the edges below k may be wrong. */
  ghost predicate DownReady(h: Entries, k: int) {
    Bridge(h, k) && forall i :: 0 <= i < |h| && Parent(i) != k ==> Edge(h, i)
  }

  /** Only the edges at k may be wrong. */
  ghost predicate Hole(h: Entries, k: int) {
    Bridge(h, k) && forall i :: 0 <= i < |h| && i != k && Parent(i) != k ==> Edge(h, i)
  }

  function Swapped(h: Entries, i: int, j: int): Entries
    requires 0 <= i < |h| && 0 <= j < |h|
  {
    h[i := h[j]][j := h[i]]
  }

  lemma SwappedEntries(h: Entries, i: int, j: int)
    requires 0 <= i < |h| && 0 <= j < |h|
    ensures multiset(Swapped(h, i, j)) == multiset(h)
  {
  }

  lemma {:induction false} RootIsLeast(h: Entries, i: int)
    requires Ordered(h) && 0 <= i < |h|
    ensures D(h, 0) <= D(h, i)
    decreases i
  {
    if i > 0 {
      assert Edge(h, i);
      RootIsLeast(h, Parent(i));
    }
  }

  // ---------------------------------------------------------------------------
  // Sifting on sequences
  // ---------------------------------------------------------------------------

  function SiftedUp(h: Entries, k: int): (r: Entries)
    requires 0 <= k < |h|
    ensures |r| == |h|
    decreases k
  {
    if k == 0 || D(h, k) > D(h, Parent(k)) then h else SiftedUp(Swapped(h, k, Parent(k)), Parent(k))
  }

  /** The least of k and its children, the first of equal ones. */
  function Smaller(h: Entries, k: int): (c: int)
    requires 0 <= k < |h|
    ensures 0 <= c < |h| && (c == k || (Parent(c) == k && D(h, c) < D(h, k)))
    ensures forall i :: 0 <= i < |h| && Parent(i) == k ==> D(h, c) <= D(h, i)
  {
    var a := if 2 * k + 1 < |h| && D(h, k) > D(h, 2 * k + 1) then 2 * k + 1 else k;
    if 2 * k + 2 < |h| && D(h, a) > D(h, 2 * k + 2) then 2 * k + 2 else a
  }

  function SiftedDown(h: Entries, k: int): (r: Entries)
    requires 0 <= k < |h|
    ensures |r| == |h|
    decreases |h| - k
  {
    var c := Smaller(h, k);
    if c == k then h else SiftedDown(Swapped(h, k, c), c)
  }

  lemma {:induction false} SiftedUpEntries(h: Entries, k: int)
    requires 0 <= k < |h|
    ensures multiset(SiftedUp(h, k)) == multiset(h)
    decreases k
  {
    if !(k == 0 || D(h, k) > D(h, Parent(k))) {
      SwappedEntries(h, k, Parent(k));
      SiftedUpEntries(Swapped(h, k, Parent(k)), Parent(k));
    }
  }

  lemma {:induction false} SiftedDownEntries(h: Entries, k: int)
    requires 0 <= k < |h|
    ensures multiset(SiftedDown(h, k)) == multiset(h)
    decreases |h| - k
  {
    var c := Smaller(h, k);
    if c != k {
      SwappedEntries(h, k, c);
      SiftedDownEntries(Swapped(h, k, c), c);
    }
  }

  lemma UpSwap(h: Entries, k: int)
    requires 0 < k < |h| && UpReady(h, k) && D(h, k) <= D(h, Parent(k))
    ensures UpReady(Swapped(h, k, Parent(k)), Parent(k))
  {
    var q, h' := Parent(k), Swapped(h, k, Parent(k));
    forall i | 0 <= i < |h| && i != q ensures Edge(h', i) {
      assert i != k ==> Edge(h, i);
    }
    assert Edge(h, q);
    forall c | 0 <= c < |h| && Parent(c) == q && q > 0 ensures D(h', Parent(q)) <= D(h', c) {
      assert c != k ==> Edge(h, c);
    }
  }

  lemma {:induction false} SiftedUpOrdered(h: Entries, k: int)
    requires 0 <= k < |h| && UpReady(h, k)
    ensures Ordered(SiftedUp(h, k))
    decreases k
  {
    if !(k == 0 || D(h, k) > D(h, Parent(k))) {
      UpSwap(h, k);
      SiftedUpOrdered(Swapped(h, k, Parent(k)), Parent(k));
    } else {
      assert Edge(h, k);
    }
  }

  lemma DownSwap(h: Entries, k: int)
    requires 0 <= k < |h| && Hole(h, k) && Smaller(h, k) != k
    ensures DownReady(Swapped(h, k, Smaller(h, k)), Smaller(h, k))
  {
    var c := Smaller(h, k);
    var h' := Swapped(h, k, c);
    forall i | 0 <= i < |h| && Parent(i) != c ensures Edge(h', i) {
      assert i != k && Parent(i) != k ==> Edge(h, i);
    }
    forall x | 0 <= x < |h| && Parent(x) == c ensures D(h', k) <= D(h', x) {
      assert Edge(h, x);
    }
  }

  lemma {:induction false} SiftedDownOrdered(h: Entries, k: int)
    requires 0 <= k < |h| && DownReady(h, k)
    ensures Ordered(SiftedDown(h, k))
    decreases |h| - k
  {
    var c := Smaller(h, k);
    if c != k {
      DownSwap(h, k);
      SiftedDownOrdered(Swapped(h, k, c), c);
    } else {
      forall i | 0 <= i < |h| ensures Edge(h, i) {
        assert Parent(i) == k ==> D(h, k) <= D(h, i);
      }
    }
  }

  lemma OrderedUpReady(h: Entries, k: int)
    requires Ordered(h) && 0 <= k < |h|
    ensures UpReady(h, k)
  {
    forall c | 0 <= c < |h| && Parent(c) == k && k > 0 ensures D(h, Parent(k)) <= D(h, c) {
      assert Edge(h, c) && Edge(h, k);
    }
  }

  /** After sifting the replacement down, only the edge above the place it was put at may be wrong. */
  lemma HoleFilled(h: Entries, k: int)
    requires 0 <= k < |h| && Hole(h, k)
    ensures UpReady(SiftedDown(h, k), k)
  {
    var c := Smaller(h, k);
    if c != k {
      DownSwap(h, k);
      SiftedDownOrdered(Swapped(h, k, c), c);
      OrderedUpReady(SiftedDown(h, k), k);
    } else {
      forall i | 0 <= i < |h| && i != k ensures Edge(h, i) {
        assert Parent(i) == k ==> D(h, k) <= D(h, i);
      }
    }
  }

  lemma AppendUpReady(h: Entries, e: HeapEntry)
    requires Ordered(h)
    ensures UpReady(h + [e], |h|)
  {
    var h' := h + [e];
    forall i | 0 <= i < |h'| && i != |h| ensures Edge(h', i) {
      assert Edge(h, i);
    }
  }

  /** The array after the entry at k was overwritten by the last one, which is then dropped. */
  function Replaced(h: Entries, k: int): Entries
    requires 0 <= k < |h| - 1
  {
    h[k := h[|h| - 1]][..|h| - 1]
  }

  function Removed(h: Entries, k: int): Entries
    requires 0 <= k < |h|
  {
    if k != |h| - 1 then Replaced(h, k) else h[..|h| - 1]
  }

  lemma RemovedEntries(h: Entries, k: int)
    requires 0 <= k < |h|
    ensures multiset(Removed(h, k)) == multiset(h) - multiset{h[k]}
  {
    if k != |h| - 1 {
      ReplacedEntries(h, k);
    } else {
      assert h == h[..k] + [h[k]];
    }
  }

  /** What Deactivate leaves in the array. */
  function Deactivated(h: Entries, k: int): Entries
    requires 0 <= k < |h|
  {
    var r := Removed(h, k);
    if k == |h| - 1 then r else SiftedUp(SiftedDown(r, k), k)
  }

  lemma DeactivatedOk(h: Entries, k: int)
    requires 0 <= k < |h| && Ordered(h)
    ensures Ordered(Deactivated(h, k)) && multiset(Deactivated(h, k)) == multiset(h) - multiset{h[k]}
  {
    RemovedEntries(h, k);
    var r := Removed(h, k);
    if k == |h| - 1 {
      forall i | 0 <= i < |r| ensures Edge(r, i) {
        assert Edge(h, i);
      }
    } else {
      ReplacedHole(h, k);
      HoleFilled(r, k);
      SiftedDownEntries(r, k);
      SiftedUpOrdered(SiftedDown(r, k), k);
      SiftedUpEntries(SiftedDown(r, k), k);
    }
  }

  lemma ReplacedHole(h: Entries, k: int)
    requires Ordered(h) && 0 <= k < |h| - 1
    ensures Hole(Replaced(h, k), k)
  {
    var h' := Replaced(h, k);
    forall i | 0 <= i < |h'| && i != k && Parent(i) != k ensures Edge(h', i) {
      assert Edge(h, i);
    }
    OrderedUpReady(h, k);
  }

  lemma ReplacedEntries(h: Entries, k: int)
    requires 0 <= k < |h| - 1
    ensures multiset(Replaced(h, k)) == multiset(h) - multiset{h[k]}
  {
    var n := |h| - 1;
    assert h[k := h[n]] == Replaced(h, k) + [h[n]];
    assert h == h[..n] + [h[n]];
  }

  // ---------------------------------------------------------------------------
  // The heap object and its timers
  // ---------------------------------------------------------------------------

  class TimerHeap {
    var heap: Entries
    /** Every timer created for this heap. */
    ghost var timers: set<Timer>

    /** Entries and timers point at each other, and inactive timers are in no entry. */
    ghost predicate Linked()
      reads this, timers
    {
      && (forall i :: 0 <= i < |heap| ==> heap[i].timer in timers && heap[i].timer.heapPosition == i)
      && (forall t :: t in timers ==>
            t.heapPosition == -1 || (0 <= t.heapPosition < |heap| && heap[t.heapPosition].timer == t))
    }

    ghost predicate Valid()
      reads this, timers
    {
      Linked() && Ordered(heap)
    }

    constructor ()
      ensures Valid() && heap == [] && timers == {}
    {
      heap, timers := [], {};
    }

    /** A timer with a least deadline, or null if none is active. */
    method GetMin() returns (t: Timer?)
      requires Valid()
      ensures t == null <==> heap == []
      ensures t != null ==> t in timers && t.heapPosition == 0 && heap[0].timer == t
      ensures t != null ==> forall e :: e in heap ==> heap[0].deadline <= e.deadline
    {
      if |heap| == 0 {
        return null;
      }
      t := heap[0].timer;
      forall e | e in heap ensures heap[0].deadline <= e.deadline {
        var i :| 0 <= i < |heap| && heap[i] == e;
        RootIsLeast(heap, i);
      }
    }

    /** Exchanges two entries and tells their timers. */
    method SwapEntries(i: int, j: int)
      requires Linked() && 0 <= i < |heap| && 0 <= j < |heap| && i != j
      modifies this`heap, timers`heapPosition
      ensures Linked() && heap == Swapped(old(heap), i, j)
      ensures forall t :: t in timers ==> (t.heapPosition == -1 <==> old(t.heapPosition) == -1)
    {
      heap := Swapped(heap, i, j);
      heap[i].timer.heapPosition := i;
      heap[j].timer.heapPosition := j;
    }

    method SiftUp(start: int)
      requires Linked() && 0 <= start < |heap|
      modifies this`heap, timers`heapPosition
      ensures Linked() && heap == SiftedUp(old(heap), start)
      ensures forall t :: t in timers ==> (t.heapPosition == -1 <==> old(t.heapPosition) == -1)
    {
      var index := start;
      while index > 0
        invariant 0 <= index < |heap| && Linked() && timers == old(timers)
        invariant forall t :: t in timers ==> (t.heapPosition == -1 <==> old(t.heapPosition) == -1)
        invariant SiftedUp(heap, index) == SiftedUp(old(heap), start)
      {
        var parent := (index - 1) / 2;
        if heap[index].deadline > heap[parent].deadline {
          break;
        }
        SwapEntries(index, parent);
        index := parent;
      }
    }

    /** Compares an entry with its two children in turn. */
    method SmallerChild(index: int) returns (smaller: int)
      requires 0 <= index < |heap|
      ensures smaller == Smaller(heap, index)
    {
      smaller := index;
      if index * 2 + 1 < |heap| && heap[smaller].deadline > heap[index * 2 + 1].deadline {
        smaller := index * 2 + 1;
      }
      if index * 2 + 2 < |heap| && heap[smaller].deadline > heap[index * 2 + 2].deadline {
        smaller := index * 2 + 2;
      }
    }

    /** Takes the entry at position out of the array, filling its place with the last one. */
    method RemoveEntry(position: int)
      requires Linked() && 0 <= position < |heap|
      modifies this`heap, timers`heapPosition
      ensures Linked() && heap == Removed(old(heap), position)
      ensures old(heap[position].timer).heapPosition == -1
    {
      heap[position].timer.heapPosition := -1;
      if position != |heap| - 1 {
        heap := Replaced(heap, position);
        heap[position].timer.heapPosition := position;
      } else {
        heap := heap[..|heap| - 1];
      }
    }

    method SiftDown(start: int)
      requires Linked() && 0 <= start < |heap|
      modifies this`heap, timers`heapPosition
      ensures Linked() && heap == SiftedDown(old(heap), start)
      ensures forall t :: t in timers ==> (t.heapPosition == -1 <==> old(t.heapPosition) == -1)
    {
      var index := start;
      while true
        invariant 0 <= index < |heap| && Linked() && timers == old(timers)
        invariant forall t :: t in timers ==> (t.heapPosition == -1 <==> old(t.heapPosition) == -1)
        invariant SiftedDown(heap, index) == SiftedDown(old(heap), start)
        decreases |heap| - index
      {
        var smaller := SmallerChild(index);
        if smaller == index {
          break;
        }
        SwapEntries(index, smaller);
        index := smaller;
      }
    }
  }

  class Timer {
    const heap: TimerHeap
    /** The timer's index in the heap, -1 while inactive. */
    var heapPosition: int

    ghost predicate Attached()
      reads this, heap, heap.timers
    {
      heap.Valid() && this in heap.timers
    }

    constructor (h: TimerHeap)
      requires h.Valid()
      modifies h`timers
      ensures heap == h && Attached() && !IsActive()
      ensures h.heap == old(h.heap) && h.timers == old(h.timers) + {this}
    {
      heap, heapPosition := h, -1;
      new;
      h.timers := h.timers + {this};
    }

    predicate IsActive()
      reads this
    {
      heapPosition != -1
    }

    method GetDeadline() returns (d: int)
      requires Attached() && IsActive()
      ensures HeapEntry(d, this) in heap.heap
    {
      d := heap.heap[heapPosition].deadline;
    }

    /** Adds the entry for this timer, which must not be active yet. */
    method Activate(deadline: int)
      requires Attached() && !IsActive()
      modifies heap`heap, heap.timers`heapPosition
      ensures Attached() && IsActive()
      ensures multiset(heap.heap) == old(multiset(heap.heap)) + multiset{HeapEntry(deadline, this)}
    {
      AppendUpReady(heap.heap, HeapEntry(deadline, this));
      heap.heap := heap.heap + [HeapEntry(deadline, this)];
      heapPosition := |heap.heap| - 1;
      SiftedUpOrdered(heap.heap, heapPosition);
      SiftedUpEntries(heap.heap, heapPosition);
      assert multiset(heap.heap)[HeapEntry(deadline, this)] > 0;
      heap.SiftUp(heapPosition);
      assert HeapEntry(deadline, this) in heap.heap;
    }

    /** Removes this timer's entry if it has one; every other entry stays. */
    method Deactivate()
      requires Attached()
      modifies heap`heap, heap.timers`heapPosition
      ensures Attached() && !IsActive()
      ensures multiset(heap.heap) ==
              if old(heapPosition) == -1 then old(multiset(heap.heap))
              else old(multiset(heap.heap)) - multiset{old(heap.heap[heapPosition])}
    {
      if heapPosition == -1 {
        return;
      }
      var position := heapPosition;
      DeactivatedOk(heap.heap, position);
      heap.RemoveEntry(position);
      if position != |heap.heap| {
        heap.SiftDown(position);
        heap.SiftUp(position);
      }
    }
  }
}
