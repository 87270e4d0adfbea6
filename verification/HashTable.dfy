/**
  The chained hash table with sorted buckets and in-place doubling, as one thread sees it
  while it holds the locks it needs.
*/
module HashTable {
  import opened Common

  type Key = int
  type Value = int
  type Hasher = Key -> nat

  datatype Entry = Entry(key: Key, value: Value)

  type Bucket = seq<Entry>
  type Table = seq<Bucket>
  type Contents = map<Key, Value>

  /** For every stored key, the bucket it is in. */
  type Places = map<Key, nat>

  // ---------------------------------------------------------------------------
  // Buckets
  // ---------------------------------------------------------------------------

  ghost predicate Sorted(b: Bucket) {
    forall i, j :: 0 <= i < j < |b| ==> b[i].key < b[j].key
  }

  ghost predicate InBucket(b: Bucket, k: Key) {
    exists i :: 0 <= i < |b| && b[i].key == k
  }

  function InsertAt(b: Bucket, i: nat, e: Entry): Bucket
    requires i <= |b|
  {
    b[..i] + [e] + b[i..]
  }

  function RemoveAt(b: Bucket, i: nat): Bucket
    requires i < |b|
  {
    b[..i] + b[i + 1..]
  }

  /** i is where k is or belongs. */
  ghost predicate PositionOf(b: Bucket, k: Key, i: nat) {
    && i <= |b| && (forall j :: 0 <= j < i ==> b[j].key < k)
    && (forall j :: i <= j < |b| ==> k <= b[j].key)
  }

  /** Where the scan of a bucket for k stops. */
  function Position(b: Bucket, k: Key): (i: nat)
    ensures i <= |b|
  {
    if b == [] || b[0].key >= k then 0 else 1 + Position(b[1..], k)
  }

  lemma {:induction false} PositionRight(b: Bucket, k: Key)
    requires Sorted(b)
    ensures PositionOf(b, k, Position(b, k))
  {
    if b != [] && b[0].key < k {
      PositionRight(b[1..], k);
      forall j | 0 < j < |b| ensures b[j] == b[1..][j - 1] { }
    }
  }

  lemma InsertSorted(b: Bucket, i: nat, e: Entry)
    requires Sorted(b) && PositionOf(b, e.key, i) && !InBucket(b, e.key)
    ensures Sorted(InsertAt(b, i, e))
  {
    var b' := InsertAt(b, i, e);
    forall j | i <= j < |b| ensures e.key < b[j].key {
      assert b[j].key != e.key;
    }
    forall x, y | 0 <= x < y < |b'| ensures b'[x].key < b'[y].key {
      var x', y' := if x < i then x else x - 1, if y < i then y else y - 1;
      assert x != i ==> b'[x] == b[x'];
      assert y != i ==> b'[y] == b[y'];
    }
  }

  lemma RemoveSorted(b: Bucket, i: nat)
    requires Sorted(b) && i < |b|
    ensures Sorted(RemoveAt(b, i))
  {
    var b' := RemoveAt(b, i);
    forall x, y | 0 <= x < y < |b'| ensures b'[x].key < b'[y].key {
      assert b'[x] == b[if x < i then x else x + 1] && b'[y] == b[if y < i then y else y + 1];
    }
  }

  lemma InsertHolds(b: Bucket, i: nat, e: Entry, k: Key)
    requires i <= |b|
    ensures InBucket(InsertAt(b, i, e), k) <==> InBucket(b, k) || k == e.key
  {
    var b' := InsertAt(b, i, e);
    assert b'[i] == e;
    if InBucket(b, k) {
      var j :| 0 <= j < |b| && b[j].key == k;
      assert b'[if j < i then j else j + 1] == b[j];
    }
    if InBucket(b', k) {
      var j :| 0 <= j < |b'| && b'[j].key == k;
      assert j != i ==> b'[j] == b[if j < i then j else j - 1];
    }
  }

  lemma RemoveHolds(b: Bucket, i: nat, k: Key)
    requires i < |b| && Sorted(b)
    ensures InBucket(RemoveAt(b, i), k) <==> InBucket(b, k) && k != b[i].key
  {
    var b' := RemoveAt(b, i);
    if InBucket(b, k) && k != b[i].key {
      var j :| 0 <= j < |b| && b[j].key == k;
      assert b'[if j < i then j else j - 1] == b[j];
    }
    if InBucket(b', k) {
      var j :| 0 <= j < |b'| && b'[j].key == k;
      assert b'[j] == b[if j < i then j else j + 1];
    }
  }

  // ---------------------------------------------------------------------------
  // Tables
  // ---------------------------------------------------------------------------

  ghost predicate BucketOk(b: Bucket, j: nat, c: Contents, p: Places) {
    && Sorted(b)
    && forall i :: 0 <= i < |b| ==> b[i].key in c && c[b[i].key] == b[i].value && b[i].key in p && p[b[i].key] == j
  }

  /** The table stores exactly the contents, each key once, in the bucket the places say. */
  ghost predicate Stores(t: Table, c: Contents, p: Places) {
    && (forall j :: 0 <= j < |t| ==> BucketOk(t[j], j, c, p))
    && (forall k :: k in c ==> k in p && p[k] < |t| && InBucket(t[p[k]], k))
  }

  function Total(t: Table): nat {
    if t == [] then 0 else |t[0]| + Total(t[1..])
  }

  lemma {:induction false} TotalUpdate(t: Table, j: nat, b: Bucket)
    requires j < |t|
    ensures Total(t[j := b]) == Total(t) - |t[j]| + |b|
  {
    if j > 0 {
      TotalUpdate(t[1..], j - 1, b);
      assert t[j := b][1..] == t[1..][j - 1 := b];
    } else {
      assert t[j := b][1..] == t[1..];
    }
  }

  lemma {:induction false} TotalConcat(t: Table, u: Table)
    ensures Total(t + u) == Total(t) + Total(u)
  {
    if t != [] {
      TotalConcat(t[1..], u);
      assert (t + u)[1..] == t[1..] + u;
    } else {
      assert t + u == u;
    }
  }

  lemma StoresAbsent(t: Table, c: Contents, p: Places, k: Key, j: nat)
    requires Stores(t, c, p) && j < |t| && (k in c ==> p[k] == j)
    ensures InBucket(t[j], k) <==> k in c
  {
    assert BucketOk(t[j], j, c, p);
  }

  lemma OtherBucketInsert(b: Bucket, j: nat, c: Contents, p: Places, e: Entry, to: nat)
    requires BucketOk(b, j, c, p) && e.key !in c
    ensures BucketOk(b, j, c[e.key := e.value], p[e.key := to])
  {
  }

  lemma BucketInsert(b: Bucket, j: nat, c: Contents, p: Places, e: Entry, i: nat)
    requires BucketOk(b, j, c, p) && e.key !in c && PositionOf(b, e.key, i)
    ensures BucketOk(InsertAt(b, i, e), j, c[e.key := e.value], p[e.key := j])
  {
    var b' := InsertAt(b, i, e);
    InsertSorted(b, i, e);
    forall x | 0 <= x < |b'| && x != i ensures b'[x].key in c && b'[x] == b[if x < i then x else x - 1] { }
  }

  lemma StoresInsert(t: Table, c: Contents, p: Places, j: nat, i: nat, e: Entry)
    requires Stores(t, c, p) && j < |t| && e.key !in c && PositionOf(t[j], e.key, i)
    ensures Stores(t[j := InsertAt(t[j], i, e)], c[e.key := e.value], p[e.key := j])
    ensures Total(t[j := InsertAt(t[j], i, e)]) == Total(t) + 1
  {
    var t', c', p' := t[j := InsertAt(t[j], i, e)], c[e.key := e.value], p[e.key := j];
    forall x | 0 <= x < |t'| ensures BucketOk(t'[x], x, c', p') {
      assert BucketOk(t[x], x, c, p);
      if x == j { BucketInsert(t[j], j, c, p, e, i); } else { OtherBucketInsert(t[x], x, c, p, e, j); }
    }
    forall k | k in c' ensures k in p' && p'[k] < |t'| && InBucket(t'[p'[k]], k) {
      InsertHolds(t[j], i, e, k);
    }
    TotalUpdate(t, j, InsertAt(t[j], i, e));
  }

  lemma OtherBucketErase(b: Bucket, j: nat, c: Contents, p: Places, k: Key)
    requires BucketOk(b, j, c, p) && k in p && p[k] != j
    ensures BucketOk(b, j, c - {k}, p - {k})
  {
  }

  lemma BucketErase(b: Bucket, j: nat, c: Contents, p: Places, i: nat)
    requires BucketOk(b, j, c, p) && i < |b|
    ensures BucketOk(RemoveAt(b, i), j, c - {b[i].key}, p - {b[i].key})
  {
    var b' := RemoveAt(b, i);
    RemoveSorted(b, i);
    forall x | 0 <= x < |b'| ensures b'[x].key != b[i].key && b'[x] == b[if x < i then x else x + 1] { }
  }

  lemma StoresErase(t: Table, c: Contents, p: Places, j: nat, i: nat)
    requires Stores(t, c, p) && j < |t| && i < |t[j]|
    ensures var k := t[j][i].key; k in c && Stores(t[j := RemoveAt(t[j], i)], c - {k}, p - {k})
    ensures Total(t[j := RemoveAt(t[j], i)]) == Total(t) - 1
  {
    assert BucketOk(t[j], j, c, p);
    var k := t[j][i].key;
    var t', c', p' := t[j := RemoveAt(t[j], i)], c - {k}, p - {k};
    forall x | 0 <= x < |t'| ensures BucketOk(t'[x], x, c', p') {
      assert BucketOk(t[x], x, c, p);
      if x == j { BucketErase(t[j], j, c, p, i); } else { OtherBucketErase(t[x], x, c, p, k); }
    }
    forall x | x in c' ensures x in p' && p'[x] < |t'| && InBucket(t'[p'[x]], x) {
      RemoveHolds(t[j], i, x);
    }
    TotalUpdate(t, j, RemoveAt(t[j], i));
  }

  // ---------------------------------------------------------------------------
  // Rehashing
  // ---------------------------------------------------------------------------

  /** Positions a..z of the bucket hold keys that belong to bucket j of n. */
  ghost predicate Home(h: Hasher, b: Bucket, a: nat, z: nat, j: nat, n: nat)
    requires n > 0
  {
    forall m :: a <= m < z && m < |b| ==> h(b[m].key) % n == j
  }

  /** Every key is in the bucket its hash selects. */
  function Homes(h: Hasher, c: Contents, n: nat): Places
    requires n > 0
  {
    map k | k in c :: h(k) % n
  }

  /** Doubling a modulus keeps the remainder or adds the old modulus to it. */
  lemma DoubleModulus(x: nat, n: nat)
    requires n > 0
    ensures x % (2 * n) == x % n || x % (2 * n) == x % n + n
  {
    var q, r := x / n, x % n;
    assert x == q * n + r;
    var half := q / 2;
    assert q == 2 * half || q == 2 * half + 1;
    if q == 2 * half {
      Remainder(x, 2 * n, half, r);
    } else {
      assert q * n == half * (2 * n) + n;
      Remainder(x, 2 * n, half, r + n);
    }
  }

  /** An entry moves to another bucket: the contents stay, only its place changes. */
  lemma StoresMove(t: Table, c: Contents, p: Places, from: nat, i: nat, to: nat, x: nat)
    requires Stores(t, c, p) && from < |t| && to < |t| && from != to && i < |t[from]|
    requires PositionOf(t[to], t[from][i].key, x)
    ensures var e := t[from][i];
            var t' := t[to := InsertAt(t[to], x, e)][from := RemoveAt(t[from], i)];
            Stores(t', c, p[e.key := to]) && Total(t') == Total(t)
  {
    var e := t[from][i];
    assert BucketOk(t[from], from, c, p);
    StoresErase(t, c, p, from, i);
    var t1 := t[from := RemoveAt(t[from], i)];
    StoresInsert(t1, c - {e.key}, p - {e.key}, to, x, e);
    assert (c - {e.key})[e.key := e.value] == c;
    assert (p - {e.key})[e.key := to] == p[e.key := to];
    assert t1[to := InsertAt(t1[to], x, e)] == t[to := InsertAt(t[to], x, e)][from := RemoveAt(t[from], i)];
  }

  /** While bucket cur of the doubled table is being split, positions before i are done. */
  ghost predicate Splitting(h: Hasher, t: Table, n: nat, cur: nat, i: nat) {
    && n > 0 && |t| == 2 * n && cur < 2 * n
    && (forall j :: 0 <= j < |t| && j != cur ==> Home(h, t[j], 0, |t[j]|, j, if j < cur || j >= n then 2 * n else n))
    && Home(h, t[cur], 0, i, cur, 2 * n)
    && Home(h, t[cur], i, |t[cur]|, cur, if cur < n then n else 2 * n)
  }

  lemma InsertHome(h: Hasher, b: Bucket, x: nat, e: Entry, j: nat, n: nat)
    requires n > 0 && x <= |b| && Home(h, b, 0, |b|, j, n) && h(e.key) % n == j
    ensures Home(h, InsertAt(b, x, e), 0, |b| + 1, j, n)
  {
    var b' := InsertAt(b, x, e);
    forall m | 0 <= m < |b'| && m != x ensures b'[m] == b[if m < x then m else m - 1] { }
  }

  lemma RemoveHome(h: Hasher, b: Bucket, i: nat, a: nat, z: nat, j: nat, n: nat)
    requires n > 0 && i < |b| && Home(h, b, a, z, j, n)
    ensures z <= i ==> Home(h, RemoveAt(b, i), a, z, j, n)
    ensures a <= i && z == |b| ==> Home(h, RemoveAt(b, i), i, |b| - 1, j, n)
  {
    var b' := RemoveAt(b, i);
    forall m | 0 <= m < |b'| ensures b'[m] == b[if m < i then m else m + 1] { }
  }

  /** Moving the entry at i out leaves the others where they belong, and puts it where it belongs. */
  lemma SplittingMove(h: Hasher, t: Table, n: nat, cur: nat, i: nat, to: nat, x: nat)
    requires Splitting(h, t, n, cur, i) && i < |t[cur]|
    requires to == h(t[cur][i].key) % (2 * n) && to != cur && x <= |t[to]|
    ensures to >= n
    ensures Splitting(h, t[to := InsertAt(t[to], x, t[cur][i])][cur := RemoveAt(t[cur], i)], n, cur, i)
  {
    var e := t[cur][i];
    DoubleModulus(h(e.key), n);
    assert cur < n && to == cur + n;
    InsertHome(h, t[to], x, e, to, 2 * n);
    RemoveHome(h, t[cur], i, 0, i, cur, 2 * n);
    RemoveHome(h, t[cur], i, i, |t[cur]|, cur, n);
  }

  lemma SplittingNext(h: Hasher, t: Table, n: nat, cur: nat)
    requires cur + 1 < |t| && Splitting(h, t, n, cur, |t[cur]|)
    ensures Splitting(h, t, n, cur + 1, 0)
  {
    assert Home(h, t[cur + 1], 0, |t[cur + 1]|, cur + 1, if cur + 1 < cur || cur + 1 >= n then 2 * n else n);
  }

  /** Once everything is split, every key is where its hash modulo the doubled size says. */
  lemma SplitDone(h: Hasher, t: Table, c: Contents, p: Places, n: nat)
    requires n > 0 && |t| == 2 * n && Splitting(h, t, n, 2 * n - 1, |t[2 * n - 1]|) && Stores(t, c, p)
    ensures Stores(t, c, Homes(h, c, 2 * n))
  {
    var q := Homes(h, c, 2 * n);
    forall j | 0 <= j < |t| ensures BucketOk(t[j], j, c, q) && Home(h, t[j], 0, |t[j]|, j, 2 * n) {
      assert BucketOk(t[j], j, c, p);
      assert Home(h, t[j], 0, |t[j]|, j, 2 * n);
    }
    forall k | k in c ensures k in q && q[k] < |t| && InBucket(t[q[k]], k) {
      var b := t[p[k]];
      assert Home(h, b, 0, |b|, p[k], 2 * n);
      var i :| 0 <= i < |b| && b[i].key == k;
      assert h(b[i].key) % (2 * n) == p[k];
    }
  }

  lemma DoubledStart(h: Hasher, t: Table, c: Contents, n: nat)
    requires n > 0 && |t| == n && Stores(t, c, Homes(h, c, n))
    ensures var t' := t + seq(n, _ => []);
            Splitting(h, t', n, 0, 0) && Stores(t', c, Homes(h, c, n)) && Total(t') == Total(t)
  {
    var empty: Table := seq(n, _ => []);
    var t' := t + empty;
    forall j | 0 <= j < |t'| ensures BucketOk(t'[j], j, c, Homes(h, c, n)) {
      assert j < n ==> BucketOk(t[j], j, c, Homes(h, c, n));
    }
    TotalConcat(t, empty);
    EmptyTotal(n);
  }

  lemma {:induction false} EmptyTotal(n: nat)
    ensures Total(seq(n, _ => [])) == 0
  {
    if n > 0 {
      EmptyTotal(n - 1);
      var e: Table := seq(n, _ => []);
      var f: Table := seq(n - 1, _ => []);
      assert e[1..] == f;
    }
  }

  // ---------------------------------------------------------------------------
  // The map object
  // ---------------------------------------------------------------------------

  const UNDEFINED_SIZE: int := -1
  const LOAD_FACTOR: nat := 2

  /** The source's integer division, which truncates toward zero. */
  function Quotient(a: int, b: int): int
    requires b > 0
  {
    if a >= 0 then a / b else -(-a / b)
  }

  function ListsCount(expectedSize: int, threads: int): int
    requires threads > 0
  {
    if expectedSize != UNDEFINED_SIZE then
      (Quotient((Quotient(expectedSize - 1, LOAD_FACTOR) + 1) - 1, threads) + 1) * threads
    else 4 * threads
  }

  lemma RoundUp(lists: nat, threads: nat)
    requires threads > 0
    ensures (lists / threads + 1) * threads >= threads && (lists / threads + 1) * threads > lists
  {
    var q := lists / threads;
    assert lists == q * threads + lists % threads;
    assert (q + 1) * threads == q * threads + threads;
    assert q * threads >= 0;
  }

  /** The initial table is not empty, is a multiple of the thread count and holds what is expected. */
  lemma ListsCountOk(expectedSize: int, threads: int)
    requires threads > 0 && expectedSize >= -1
    ensures ListsCount(expectedSize, threads) >= threads
    ensures ListsCount(expectedSize, threads) * LOAD_FACTOR >= expectedSize
  {
    if expectedSize >= 1 {
      RoundUp((expectedSize - 1) / LOAD_FACTOR, threads);
    }
  }

  class HashMap {
    const hasher: Hasher
    /** The number of mutexes; it never changes. */
    const stripes: nat
    var table: Table
    var size: nat
    ghost var contents: Contents

    ghost predicate Valid()
      reads this
    {
      && stripes > 0 && |table| > 0 && |table| % stripes == 0
      && Stores(table, contents, Homes(hasher, contents, |table|))
      && size == Total(table) == |contents|
    }

    constructor (expectedSize: int, threads: int, h: Hasher)
      requires threads > 0 && ListsCount(expectedSize, threads) > 0
      ensures Valid() && contents == map[] && hasher == h
      ensures stripes == |table| == ListsCount(expectedSize, threads)
    {
      var n: nat := ListsCount(expectedSize, threads);
      EmptyTotal(n);
      hasher, stripes, table, size, contents := h, n, seq(n, _ => []), 0, map[];
    }

    /** The first position whose key is not smaller, or the end. */
    method FindPosInList(list: nat, key: Key) returns (i: nat)
      requires list < |table| && Sorted(table[list])
      ensures PositionOf(table[list], key, i)
      ensures InBucket(table[list], key) <==> i < |table[list]| && table[list][i].key == key
    {
      i := 0;
      while i < |table[list]|
        invariant i <= |table[list]| && forall j :: 0 <= j < i ==> table[list][j].key < key
      {
        if table[list][i].key >= key {
          break;
        }
        i := i + 1;
      }
    }

    method InsertIntoList(list: nat, e: Entry) returns (inserted: bool, ghost i: nat)
      requires list < |table| && Sorted(table[list])
      modifies this`table
      ensures inserted <==> !InBucket(old(table)[list], e.key)
      ensures PositionOf(old(table)[list], e.key, i)
      ensures table == if inserted then old(table)[list := InsertAt(old(table)[list], i, e)] else old(table)
    {
      var f := FindPosInList(list, e.key);
      i := f;
      if f == |table[list]| || table[list][f].key != e.key {
        table := table[list := InsertAt(table[list], f, e)];
        inserted := true;
      } else {
        inserted := false;
      }
    }

    method EraseFromList(list: nat, key: Key) returns (erased: bool, ghost i: nat)
      requires list < |table| && Sorted(table[list])
      modifies this`table
      ensures erased <==> InBucket(old(table)[list], key)
      ensures erased ==> i < |old(table)[list]| && old(table)[list][i].key == key
                         && table == old(table)[list := RemoveAt(old(table)[list], i)]
      ensures !erased ==> table == old(table)
    {
      var f := FindPosInList(list, key);
      i := f;
      if f != |table[list]| && table[list][f].key == key {
        table := table[list := RemoveAt(table[list], f)];
        erased := true;
      } else {
        erased := false;
      }
    }

    method Find(key: Key) returns (found: bool, value: Value)
      requires Valid()
      ensures found <==> key in contents
      ensures found ==> value == contents[key]
    {
      var list := hasher(key) % |table|;
      assert BucketOk(table[list], list, contents, Homes(hasher, contents, |table|));
      StoresAbsent(table, contents, Homes(hasher, contents, |table|), key, list);
      var i := FindPosInList(list, key);
      if i != |table[list]| && table[list][i].key == key {
        return true, table[list][i].value;
      }
      return false, 0;
    }

    /** Adds the pair unless the key is present; the table then may double. */
    method Insert(key: Key, value: Value) returns (res: bool)
      requires Valid()
      modifies this
      ensures Valid() && res == (key !in old(contents))
      ensures contents == if res then old(contents)[key := value] else old(contents)
      ensures |table| == if |contents| / old(|table|) > LOAD_FACTOR then 2 * old(|table|) else old(|table|)
    {
      res := InsertLocked(key, value);
      if size / |table| > LOAD_FACTOR {
        Rehash();
      }
    }

    /** The part of Insert under the key's mutex. */
    method InsertLocked(key: Key, value: Value) returns (res: bool)
      requires Valid()
      modifies this
      ensures Valid() && res == (key !in old(contents)) && |table| == old(|table|)
      ensures contents == if res then old(contents)[key := value] else old(contents)
    {
      var list := hasher(key) % |table|;
      ghost var p := Homes(hasher, contents, |table|);
      assert BucketOk(table[list], list, contents, p);
      StoresAbsent(table, contents, p, key, list);
      ghost var t := table;
      ghost var i;
      res, i := InsertIntoList(list, Entry(key, value));
      if res {
        StoresInsert(t, contents, p, list, i, Entry(key, value));
        contents := contents[key := value];
        assert Homes(hasher, contents, |table|) == p[key := list];
        size := size + 1;
      }
    }

    method Erase(key: Key) returns (res: bool)
      requires Valid()
      modifies this
      ensures Valid() && res == (key in old(contents)) && |table| == old(|table|)
      ensures contents == old(contents) - {key}
    {
      var list := hasher(key) % |table|;
      ghost var p := Homes(hasher, contents, |table|);
      assert BucketOk(table[list], list, contents, p);
      StoresAbsent(table, contents, p, key, list);
      ghost var t := table;
      ghost var i;
      res, i := EraseFromList(list, key);
      if res {
        StoresErase(t, contents, p, list, i);
        ghost var c := contents;
        contents := contents - {key};
        Shrink(c, key);
        assert Homes(hasher, contents, |table|) == p - {key};
        size := size - 1;
      } else {
        assert contents - {key} == contents;
      }
    }

    method Clear()
      requires Valid()
      modifies this
      ensures Valid() && contents == map[] && |table| == old(|table|)
    {
      var i := 0;
      while i < |table|
        invariant 0 <= i <= |table| && |table| == old(|table|)
        invariant forall j :: 0 <= j < i ==> table[j] == []
      {
        table := table[i := []];
        i := i + 1;
      }
      size := 0;
      contents := map[];
      EmptyTotal(|table|);
      assert table == seq(|table|, _ => []);
    }

    /** Doubles the table and moves every entry that belongs to the new half. */
    method Rehash()
      requires Valid()
      modifies this`table
      ensures Valid() && |table| == 2 * old(|table|)
    {
      var n := |table|;
      ghost var p := Homes(hasher, contents, n);
      DoubledStart(hasher, table, contents, n);
      table := table + seq(n, _ => []);
      var list := 0;
      while list < |table|
        invariant 0 <= list <= |table| == 2 * n && Stores(table, contents, p) && Total(table) == old(Total(table))
        invariant list < 2 * n ==> Splitting(hasher, table, n, list, 0)
        invariant list == 2 * n ==> Splitting(hasher, table, n, 2 * n - 1, |table[2 * n - 1]|)
      {
        p := SplitList(list, n, p);
        if list + 1 < 2 * n {
          SplittingNext(hasher, table, n, list);
        }
        list := list + 1;
      }
      SplitDone(hasher, table, contents, p, n);
      Doubled(n, stripes);
    }

    method SplitList(list: nat, n: nat, ghost p: Places) returns (ghost p': Places)
      requires Splitting(hasher, table, n, list, 0) && Stores(table, contents, p)
      modifies this`table
      ensures |table| == 2 * n && Splitting(hasher, table, n, list, |table[list]|)
      ensures Stores(table, contents, p') && Total(table) == old(Total(table))
    {
      p' := p;
      var i := 0;
      while i < |table[list]|
        invariant |table| == 2 * n && i <= |table[list]| && Splitting(hasher, table, n, list, i)
        invariant Stores(table, contents, p') && Total(table) == old(Total(table))
        decreases |table[list]| - i
      {
        var e := table[list][i];
        var target := hasher(e.key) % |table|;
        if target != list {
          p' := MoveEntry(list, i, target, n, p');
        } else {
          i := i + 1;
        }
      }
    }

    /** Inserts the entry into its new list and then erases it from the old one. */
    method MoveEntry(list: nat, i: nat, target: nat, n: nat, ghost p: Places) returns (ghost p': Places)
      requires Splitting(hasher, table, n, list, i) && Stores(table, contents, p) && i < |table[list]|
      requires target == hasher(table[list][i].key) % (2 * n) && target != list
      modifies this`table
      ensures |table| == 2 * n && Splitting(hasher, table, n, list, i) && Stores(table, contents, p')
      ensures Total(table) == old(Total(table)) && |table[list]| == old(|table[list]|) - 1
    {
      var e := table[list][i];
      ghost var t := table;
      ghost var x;
      var inserted;
      assert BucketOk(table[target], target, contents, p) && BucketOk(table[list], list, contents, p);
      inserted, x := InsertIntoList(target, e);
      StoresMove(t, contents, p, list, i, target, x);
      SplittingMove(hasher, t, n, list, i, target, x);
      table := table[list := RemoveAt(table[list], i)];
      p' := p[e.key := target];
    }
  }

  lemma Shrink(c: Contents, k: Key)
    requires k in c
    ensures |c - {k}| == |c| - 1
  {
    assert (c - {k}).Keys == c.Keys - {k};
    assert |c| == |c.Keys| && |c - {k}| == |(c - {k}).Keys|;
  }

  lemma Doubled(n: nat, m: nat)
    requires m > 0 && n % m == 0
    ensures (2 * n) % m == 0
  {
    assert n == n / m * m;
    assert 2 * n == (2 * (n / m)) * m;
    Remainder(2 * n, m, 2 * (n / m), 0);
  }
}
