/**
  Integer matrices as sequences of rows: products, identity and powers, with the laws
  that both matrix components rely on. Entries are read through a total accessor.
*/
module LinearAlgebra {

  type Mat = seq<seq<int>>

  ghost predicate Shape(m: Mat, rows: nat, cols: nat) {
    |m| == rows && forall i :: 0 <= i < rows ==> |m[i]| == cols
  }

  function At(m: Mat, i: int, j: int): int {
    if 0 <= i < |m| && 0 <= j < |m[i]| then m[i][j] else 0
  }

  function SumTo(f: int -> int, n: nat): int {
    if n == 0 then 0 else SumTo(f, n - 1) + f(n - 1)
  }

  function Dot(a: Mat, b: Mat, i: int, j: int, n: nat): int {
    SumTo(z => At(a, i, z) * At(b, z, j), n)
  }

  /** The rows x cols product of a and b over inner dimension n. */
  function MatMul(a: Mat, b: Mat, rows: nat, n: nat, cols: nat): (r: Mat)
    ensures Shape(r, rows, cols)
  {
    seq(rows, i => seq(cols, j => Dot(a, b, i, j, n)))
  }

  function Identity(n: nat): (r: Mat)
    ensures Shape(r, n, n)
  {
    seq(n, i => seq(n, j => if i == j then 1 else 0))
  }

  lemma {:induction false} SumExt(f: int -> int, g: int -> int, n: nat)
    requires forall i :: 0 <= i < n ==> f(i) == g(i)
    ensures SumTo(f, n) == SumTo(g, n)
  {
    if n > 0 {
      SumExt(f, g, n - 1);
    }
  }

  lemma {:induction false} SumAdd(f: int -> int, g: int -> int, n: nat)
    ensures SumTo(i => f(i) + g(i), n) == SumTo(f, n) + SumTo(g, n)
  {
    if n > 0 {
      SumAdd(f, g, n - 1);
    }
  }

  lemma {:induction false} SumScale(c: int, f: int -> int, n: nat)
    ensures SumTo(i => c * f(i), n) == c * SumTo(f, n)
  {
    if n > 0 {
      SumScale(c, f, n - 1);
      assert c * (SumTo(f, n - 1) + f(n - 1)) == c * SumTo(f, n - 1) + c * f(n - 1);
    }
  }

  lemma {:induction false} SumZero(n: nat)
    ensures SumTo(i => 0, n) == 0
  {
    if n > 0 {
      SumZero(n - 1);
    }
  }

  /** Finite double sums may be taken in either order. */
  lemma {:induction false} SumSwap(f: (int, int) -> int, m: nat, n: nat)
    ensures SumTo(i => SumTo(j => f(i, j), n), m) == SumTo(j => SumTo(i => f(i, j), m), n)
    decreases m
  {
    if m == 0 {
      SumZero(n);
      SumExt(j => SumTo(i => f(i, j), m), j => 0, n);
    } else {
      SumSwap(f, m - 1, n);
      var inner := (j: int) => SumTo(i => f(i, j), m - 1);
      var last := (j: int) => f(m - 1, j);
      SumAdd(inner, last, n);
      SumExt(j => SumTo(i => f(i, j), m), j => inner(j) + last(j), n);
    }
  }

  /** A sum with a single non-zero term. */
  lemma {:induction false} SumUnit(f: int -> int, k: int, n: nat)
    requires forall i :: 0 <= i < n && i != k ==> f(i) == 0
    ensures SumTo(f, n) == if 0 <= k < n then f(k) else 0
  {
    if n > 0 {
      SumUnit(f, k, n - 1);
    }
  }

  lemma DotAssoc(a: Mat, b: Mat, c: Mat, i: int, j: int, m: nat, n: nat)
    ensures SumTo(y => Dot(a, b, i, y, m) * At(c, y, j), n) == SumTo(x => At(a, i, x) * Dot(b, c, x, j, n), m)
  {
    var f := (y: int, x: int) => At(a, i, x) * At(b, x, y) * At(c, y, j);
    forall y ensures Dot(a, b, i, y, m) * At(c, y, j) == SumTo(x => f(y, x), m) {
      var g := (x: int) => At(a, i, x) * At(b, x, y);
      SumScale(At(c, y, j), g, m);
      SumExt(x => f(y, x), x => At(c, y, j) * g(x), m);
      SumExt(g, z => At(a, i, z) * At(b, z, y), m);
    }
    forall x ensures At(a, i, x) * Dot(b, c, x, j, n) == SumTo(y => f(y, x), n) {
      var g := (y: int) => At(b, x, y) * At(c, y, j);
      SumScale(At(a, i, x), g, n);
      forall y ensures f(y, x) == At(a, i, x) * g(y) {
        MulAssoc(At(a, i, x), At(b, x, y), At(c, y, j));
      }
      SumExt(y => f(y, x), y => At(a, i, x) * g(y), n);
      SumExt(g, z => At(b, x, z) * At(c, z, j), n);
    }
    SumExt(y => Dot(a, b, i, y, m) * At(c, y, j), y => SumTo(x => f(y, x), m), n);
    SumExt(x => At(a, i, x) * Dot(b, c, x, j, n), x => SumTo(y => f(y, x), n), m);
    SumSwap(f, n, m);
  }

  lemma MulAssoc(x: int, y: int, z: int)
    ensures x * y * z == x * (y * z)
  {
  }

  /** Matrix multiplication is associative. */
  lemma MulAssociative(a: Mat, b: Mat, c: Mat, r: nat, m: nat, n: nat, s: nat)
    ensures MatMul(MatMul(a, b, r, m, n), c, r, n, s) == MatMul(a, MatMul(b, c, m, n, s), r, m, s)
  {
    var ab, bc := MatMul(a, b, r, m, n), MatMul(b, c, m, n, s);
    forall i, j | 0 <= i < r && 0 <= j < s ensures Dot(ab, c, i, j, n) == Dot(a, bc, i, j, m) {
      DotAssoc(a, b, c, i, j, m, n);
      SumExt(z => At(ab, i, z) * At(c, z, j), y => Dot(a, b, i, y, m) * At(c, y, j), n);
      SumExt(z => At(a, i, z) * At(bc, z, j), x => At(a, i, x) * Dot(b, c, x, j, n), m);
    }
    Extensional(MatMul(ab, c, r, n, s), MatMul(a, bc, r, m, s), r, s);
  }

  lemma Extensional(a: Mat, b: Mat, r: nat, s: nat)
    requires Shape(a, r, s) && Shape(b, r, s)
    requires forall i, j :: 0 <= i < r && 0 <= j < s ==> At(a, i, j) == At(b, i, j)
    ensures a == b
  {
    forall i | 0 <= i < r ensures a[i] == b[i] {
      forall j | 0 <= j < s ensures a[i][j] == b[i][j] {
        assert At(a, i, j) == At(b, i, j);
      }
    }
  }

  lemma MulIdentityLeft(a: Mat, n: nat, s: nat)
    requires Shape(a, n, s)
    ensures MatMul(Identity(n), a, n, n, s) == a
  {
    forall i, j | 0 <= i < n && 0 <= j < s ensures Dot(Identity(n), a, i, j, n) == At(a, i, j) {
      SumUnit(z => At(Identity(n), i, z) * At(a, z, j), i, n);
    }
    Extensional(MatMul(Identity(n), a, n, n, s), a, n, s);
  }

  lemma MulIdentityRight(a: Mat, r: nat, n: nat)
    requires Shape(a, r, n)
    ensures MatMul(a, Identity(n), r, n, n) == a
  {
    forall i, j | 0 <= i < r && 0 <= j < n ensures Dot(a, Identity(n), i, j, n) == At(a, i, j) {
      SumUnit(z => At(a, i, z) * At(Identity(n), z, j), j, n);
    }
    Extensional(MatMul(a, Identity(n), r, n, n), a, r, n);
  }
}
