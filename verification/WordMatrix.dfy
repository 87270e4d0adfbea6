/** Matrices over 64-bit words: every entry is kept modulo 2^64. */
module WordMatrix {
  import opened LinearAlgebra

  const WORD: int := 0x1_0000_0000_0000_0000

  function Wrap(x: int): (w: int)
    ensures 0 <= w < WORD
  {
    x % WORD
  }

  ghost predicate Words(m: Mat) {
    forall i, j :: 0 <= i < |m| && 0 <= j < |m[i]| ==> 0 <= m[i][j] < WORD
  }

  ghost predicate Square(m: Mat, n: nat) {
    Shape(m, n, n) && Words(m)
  }

  /** The product in 64-bit arithmetic. */
  ghost function WMul(a: Mat, b: Mat, rows: nat, n: nat, cols: nat): (r: Mat)
    ensures Shape(r, rows, cols) && Words(r)
  {
    seq(rows, i => seq(cols, j => Wrap(Dot(a, b, i, j, n))))
  }

  /** The k-fold product of m with itself. */
  ghost function WPow(m: Mat, k: nat, n: nat): (r: Mat)
    ensures Square(r, n)
  {
    if k == 0 then Identity(n) else WMul(WPow(m, k - 1, n), m, n, n, n)
  }

  // ---------------------------------------------------------------------------
  // Wrap is a ring homomorphism
  // ---------------------------------------------------------------------------

  lemma WrapShift(x: int, k: int)
    ensures Wrap(x + WORD * k) == Wrap(x)
  {
    var q, r := x / WORD, x % WORD;
    assert x + WORD * k == WORD * (q + k) + r;
    assert (x + WORD * k) / WORD == q + k;
  }

  lemma WrapAdd(x: int, y: int, x': int, y': int)
    requires Wrap(x) == Wrap(x') && Wrap(y) == Wrap(y')
    ensures Wrap(x + y) == Wrap(x' + y')
  {
    var k, l := x / WORD - x' / WORD, y / WORD - y' / WORD;
    assert x == x' + WORD * k && y == y' + WORD * l;
    WrapShift(x' + y', k + l);
  }

  lemma WrapMulLeft(x: int, x': int, y: int)
    requires Wrap(x) == Wrap(x')
    ensures Wrap(x * y) == Wrap(x' * y)
  {
    var k := x / WORD - x' / WORD;
    assert x == x' + WORD * k;
    assert x * y == x' * y + WORD * (k * y) by {
      Expand(x', k, y);
    }
    WrapShift(x' * y, k * y);
  }

  lemma Expand(x: int, k: int, y: int)
    ensures (x + WORD * k) * y == x * y + WORD * (k * y)
  {
    assert (x + WORD * k) * y == x * y + (WORD * k) * y;
    MulAssoc(WORD, k, y);
  }

  lemma WrapMul(x: int, y: int, x': int, y': int)
    requires Wrap(x) == Wrap(x') && Wrap(y) == Wrap(y')
    ensures Wrap(x * y) == Wrap(x' * y')
  {
    WrapMulLeft(x, x', y);
    WrapMulLeft(y, y', x');
    assert x' * y == y * x' && x' * y' == y' * x';
  }

  lemma {:induction false} WrapSum(f: int -> int, g: int -> int, n: nat)
    requires forall i :: 0 <= i < n ==> Wrap(f(i)) == Wrap(g(i))
    ensures Wrap(SumTo(f, n)) == Wrap(SumTo(g, n))
  {
    if n > 0 {
      WrapSum(f, g, n - 1);
      WrapAdd(SumTo(f, n - 1), f(n - 1), SumTo(g, n - 1), g(n - 1));
    }
  }

  /** Congruent rows and columns have congruent dot products. */
  lemma WrapDot(a: Mat, b: Mat, a': Mat, b': Mat, i: int, j: int, n: nat)
    requires forall z :: 0 <= z < n ==> Wrap(At(a, i, z)) == Wrap(At(a', i, z))
    requires forall z :: 0 <= z < n ==> Wrap(At(b, z, j)) == Wrap(At(b', z, j))
    ensures Wrap(Dot(a, b, i, j, n)) == Wrap(Dot(a', b', i, j, n))
  {
    var f, g := (z: int) => At(a, i, z) * At(b, z, j), (z: int) => At(a', i, z) * At(b', z, j);
    forall z | 0 <= z < n ensures Wrap(f(z)) == Wrap(g(z)) {
      WrapMul(At(a, i, z), At(b, z, j), At(a', i, z), At(b', z, j));
    }
    WrapSum(f, g, n);
    SumExt(f, z => At(a, i, z) * At(b, z, j), n);
    SumExt(g, z => At(a', i, z) * At(b', z, j), n);
  }

  lemma WrapIdempotent(x: int)
    ensures Wrap(Wrap(x)) == Wrap(x)
  {
  }

  lemma AtWMul(a: Mat, b: Mat, rows: nat, n: nat, cols: nat, i: int, j: int)
    requires 0 <= i < rows && 0 <= j < cols
    ensures At(WMul(a, b, rows, n, cols), i, j) == Wrap(Dot(a, b, i, j, n))
    ensures At(MatMul(a, b, rows, n, cols), i, j) == Dot(a, b, i, j, n)
  {
  }

  // ---------------------------------------------------------------------------
  // Laws of the wrapped product
  // ---------------------------------------------------------------------------

  lemma WMulAssociative(a: Mat, b: Mat, c: Mat, r: nat, m: nat, n: nat, s: nat)
    ensures WMul(WMul(a, b, r, m, n), c, r, n, s) == WMul(a, WMul(b, c, m, n, s), r, m, s)
  {
    var wab, wbc, ab, bc := WMul(a, b, r, m, n), WMul(b, c, m, n, s), MatMul(a, b, r, m, n), MatMul(b, c, m, n, s);
    MulAssociative(a, b, c, r, m, n, s);
    forall i, j | 0 <= i < r && 0 <= j < s
      ensures Wrap(Dot(wab, c, i, j, n)) == Wrap(Dot(a, wbc, i, j, m))
    {
      WrapDot(wab, c, ab, c, i, j, n);
      WrapDot(a, wbc, a, bc, i, j, m);
      AtWMul(ab, c, r, n, s, i, j);
      AtWMul(a, bc, r, m, s, i, j);
    }
    Extensional(WMul(wab, c, r, n, s), WMul(a, wbc, r, m, s), r, s);
  }

  lemma WMulIdentityLeft(a: Mat, n: nat, s: nat)
    requires Shape(a, n, s) && Words(a)
    ensures WMul(Identity(n), a, n, n, s) == a
  {
    MulIdentityLeft(a, n, s);
    forall i, j | 0 <= i < n && 0 <= j < s
      ensures At(WMul(Identity(n), a, n, n, s), i, j) == At(a, i, j)
    {
      AtWMul(Identity(n), a, n, n, s, i, j);
    }
    Extensional(WMul(Identity(n), a, n, n, s), a, n, s);
  }

  lemma WMulIdentityRight(a: Mat, r: nat, n: nat)
    requires Shape(a, r, n) && Words(a)
    ensures WMul(a, Identity(n), r, n, n) == a
  {
    MulIdentityRight(a, r, n);
    forall i, j | 0 <= i < r && 0 <= j < n
      ensures At(WMul(a, Identity(n), r, n, n), i, j) == At(a, i, j)
    {
      AtWMul(a, Identity(n), r, n, n, i, j);
    }
    Extensional(WMul(a, Identity(n), r, n, n), a, r, n);
  }

  lemma {:induction false} WPowLeft(m: Mat, k: nat, n: nat)
    requires Square(m, n)
    ensures WMul(m, WPow(m, k, n), n, n, n) == WPow(m, k + 1, n)
  {
    if k == 0 {
      WMulIdentityRight(m, n, n);
      WMulIdentityLeft(m, n, n);
    } else {
      WPowLeft(m, k - 1, n);
      WMulAssociative(m, WPow(m, k - 1, n), m, n, n, n, n);
    }
  }

  /** Squaring the base halves the exponent. */
  lemma {:induction false} WPowSquare(m: Mat, k: nat, n: nat)
    requires Square(m, n)
    ensures WPow(WMul(m, m, n, n, n), k, n) == WPow(m, 2 * k, n)
  {
    if k > 0 {
      WPowSquare(m, k - 1, n);
      var p := WPow(m, 2 * k - 2, n);
      WMulAssociative(p, m, m, n, n, n, n);
      assert WPow(m, 2 * k - 1, n) == WMul(p, m, n, n, n);
    }
  }

  // ---------------------------------------------------------------------------
  // The loops
  // ---------------------------------------------------------------------------

  method Multiply(a: Mat, b: Mat, rows: nat, n: nat, cols: nat) returns (dot: Mat)
    ensures dot == WMul(a, b, rows, n, cols)
  {
    dot := [];
    var i: nat := 0;
    while i < rows
      invariant i <= rows && |dot| == i
      invariant forall x :: 0 <= x < i ==> dot[x] == WMul(a, b, rows, n, cols)[x]
    {
      var row: seq<int> := [];
      var j: nat := 0;
      while j < cols
        invariant j <= cols && |row| == j
        invariant forall y :: 0 <= y < j ==> row[y] == Wrap(Dot(a, b, i, y, n))
      {
        var entry := DotLoop(a, b, i, j, n);
        row := row + [entry];
        j := j + 1;
      }
      assert row == WMul(a, b, rows, n, cols)[i];
      dot := dot + [row];
      i := i + 1;
    }
  }

  method DotLoop(a: Mat, b: Mat, i: int, j: int, n: nat) returns (sum: int)
    ensures sum == Wrap(Dot(a, b, i, j, n))
  {
    sum := 0;
    var z: nat := 0;
    ghost var f := (z: int) => At(a, i, z) * At(b, z, j);
    while z < n
      invariant z <= n && sum == Wrap(SumTo(f, z))
    {
      WrapAdd(SumTo(f, z), f(z), sum, Wrap(f(z)));
      sum := Wrap(sum + Wrap(At(a, i, z) * At(b, z, j)));
      z := z + 1;
    }
    SumExt(f, z => At(a, i, z) * At(b, z, j), n);
  }

  lemma OddRound(res: Mat, m: Mat, h: nat, n: nat)
    requires Square(res, n) && Square(m, n)
    ensures WMul(WMul(res, m, n, n, n), WPow(m, 2 * h, n), n, n, n) == WMul(res, WPow(m, 2 * h + 1, n), n, n, n)
  {
    WMulAssociative(res, m, WPow(m, 2 * h, n), n, n, n, n);
    WPowLeft(m, 2 * h, n);
  }

  /** One round of the binary power: what is left to multiply stays the same. */
  lemma PowRound(res: Mat, m: Mat, p: nat, n: nat)
    requires Square(res, n) && Square(m, n)
    ensures var res' := if p % 2 == 1 then WMul(res, m, n, n, n) else res;
            WMul(res', WPow(WMul(m, m, n, n, n), p / 2, n), n, n, n) == WMul(res, WPow(m, p, n), n, n, n)
  {
    var h := p / 2;
    var q := WPow(WMul(m, m, n, n, n), h, n);
    assert q == WPow(m, 2 * h, n) by { WPowSquare(m, h, n); }
    if p % 2 == 1 {
      OddRound(res, m, h, n);
      assert p == 2 * h + 1;
    } else {
      assert p == 2 * h;
    }
  }

  method Pow(base: Mat, pow: nat, n: nat) returns (res: Mat)
    requires Square(base, n)
    ensures res == WPow(base, pow, n)
  {
    res := Identity(n);
    var m, p := base, pow;
    WMulIdentityLeft(WPow(m, p, n), n, n);
    var again := true;
    while again
      invariant Square(res, n) && Square(m, n)
      invariant WMul(res, WPow(m, p, n), n, n, n) == WPow(base, pow, n)
      invariant !again ==> p == 0
      decreases p + (if again then 1 else 0)
    {
      PowRound(res, m, p, n);
      if p % 2 == 1 {
        res := Multiply(res, m, n, n, n);
      }
      m := Multiply(m, m, n, n, n);
      p := p / 2;
      again := p != 0;
    }
    WMulIdentityRight(res, n, n);
  }
}
