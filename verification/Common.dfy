/** Datatypes and arithmetic shared by several components. */
module Common {

  datatype Option<+T> = None | Some(value: T)

  function Pow2(n: nat): (p: nat)
    ensures p >= 1
  {
    if n == 0 then 1 else 2 * Pow2(n - 1)
  }

  lemma {:induction false} Pow2Monotone(m: nat, n: nat)
    requires m <= n
    ensures Pow2(m) <= Pow2(n)
  {
    if m < n {
      Pow2Monotone(m, n - 1);
    }
  }

  lemma MultipleBelow(k: int, n: int)
    requires n > 0 && -n < k * n < n
    ensures k == 0
  {
    assert k >= 1 ==> k * n >= n;
    assert k <= -1 ==> k * n <= -n;
  }

  /** A quotient and remainder in range are the ones of the division. */
  lemma Remainder(a: nat, n: nat, q: nat, r: nat)
    requires n > 0 && a == q * n + r && r < n
    ensures a % n == r
  {
    assert (a / n - q) * n == r - a % n;
    MultipleBelow(a / n - q, n);
  }

  /** The remainder by repeated subtraction. */
  function Mod(x: nat, n: nat): nat {
    if n == 0 || x < n then x else Mod(x - n, n)
  }

  lemma {:induction false} ModIs(x: nat, n: nat)
    requires n > 0
    ensures Mod(x, n) == x % n
  {
    if x < n {
      Remainder(x, n, 0, x);
    } else {
      ModIs(x - n, n);
      var q, r := (x - n) / n, (x - n) % n;
      assert x == (q + 1) * n + r;
      Remainder(x, n, q + 1, r);
    }
  }
}
