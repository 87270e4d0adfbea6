/**
  Evaluate: an expression as a row of n variable coefficients and a constant, modulo 2^64.
  A state is a sequence of n words; its row is the state followed by 1.
*/
module LinearForm {
  import opened Common
  import opened LinearAlgebra
  import opened WordMatrix
  import opened LoopSyntax

  function Nth(s: seq<int>, i: int): int {
    if 0 <= i < |s| then s[i] else 0
  }

  ghost predicate State(st: seq<int>, n: nat) {
    |st| == n && forall i :: 0 <= i < n ==> 0 <= st[i] < WORD
  }

  ghost predicate Form(f: seq<int>, n: nat) {
    |f| == n + 1 && forall i :: 0 <= i <= n ==> 0 <= f[i] < WORD
  }

  /** What an expression denotes in a state, over unbounded integers. */
  function Value(e: Expr, st: seq<int>): int {
    match e
    case Num(k) => k
    case Var(i) => Nth(st, i)
    case Missing => 0
    case Neg(x) => -Value(x, st)
    case Mul(l, r) => Value(l, st) * Value(r, st)
    case Sum(l, minus, r) => if minus then Value(l, st) - Value(r, st) else Value(l, st) + Value(r, st)
  }

  /** The dot product of a form with the row of a state. */
  ghost function Apply(f: seq<int>, st: seq<int>, n: nat): int {
    Inner(f, st + [1], n + 1)
  }

  ghost function Inner(f: seq<int>, v: seq<int>, m: nat): int {
    if m == 0 then 0 else Inner(f, v, m - 1) + Nth(f, m - 1) * Nth(v, m - 1)
  }

  ghost predicate Variables(e: Expr, n: nat) {
    match e
    case Num(_) => true
    case Var(i) => i < n
    case Missing => true
    case Neg(x) => Variables(x, n)
    case Mul(l, r) => Variables(l, n) && Variables(r, n)
    case Sum(l, _, r) => Variables(l, n) && Variables(r, n)
  }

  // ---------------------------------------------------------------------------
  // Which expressions are linear, said without coefficients
  // ---------------------------------------------------------------------------

  /** The expression has the same value modulo 2^64 in every state. */
  ghost predicate Constant(e: Expr, n: nat) {
    forall st, st' :: State(st, n) && State(st', n) ==> Wrap(Value(e, st)) == Wrap(Value(e, st'))
  }

  /** No product has two operands that both depend on the variables. */
  ghost predicate Linear(e: Expr, n: nat) {
    match e
    case Num(_) => true
    case Var(_) => true
    case Missing => true
    case Neg(x) => Linear(x, n)
    case Mul(l, r) => Linear(l, n) && Linear(r, n) && (Constant(l, n) || Constant(r, n))
    case Sum(l, _, r) => Linear(l, n) && Linear(r, n)
  }

  // ---------------------------------------------------------------------------
  // Coefficients
  // ---------------------------------------------------------------------------

  ghost predicate NoVariables(f: seq<int>, n: nat) {
    forall i :: 0 <= i < n ==> Nth(f, i) == 0
  }

  ghost function Scaled(f: seq<int>, c: int, n: nat): seq<int> {
    seq(n + 1, i => Wrap(Nth(f, i) * c))
  }

  ghost function Plus(f: seq<int>, g: seq<int>, n: nat): seq<int> {
    seq(n + 1, i => Wrap(Nth(f, i) + Nth(g, i)))
  }

  ghost function Minus(f: seq<int>, g: seq<int>, n: nat): seq<int> {
    seq(n + 1, i => Wrap(Nth(f, i) - Nth(g, i)))
  }

  ghost function Unit(k: int, c: int, n: nat): seq<int> {
    seq(n + 1, i => if i == k then Wrap(c) else 0)
  }

  ghost function Product(f: seq<int>, g: seq<int>, n: nat): Option<seq<int>> {
    if NoVariables(f, n) then Some(Scaled(g, Nth(f, n), n))
    else if NoVariables(g, n) then Some(Scaled(f, Nth(g, n), n))
    else None
  }

  ghost function Coeffs(e: Expr, n: nat): (r: Option<seq<int>>)
    ensures r.Some? ==> Form(r.value, n)
  {
    match e
    case Num(k) => Some(Unit(n, k, n))
    case Var(i) => Some(Unit(i, 1, n))
    case Missing => Some(Unit(n, 0, n))
    case Neg(x) => (var f := Coeffs(x, n); if f.None? then None else Some(Scaled(f.value, -1, n)))
    case Mul(l, r) => (var f, g := Coeffs(l, n), Coeffs(r, n);
                       if f.None? || g.None? then None else Product(f.value, g.value, n))
    case Sum(l, minus, r) => (var f, g := Coeffs(l, n), Coeffs(r, n);
                       if f.None? || g.None? then None
                       else if minus then Some(Minus(f.value, g.value, n)) else Some(Plus(f.value, g.value, n)))
  }

  lemma {:induction false} InnerUnit(f: seq<int>, v: seq<int>, k: int, m: nat)
    requires forall i :: 0 <= i < m && i != k ==> Nth(f, i) * Nth(v, i) == 0
    ensures Inner(f, v, m) == if 0 <= k < m then Nth(f, k) * Nth(v, k) else 0
  {
    if m > 0 {
      InnerUnit(f, v, k, m - 1);
    }
  }

  lemma {:induction false} InnerScaled(f: seq<int>, g: seq<int>, c: int, v: seq<int>, m: nat)
    requires forall i :: 0 <= i < m ==> Wrap(Nth(g, i)) == Wrap(Nth(f, i) * c)
    ensures Wrap(Inner(g, v, m)) == Wrap(c * Inner(f, v, m))
  {
    if m > 0 {
      InnerScaled(f, g, c, v, m - 1);
      ScaledTerm(Inner(f, v, m - 1), Inner(g, v, m - 1), Nth(f, m - 1), Nth(g, m - 1), c, Nth(v, m - 1));
    }
  }

  lemma {:induction false} InnerPlus(f: seq<int>, g: seq<int>, h: seq<int>, v: seq<int>, m: nat)
    requires forall i :: 0 <= i < m ==> Wrap(Nth(h, i)) == Wrap(Nth(f, i) + Nth(g, i))
    ensures Wrap(Inner(h, v, m)) == Wrap(Inner(f, v, m) + Inner(g, v, m))
  {
    if m > 0 {
      InnerPlus(f, g, h, v, m - 1);
      assert Inner(h, v, m) == Inner(h, v, m - 1) + Nth(h, m - 1) * Nth(v, m - 1);
      SummedTerm(Inner(f, v, m - 1), Inner(g, v, m - 1), Inner(h, v, m - 1),
                 Nth(f, m - 1), Nth(g, m - 1), Nth(h, m - 1), Nth(v, m - 1));
    }
  }

  lemma ScaledTerm(s: int, t: int, x: int, y: int, c: int, v: int)
    requires Wrap(t) == Wrap(c * s) && Wrap(y) == Wrap(x * c)
    ensures Wrap(t + y * v) == Wrap(c * (s + x * v))
  {
    WrapMulLeft(y, x * c, v);
    Regroup(x, c, v);
    WrapAdd(t, y * v, c * s, c * (x * v));
    Distribute(s, x * v, c);
  }

  lemma SummedTerm(s: int, t: int, u: int, x: int, y: int, z: int, v: int)
    requires Wrap(u) == Wrap(s + t) && Wrap(z) == Wrap(x + y)
    ensures Wrap(u + z * v) == Wrap((s + x * v) + (t + y * v))
  {
    WrapMulLeft(z, x + y, v);
    Distribute(x, y, v);
    WrapAdd(u, z * v, s + t, x * v + y * v);
  }

  lemma CancelTerm(a: int, b: int)
    requires Wrap(a + b) == Wrap(b) && 0 <= a < WORD
    ensures a == 0
  {
    WrapAdd(a + b, -b, b, -b);
    assert Wrap(a) == a;
  }

  lemma Regroup(x: int, c: int, y: int)
    ensures x * c * y == c * (x * y)
  {
  }

  lemma Distribute(x: int, y: int, z: int)
    ensures (x + y) * z == x * z + y * z && z * (x + y) == z * x + z * y
  {
  }

  lemma ApplyUnit(k: int, c: int, st: seq<int>, n: nat)
    requires 0 <= k <= n && |st| == n
    ensures Wrap(Apply(Unit(k, c, n), st, n)) == Wrap(c * Nth(st + [1], k))
  {
    InnerUnit(Unit(k, c, n), st + [1], k, n + 1);
    WrapMulLeft(Wrap(c), c, Nth(st + [1], k));
  }

  lemma ApplyScaled(f: seq<int>, c: int, st: seq<int>, n: nat)
    ensures Wrap(Apply(Scaled(f, c, n), st, n)) == Wrap(c * Apply(f, st, n))
  {
    InnerScaled(f, Scaled(f, c, n), c, st + [1], n + 1);
  }

  lemma ApplyPlus(f: seq<int>, g: seq<int>, st: seq<int>, n: nat)
    ensures Wrap(Apply(Plus(f, g, n), st, n)) == Wrap(Apply(f, st, n) + Apply(g, st, n))
  {
    InnerPlus(f, g, Plus(f, g, n), st + [1], n + 1);
  }

  /** Subtracting is adding the form scaled by -1. */
  lemma ApplyMinus(f: seq<int>, g: seq<int>, st: seq<int>, n: nat)
    ensures Wrap(Apply(Minus(f, g, n), st, n)) == Wrap(Apply(f, st, n) - Apply(g, st, n))
  {
    var m := Scaled(g, -1, n);
    forall i | 0 <= i < n + 1 ensures Wrap(Nth(f, i) + Nth(m, i)) == Wrap(Nth(f, i) - Nth(g, i)) {
      WrapAdd(Nth(f, i), Nth(m, i), Nth(f, i), Nth(g, i) * -1);
    }
    assert Minus(f, g, n) == Plus(f, m, n);
    ApplyPlus(f, m, st, n);
    ApplyScaled(g, -1, st, n);
    WrapAdd(Apply(f, st, n), Apply(m, st, n), Apply(f, st, n), -1 * Apply(g, st, n));
  }

  lemma ApplyConstant(f: seq<int>, st: seq<int>, n: nat)
    requires NoVariables(f, n) && |st| == n
    ensures Apply(f, st, n) == Nth(f, n)
  {
    InnerUnit(f, st + [1], n, n + 1);
  }

  lemma LeafSound(e: Expr, n: nat, st: seq<int>)
    requires (e.Num? || e.Var? || e.Missing?) && Variables(e, n) && Coeffs(e, n).Some? && |st| == n
    ensures Wrap(Apply(Coeffs(e, n).value, st, n)) == Wrap(Value(e, st))
  {
    match e {
      case Num(k) => ApplyUnit(n, k, st, n);
      case Var(i) => ApplyUnit(i, 1, st, n);
      case Missing => ApplyUnit(n, 0, st, n);
    }
  }

  /** The coefficients applied to a state give the value of the expression modulo 2^64. */
  lemma {:induction false} CoeffsSound(e: Expr, n: nat, st: seq<int>)
    requires Variables(e, n) && Coeffs(e, n).Some? && |st| == n
    ensures Wrap(Apply(Coeffs(e, n).value, st, n)) == Wrap(Value(e, st))
  {
    match e {
      case Num(_) => LeafSound(e, n, st);
      case Var(_) => LeafSound(e, n, st);
      case Missing => LeafSound(e, n, st);
      case Neg(x) =>
        CoeffsSound(x, n, st);
        NegSound(Coeffs(x, n).value, Value(x, st), st, n);
      case Sum(l, minus, r) =>
        CoeffsSound(l, n, st);
        CoeffsSound(r, n, st);
        SumSound(Coeffs(l, n).value, Coeffs(r, n).value, minus, Value(l, st), Value(r, st), st, n);
      case Mul(l, r) =>
        CoeffsSound(l, n, st);
        CoeffsSound(r, n, st);
        ProductSound(Coeffs(l, n).value, Coeffs(r, n).value, Value(l, st), Value(r, st), st, n);
    }
  }

  lemma NegSound(f: seq<int>, x: int, st: seq<int>, n: nat)
    requires Wrap(Apply(f, st, n)) == Wrap(x)
    ensures Wrap(Apply(Scaled(f, -1, n), st, n)) == Wrap(-x)
  {
    ApplyScaled(f, -1, st, n);
    WrapMul(-1, Apply(f, st, n), -1, x);
  }

  lemma SumSound(f: seq<int>, g: seq<int>, minus: bool, x: int, y: int, st: seq<int>, n: nat)
    requires Wrap(Apply(f, st, n)) == Wrap(x) && Wrap(Apply(g, st, n)) == Wrap(y)
    ensures Wrap(Apply(if minus then Minus(f, g, n) else Plus(f, g, n), st, n)) == Wrap(if minus then x - y else x + y)
  {
    if minus {
      ApplyMinus(f, g, st, n);
      WrapMul(-1, Apply(g, st, n), -1, y);
      WrapAdd(Apply(f, st, n), -Apply(g, st, n), x, -y);
    } else {
      ApplyPlus(f, g, st, n);
      WrapAdd(Apply(f, st, n), Apply(g, st, n), x, y);
    }
  }

  lemma ProductSound(f: seq<int>, g: seq<int>, x: int, y: int, st: seq<int>, n: nat)
    requires |st| == n && Product(f, g, n).Some?
    requires Wrap(Apply(f, st, n)) == Wrap(x) && Wrap(Apply(g, st, n)) == Wrap(y)
    ensures Wrap(Apply(Product(f, g, n).value, st, n)) == Wrap(x * y)
  {
    if NoVariables(f, n) {
      ApplyConstant(f, st, n);
      ApplyScaled(g, Nth(f, n), st, n);
      WrapMul(Nth(f, n), Apply(g, st, n), x, y);
    } else {
      ApplyConstant(g, st, n);
      ApplyScaled(f, Nth(g, n), st, n);
      WrapMul(Nth(g, n), Apply(f, st, n), y, x);
      assert y * x == x * y;
    }
  }

  // ---------------------------------------------------------------------------
  // Evaluate succeeds exactly on the linear expressions
  // ---------------------------------------------------------------------------

  ghost function ZeroState(n: nat): seq<int> {
    seq(n, i => 0)
  }

  ghost function UnitState(n: nat, k: int): seq<int> {
    seq(n, i => if i == k then 1 else 0)
  }

  lemma {:induction false} InnerUnitState(f: seq<int>, v: seq<int>, k: int, m: nat)
    requires forall i :: 0 <= i < m ==> Nth(v, i) == (if i == k then 1 else 0)
    ensures Inner(f, v, m) == if 0 <= k < m then Nth(f, k) else 0
  {
    if m > 0 {
      InnerUnitState(f, v, k, m - 1);
    }
  }

  lemma ApplyUnitState(f: seq<int>, n: nat, k: int)
    requires 0 <= k < n
    ensures Apply(f, UnitState(n, k), n) == Nth(f, k) + Nth(f, n)
  {
    InnerUnitState(f, UnitState(n, k) + [1], k, n);
  }

  lemma ApplyZeroState(f: seq<int>, n: nat)
    ensures Apply(f, ZeroState(n), n) == Nth(f, n)
  {
    InnerUnitState(f, ZeroState(n) + [1], -1, n);
  }

  lemma ConstantWithoutVariables(e: Expr, n: nat)
    requires Variables(e, n) && Coeffs(e, n).Some? && NoVariables(Coeffs(e, n).value, n)
    ensures Constant(e, n)
  {
    var f := Coeffs(e, n).value;
    forall st | State(st, n) ensures Wrap(Value(e, st)) == Wrap(Nth(f, n)) {
      CoeffsSound(e, n, st);
      ApplyConstant(f, st, n);
    }
  }

  /** Comparing the zero state with a unit state reads off one coefficient. */
  lemma CoefficientOfConstant(e: Expr, n: nat, k: int)
    requires Variables(e, n) && Coeffs(e, n).Some? && 0 <= k < n
    requires Wrap(Value(e, ZeroState(n))) == Wrap(Value(e, UnitState(n, k)))
    ensures Nth(Coeffs(e, n).value, k) == 0
  {
    var f := Coeffs(e, n).value;
    CoeffsSound(e, n, ZeroState(n));
    CoeffsSound(e, n, UnitState(n, k));
    ApplyZeroState(f, n);
    ApplyUnitState(f, n, k);
    CancelTerm(Nth(f, k), Nth(f, n));
  }

  /** An accepted expression is constant exactly when its variable coefficients are zero. */
  lemma ConstantIffNoVariables(e: Expr, n: nat)
    requires Variables(e, n) && Coeffs(e, n).Some?
    ensures Constant(e, n) <==> NoVariables(Coeffs(e, n).value, n)
  {
    if NoVariables(Coeffs(e, n).value, n) {
      ConstantWithoutVariables(e, n);
    }
    if Constant(e, n) {
      forall k | 0 <= k < n ensures Nth(Coeffs(e, n).value, k) == 0 {
        assert State(ZeroState(n), n) && State(UnitState(n, k), n);
        CoefficientOfConstant(e, n, k);
      }
    }
  }

  lemma {:induction false} CoeffsDefined(e: Expr, n: nat)
    requires Variables(e, n)
    ensures Coeffs(e, n).Some? <==> Linear(e, n)
  {
    match e {
      case Num(_) =>
      case Var(_) =>
      case Missing =>
      case Neg(x) =>
        CoeffsDefined(x, n);
      case Sum(l, _, r) =>
        CoeffsDefined(l, n);
        CoeffsDefined(r, n);
      case Mul(l, r) =>
        CoeffsDefined(l, n);
        CoeffsDefined(r, n);
        if Coeffs(l, n).Some? && Coeffs(r, n).Some? {
          ConstantIffNoVariables(l, n);
          ConstantIffNoVariables(r, n);
        }
    }
  }

  // ---------------------------------------------------------------------------
  // The recursive evaluation with its coefficient loops
  // ---------------------------------------------------------------------------

  method HasVariables(f: seq<int>, n: nat) returns (found: bool)
    requires Form(f, n)
    ensures found <==> !NoVariables(f, n)
  {
    found := false;
    var i: nat := 0;
    while i < n
      invariant i <= n && forall j :: 0 <= j < i ==> Nth(f, j) == 0
    {
      if f[i] != 0 {
        assert Nth(f, i) != 0;
        return true;
      }
      i := i + 1;
    }
  }

  method ScaleLoop(f: seq<int>, c: int, n: nat) returns (r: seq<int>)
    requires Form(f, n)
    ensures r == Scaled(f, c, n)
  {
    r := [];
    var i: nat := 0;
    while i < n + 1
      invariant i <= n + 1 && r == Scaled(f, c, n)[..i]
    {
      r := r + [Wrap(f[i] * c)];
      i := i + 1;
    }
  }

  method AddLoop(f: seq<int>, g: seq<int>, minus: bool, n: nat) returns (r: seq<int>)
    requires Form(f, n) && Form(g, n)
    ensures r == if minus then Minus(f, g, n) else Plus(f, g, n)
  {
    r := [];
    var i: nat := 0;
    while i < n + 1
      invariant i <= n + 1 && r == (if minus then Minus(f, g, n) else Plus(f, g, n))[..i]
    {
      r := r + [if minus then Wrap(f[i] - g[i]) else Wrap(f[i] + g[i])];
      i := i + 1;
    }
  }

  /** Swaps so that the constant operand comes first, then scales the other; None is "Non constant product". */
  method MultiplyForms(left: seq<int>, right: seq<int>, n: nat) returns (r: Option<seq<int>>)
    requires Form(left, n) && Form(right, n)
    ensures r == Product(left, right, n)
  {
    var coeffs, other := left, right;
    var swap := HasVariables(coeffs, n);
    if swap {
      coeffs, other := other, coeffs;
    }
    var bad := HasVariables(coeffs, n);
    if bad {
      return None;
    }
    var scaled := ScaleLoop(other, coeffs[n], n);
    r := Some(scaled);
  }

  method UnitLoop(k: nat, c: int, n: nat) returns (r: seq<int>)
    requires k <= n
    ensures r == Unit(k, c, n)
  {
    r := seq(n + 1, _ => 0);
    r := r[k := Wrap(c)];
  }

  /** Evaluate: the coefficients, or None where the source throws. */
  method Evaluate(e: Expr, n: nat) returns (r: Option<seq<int>>)
    requires Variables(e, n)
    ensures r == Coeffs(e, n)
    ensures r.Some? <==> Linear(e, n)
    ensures r.Some? ==> Form(r.value, n)
                        && forall st :: State(st, n) ==> Wrap(Apply(r.value, st, n)) == Wrap(Value(e, st))
    decreases e
  {
    match e {
      case Num(k) =>
        var f := UnitLoop(n, k, n);
        r := Some(f);
      case Var(i) =>
        var f := UnitLoop(i, 1, n);
        r := Some(f);
      case Missing =>
        var f := UnitLoop(n, 0, n);
        r := Some(f);
      case Neg(x) =>
        r := Evaluate(x, n);
        if r.Some? {
          var f := ScaleLoop(r.value, -1, n);
          r := Some(f);
        }
      case Sum(l, minus, right) =>
        r := Evaluate(l, n);
        var other := Evaluate(right, n);
        if r.Some? && other.Some? {
          var f := AddLoop(r.value, other.value, minus, n);
          r := Some(f);
        } else {
          r := None;
        }
      case Mul(l, right) =>
        r := Evaluate(l, n);
        var other := Evaluate(right, n);
        if r.Some? && other.Some? {
          r := MultiplyForms(r.value, other.value, n);
        } else {
          r := None;
        }
    }
    CoeffsDefined(e, n);
    if r.Some? {
      forall st | State(st, n) ensures Wrap(Apply(r.value, st, n)) == Wrap(Value(e, st)) {
        CoeffsSound(e, n, st);
      }
    }
  }
}
