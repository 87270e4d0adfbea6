/**
  Loop programs: their step-by-step meaning, the transition matrix of each statement,
  and the proof that the start row times the compiled matrix is the executed state.
*/
module LoopProgram {
  import opened Common
  import opened LinearAlgebra
  import opened WordMatrix
  import opened LoopSyntax
  import opened LinearForm

  datatype Op = Set | PlusEq | MinusEq | TimesEq

  datatype Program =
    | Done
    | Assign(x: nat, op: Op, e: Expr, rest: Program)
    | Loop(count: nat, body: Program, rest: Program)

  // ---------------------------------------------------------------------------
  // Execution, one assignment and one iteration at a time
  // ---------------------------------------------------------------------------

  function Updated(op: Op, before: int, value: int): int {
    match op
    case Set => value
    case PlusEq => before + value
    case MinusEq => before - value
    case TimesEq => before * value
  }

  function Store(st: seq<int>, x: nat, op: Op, value: int): seq<int> {
    if x < |st| then st[x := Wrap(Updated(op, st[x], value))] else st
  }

  function Exec(p: Program, st: seq<int>): seq<int>
    decreases p, 0
  {
    match p
    case Done => st
    case Assign(x, op, e, rest) => Exec(rest, Store(st, x, op, Value(e, st)))
    case Loop(count, body, rest) => Exec(rest, Repeat(body, count, st))
  }

  function Repeat(body: Program, k: nat, st: seq<int>): seq<int>
    decreases body, k
  {
    if k == 0 then st else Repeat(body, k - 1, Exec(body, st))
  }

  ghost predicate InScope(p: Program, n: nat) {
    match p
    case Done => true
    case Assign(x, _, e, rest) => x < n && Variables(e, n) && InScope(rest, n)
    case Loop(_, body, rest) => InScope(body, n) && InScope(rest, n)
  }

  /** Every right-hand side is linear, and a multiplier does not depend on the state. */
  ghost predicate Accepted(p: Program, n: nat) {
    match p
    case Done => true
    case Assign(_, op, e, rest) => Linear(e, n) && (op == TimesEq ==> Constant(e, n)) && Accepted(rest, n)
    case Loop(_, body, rest) => Accepted(body, n) && Accepted(rest, n)
  }

  lemma {:induction false} ExecState(p: Program, st: seq<int>, n: nat)
    requires State(st, n)
    ensures State(Exec(p, st), n)
    decreases p, 0
  {
    match p {
      case Done =>
      case Assign(x, op, e, rest) =>
        ExecState(rest, Store(st, x, op, Value(e, st)), n);
      case Loop(count, body, rest) =>
        RepeatState(body, count, st, n);
        ExecState(rest, Repeat(body, count, st), n);
    }
  }

  lemma {:induction false} RepeatState(body: Program, k: nat, st: seq<int>, n: nat)
    requires State(st, n)
    ensures State(Repeat(body, k, st), n)
    decreases body, k
  {
    if k > 0 {
      ExecState(body, st, n);
      RepeatState(body, k - 1, Exec(body, st), n);
    }
  }

  // ---------------------------------------------------------------------------
  // The matrix of one assignment
  // ---------------------------------------------------------------------------

  /** The column that replaces variable x. */
  ghost function Column(x: nat, op: Op, f: seq<int>, n: nat): seq<int> {
    match op
    case Set => f
    case PlusEq => Plus(f, Unit(x, 1, n), n)
    case MinusEq => Minus(Unit(x, 1, n), f, n)
    case TimesEq => Unit(x, Nth(f, n), n)
  }

  ghost function Transform(x: nat, op: Op, f: seq<int>, n: nat): Mat {
    WithColumn(x, Column(x, op, f, n), n)
  }

  /** The identity with column x replaced. */
  ghost function WithColumn(x: nat, column: seq<int>, n: nat): (m: Mat)
    ensures Shape(m, n + 1, n + 1)
  {
    seq(n + 1, i => seq(n + 1, j => if j == x then Nth(column, i) else if i == j then 1 else 0))
  }

  lemma ColumnForm(x: nat, op: Op, f: seq<int>, n: nat)
    requires Form(f, n)
    ensures Form(Column(x, op, f, n), n)
  {
  }

  lemma TransformSquare(x: nat, op: Op, f: seq<int>, n: nat)
    requires Form(f, n)
    ensures Square(Transform(x, op, f, n), n + 1)
  {
    ColumnForm(x, op, f, n);
  }

  /** The new column applied to a state is the updated value. */
  lemma ColumnSound(x: nat, op: Op, f: seq<int>, n: nat, st: seq<int>, value: int)
    requires x < n && |st| == n && Wrap(Apply(f, st, n)) == Wrap(value)
    requires op == TimesEq ==> NoVariables(f, n)
    ensures Wrap(Apply(Column(x, op, f, n), st, n)) == Wrap(Updated(op, st[x], value))
  {
    assert Nth(st + [1], x) == st[x];
    match op {
      case Set =>
      case PlusEq =>
        ApplyPlus(f, Unit(x, 1, n), st, n);
        ApplyUnit(x, 1, st, n);
        WrapAdd(Apply(f, st, n), Apply(Unit(x, 1, n), st, n), value, st[x]);
      case MinusEq =>
        ApplyMinus(Unit(x, 1, n), f, st, n);
        ApplyUnit(x, 1, st, n);
        WrapMul(-1, Apply(f, st, n), -1, value);
        WrapAdd(Apply(Unit(x, 1, n), st, n), -Apply(f, st, n), st[x], -value);
      case TimesEq =>
        ApplyUnit(x, Nth(f, n), st, n);
        ApplyConstant(f, st, n);
        WrapMul(st[x], Nth(f, n), st[x], value);
        assert st[x] * Nth(f, n) == Nth(f, n) * st[x];
    }
  }

  ghost function Row(st: seq<int>): Mat {
    [st + [1]]
  }

  /** The row of st times m. */
  ghost function Times(st: seq<int>, m: Mat, n: nat): Mat {
    WMul(Row(st), m, 1, n + 1, n + 1)
  }

  lemma {:induction false} DotIsInner(st: seq<int>, m: Mat, j: int, column: seq<int>, k: nat)
    requires forall i :: 0 <= i < k ==> At(m, i, j) == Nth(column, i)
    ensures Dot(Row(st), m, 0, j, k) == Inner(column, st + [1], k)
  {
    var f := (z: int) => At(Row(st), 0, z) * At(m, z, j);
    SumIsInner(f, column, st + [1], k);
    SumExt(f, z => At(Row(st), 0, z) * At(m, z, j), k);
  }

  lemma {:induction false} SumIsInner(f: int -> int, column: seq<int>, v: seq<int>, k: nat)
    requires forall i :: 0 <= i < k ==> f(i) == Nth(column, i) * Nth(v, i)
    ensures SumTo(f, k) == Inner(column, v, k)
  {
    if k > 0 {
      SumIsInner(f, column, v, k - 1);
    }
  }

  /** Multiplying by the identity with one column replaced changes one entry of the row. */
  lemma RowTimesColumn(st: seq<int>, x: nat, column: seq<int>, n: nat)
    requires State(st, n) && x < n
    ensures Times(st, WithColumn(x, column, n), n) == Row(st[x := Wrap(Apply(column, st, n))])
  {
    var m := WithColumn(x, column, n);
    var after := st[x := Wrap(Apply(column, st, n))] + [1];
    forall j | 0 <= j < n + 1 ensures Wrap(Dot(Row(st), m, 0, j, n + 1)) == after[j] {
      if j == x {
        DotIsInner(st, m, j, column, n + 1);
      } else {
        DotIsInner(st, m, j, Unit(j, 1, n), n + 1);
        ApplyUnit(j, 1, st, n);
      }
    }
    assert Times(st, m, n)[0] == after;
  }

  lemma AssignStep(x: nat, op: Op, e: Expr, n: nat, st: seq<int>)
    requires State(st, n) && x < n && Variables(e, n) && Coeffs(e, n).Some?
    requires op == TimesEq ==> NoVariables(Coeffs(e, n).value, n)
    ensures Times(st, Transform(x, op, Coeffs(e, n).value, n), n) == Row(Store(st, x, op, Value(e, st)))
  {
    var f := Coeffs(e, n).value;
    CoeffsSound(e, n, st);
    ColumnSound(x, op, f, n, st, Value(e, st));
    RowTimesColumn(st, x, Column(x, op, f, n), n);
  }

  // ---------------------------------------------------------------------------
  // The matrix of a program
  // ---------------------------------------------------------------------------

  ghost function Compile(p: Program, n: nat): (m: Option<Mat>)
    ensures m.Some? ==> Square(m.value, n + 1)
  {
    match p
    case Done => Some(Identity(n + 1))
    case Assign(x, op, e, rest) =>
      (var f, r := Coeffs(e, n), Compile(rest, n);
       if f.None? || r.None? || (op == TimesEq && !NoVariables(f.value, n)) then None
       else Some(WMul(Transform(x, op, f.value, n), r.value, n + 1, n + 1, n + 1)))
    case Loop(count, body, rest) =>
      (var b, r := Compile(body, n), Compile(rest, n);
       if b.None? || r.None? then None
       else Some(WMul(WPow(b.value, count, n + 1), r.value, n + 1, n + 1, n + 1)))
  }

  lemma {:induction false} CompileDefined(p: Program, n: nat)
    requires InScope(p, n)
    ensures Compile(p, n).Some? <==> Accepted(p, n)
  {
    match p {
      case Done =>
      case Assign(_, _, e, rest) =>
        CompileDefined(rest, n);
        CoeffsDefined(e, n);
        if Linear(e, n) {
          ConstantIffNoVariables(e, n);
        }
      case Loop(_, body, rest) =>
        CompileDefined(body, n);
        CompileDefined(rest, n);
    }
  }

  /** Applying a product is applying the factors in turn. */
  lemma TimesProduct(st: seq<int>, a: Mat, b: Mat, n: nat, mid: seq<int>)
    requires Times(st, a, n) == Row(mid)
    ensures Times(st, WMul(a, b, n + 1, n + 1, n + 1), n) == Times(mid, b, n)
  {
    WMulAssociative(Row(st), a, b, 1, n + 1, n + 1, n + 1);
  }

  lemma TimesIdentity(st: seq<int>, n: nat)
    requires State(st, n)
    ensures Times(st, Identity(n + 1), n) == Row(st)
  {
    WMulIdentityRight(Row(st), 1, n + 1);
  }

  /** The start row times the compiled matrix is the row of the executed state. */
  lemma {:induction false} CompileSound(p: Program, n: nat, st: seq<int>)
    requires InScope(p, n) && Compile(p, n).Some? && State(st, n)
    ensures Times(st, Compile(p, n).value, n) == Row(Exec(p, st))
    decreases p, 0
  {
    match p {
      case Done =>
        TimesIdentity(st, n);
      case Assign(x, op, e, rest) =>
        var next := Store(st, x, op, Value(e, st));
        AssignStep(x, op, e, n, st);
        TimesProduct(st, Transform(x, op, Coeffs(e, n).value, n), Compile(rest, n).value, n, next);
        CompileSound(rest, n, next);
      case Loop(count, body, rest) =>
        var next := Repeat(body, count, st);
        RepeatSound(body, n, count, st);
        RepeatState(body, count, st, n);
        TimesProduct(st, WPow(Compile(body, n).value, count, n + 1), Compile(rest, n).value, n, next);
        CompileSound(rest, n, next);
    }
  }

  /** The k-th power of a loop body's matrix runs the body k times, for every k including 0. */
  lemma {:induction false} RepeatSound(body: Program, n: nat, k: nat, st: seq<int>)
    requires InScope(body, n) && Compile(body, n).Some? && State(st, n)
    ensures Times(st, WPow(Compile(body, n).value, k, n + 1), n) == Row(Repeat(body, k, st))
    decreases body, k
  {
    if k == 0 {
      TimesIdentity(st, n);
    } else {
      var m, next := Compile(body, n).value, Exec(body, st);
      CompileSound(body, n, st);
      ExecState(body, st, n);
      RepeatSound(body, n, k - 1, next);
      WPowLeft(m, k - 1, n + 1);
      TimesProduct(st, m, WPow(m, k - 1, n + 1), n, next);
    }
  }
}
