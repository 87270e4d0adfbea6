/**
  Expression templates of matrix products: a chain of operands is multiplied in the cheapest
  order, found by a memoised recursion whose table marks "not computed" with cost zero.
*/
module MatrixChain {
  import opened Common
  import opened LinearAlgebra

  datatype Matrix = Matrix(rows: nat, cols: nat, cells: Mat)

  ghost predicate Shaped(m: Matrix) {
    Shape(m.cells, m.rows, m.cols)
  }

  function Mul(a: Matrix, b: Matrix): Matrix {
    Matrix(a.rows, b.cols, MatMul(a.cells, b.cells, a.rows, a.cols, b.cols))
  }

  type Chain = seq<Matrix>

  const EMPTY: Matrix := Matrix(0, 0, [])

  function Nth(ms: Chain, i: int): Matrix {
    if 0 <= i < |ms| then ms[i] else EMPTY
  }

  /** Neighbouring operands fit. */
  ghost predicate Compatible(ms: Chain) {
    forall i :: 0 <= i && i + 1 < |ms| ==> FitsNext(ms, i)
  }

  predicate FitsNext(ms: Chain, i: nat) {
    Nth(ms, i).cols == Nth(ms, i + 1).rows
  }

  ghost predicate AllShaped(ms: Chain) {
    forall i :: 0 <= i < |ms| ==> Shaped(ms[i])
  }

  // ---------------------------------------------------------------------------
  // The product from left to right, and where it may be split
  // ---------------------------------------------------------------------------

  function Product(ms: Chain, begin: nat, end: nat): Matrix
    requires begin <= end
  {
    if begin == end then Nth(ms, begin) else Mul(Product(ms, begin, end - 1), Nth(ms, end))
  }

  lemma {:induction false} ProductShape(ms: Chain, begin: nat, end: nat)
    requires begin <= end < |ms| && AllShaped(ms)
    ensures var p := Product(ms, begin, end);
            Shaped(p) && p.rows == Nth(ms, begin).rows && p.cols == Nth(ms, end).cols
  {
    if begin < end {
      ProductShape(ms, begin, end - 1);
    }
  }

  lemma MulAssociates(a: Matrix, b: Matrix, c: Matrix)
    requires a.cols == b.rows && b.cols == c.rows
    ensures Mul(Mul(a, b), c) == Mul(a, Mul(b, c))
  {
    MulAssociative(a.cells, b.cells, c.cells, a.rows, a.cols, b.cols, c.cols);
  }

  /** Any split of a compatible chain gives the same product. */
  lemma {:induction false} ProductSplit(ms: Chain, begin: nat, i: nat, end: nat)
    requires begin <= i < end < |ms| && AllShaped(ms) && Compatible(ms)
    ensures Product(ms, begin, end) == Mul(Product(ms, begin, i), Product(ms, i + 1, end))
  {
    if i + 1 < end {
      ProductSplit(ms, begin, i, end - 1);
      ProductShape(ms, begin, i);
      ProductShape(ms, i + 1, end - 1);
      assert FitsNext(ms, i) && FitsNext(ms, end - 1);
      MulAssociates(Product(ms, begin, i), Product(ms, i + 1, end - 1), Nth(ms, end));
    }
  }

  // ---------------------------------------------------------------------------
  // Parenthesisations and their cost
  // ---------------------------------------------------------------------------

  datatype Tree = Leaf(k: nat) | Node(left: Tree, right: Tree)

  function First(t: Tree): nat {
    match t
    case Leaf(k) => k
    case Node(l, _) => First(l)
  }

  function Last(t: Tree): nat {
    match t
    case Leaf(k) => k
    case Node(_, r) => Last(r)
  }

  /** The leaves are consecutive operands in order. */
  predicate Ordered(t: Tree) {
    match t
    case Leaf(_) => true
    case Node(l, r) => Ordered(l) && Ordered(r) && Last(l) + 1 == First(r)
  }

  /** Scalar multiplications of one product of the results of begin..i and i+1..end. */
  function Join(ms: Chain, begin: nat, i: nat, end: nat): nat {
    Nth(ms, begin).rows * Nth(ms, i).cols * Nth(ms, end).cols
  }

  function Cost(ms: Chain, t: Tree): nat {
    match t
    case Leaf(_) => 0
    case Node(l, r) => Cost(ms, l) + Cost(ms, r) + Join(ms, First(l), Last(l), Last(r))
  }

  /** The least cost over all ways to multiply begin..end. */
  function MinCost(ms: Chain, begin: nat, end: nat): nat
    decreases end - begin, end - begin + 1
  {
    if begin >= end then 0 else MinUpTo(ms, begin, end, end)
  }

  /** The least cost over the outermost splits before k. */
  function MinUpTo(ms: Chain, begin: nat, end: nat, k: nat): nat
    requires begin < k <= end
    decreases end - begin, k - begin
  {
    var c := Join(ms, begin, k - 1, end) + (MinCost(ms, begin, k - 1) + MinCost(ms, k, end));
    if k - 1 == begin then c
    else
      var least := MinUpTo(ms, begin, end, k - 1);
      if c < least then c else least
  }

  lemma OrderedSpan(t: Tree)
    requires Ordered(t)
    ensures First(t) <= Last(t) && (First(t) == Last(t) <==> t.Leaf?)
  {
  }

  lemma {:induction false} MinUpToLeast(ms: Chain, begin: nat, i: nat, k: nat, end: nat)
    requires begin <= i < k <= end
    ensures MinUpTo(ms, begin, end, k) <= Join(ms, begin, i, end) + (MinCost(ms, begin, i) + MinCost(ms, i + 1, end))
  {
    if i < k - 1 {
      MinUpToLeast(ms, begin, i, k - 1, end);
    }
  }

  lemma {:induction false} BestSplit(ms: Chain, begin: nat, k: nat, end: nat) returns (i: nat)
    requires begin < k <= end
    ensures begin <= i < k
    ensures MinUpTo(ms, begin, end, k) == Join(ms, begin, i, end) + (MinCost(ms, begin, i) + MinCost(ms, i + 1, end))
  {
    i := k - 1;
    if k - 1 > begin {
      var j := BestSplit(ms, begin, k - 1, end);
      if MinUpTo(ms, begin, end, k) == MinUpTo(ms, begin, end, k - 1) {
        i := j;
      }
    }
  }

  /** No parenthesisation is cheaper than MinCost. */
  lemma {:induction false} MinCostLower(ms: Chain, t: Tree)
    requires Ordered(t)
    ensures MinCost(ms, First(t), Last(t)) <= Cost(ms, t)
  {
    match t
    case Leaf(_) =>
    case Node(l, r) =>
      MinCostLower(ms, l);
      MinCostLower(ms, r);
      OrderedSpan(l);
      OrderedSpan(r);
      MinUpToLeast(ms, First(t), Last(l), Last(t), Last(t));
  }

  /** Some parenthesisation costs just MinCost. */
  lemma {:induction false} MinAttained(ms: Chain, begin: nat, end: nat) returns (t: Tree)
    requires begin <= end
    ensures Ordered(t) && First(t) == begin && Last(t) == end && Cost(ms, t) == MinCost(ms, begin, end)
    decreases end - begin
  {
    if begin == end {
      t := Leaf(begin);
    } else {
      var i := BestSplit(ms, begin, end, end);
      var l := MinAttained(ms, begin, i);
      var r := MinAttained(ms, i + 1, end);
      t := Node(l, r);
    }
  }

  ghost predicate Parenthesises(t: Tree, ms: Chain) {
    Ordered(t) && First(t) == 0 && Last(t) + 1 == |ms|
  }

  /** c is the minimum of the cost over all parenthesisations of the whole chain. */
  ghost predicate Least(ms: Chain, c: nat) {
    && (exists t :: Parenthesises(t, ms) && Cost(ms, t) == c)
    && (forall t :: Parenthesises(t, ms) ==> c <= Cost(ms, t))
  }

  lemma MinCostIsLeast(ms: Chain)
    requires |ms| >= 1
    ensures Least(ms, MinCost(ms, 0, |ms| - 1))
  {
    var t := MinAttained(ms, 0, |ms| - 1);
    assert Parenthesises(t, ms);
    forall t | Parenthesises(t, ms) ensures MinCost(ms, 0, |ms| - 1) <= Cost(ms, t) {
      MinCostLower(ms, t);
    }
  }

  // ---------------------------------------------------------------------------
  // The memo table
  // ---------------------------------------------------------------------------

  datatype OptMult = OptMult(leftPartEnd: nat, optOpNum: nat)

  /** For every begin, the ends of the entries that have been written. */
  type Filled = seq<set<nat>>

  predicate Marked(filled: Filled, b: nat, e: nat) {
    b < |filled| && e in filled[b]
  }

  function Mark(filled: Filled, b: nat, e: nat): Filled {
    if b < |filled| then filled[b := filled[b] + {e}] else filled
  }

  lemma MarkOnly(filled: Filled, b: nat, e: nat)
    requires b < |filled|
    ensures Grows(filled, Mark(filled, b, e)) && Marked(Mark(filled, b, e), b, e)
    ensures forall x, y :: Marked(Mark(filled, b, e), x, y) ==> Marked(filled, x, y) || (x == b && y == e)
  {
  }

  ghost predicate Grows(filled: Filled, more: Filled) {
    |filled| == |more| && forall b, e :: Marked(filled, b, e) ==> Marked(more, b, e)
  }

  /** The least costs as a table, so that code need not look into their definition. */
  type Best = seq<seq<int>>

  ghost predicate IsBest(ms: Chain, best: Best) {
    forall b: nat, e: nat {:trigger MinCost(ms, b, e)} :: b <= e < |ms| ==> At(best, b, e) == MinCost(ms, b, e)
  }

  function Via(ms: Chain, best: Best, begin: nat, i: nat, end: nat): int {
    Join(ms, begin, i, end) + (At(best, begin, i) + At(best, i + 1, end))
  }

  /** A written entry: a cheapest split whose parts have been written too. */
  ghost predicate EntryOk(ms: Chain, best: Best, filled: Filled, begin: nat, end: nat, x: OptMult) {
    && begin <= x.leftPartEnd < end
    && x.optOpNum == At(best, begin, end) == Via(ms, best, begin, x.leftPartEnd, end)
    && PartFilled(filled, begin, x.leftPartEnd) && PartFilled(filled, x.leftPartEnd + 1, end)
  }

  ghost predicate PartFilled(filled: Filled, begin: nat, end: nat) {
    begin == end || Marked(filled, begin, end)
  }

  /** filled lists the written entries; a non-zero entry has been written, a zero one may have been. */
  ghost predicate TableOk(ms: Chain, best: Best, opNums: array2<OptMult>, filled: Filled)
    reads opNums
  {
    && opNums.Length0 == opNums.Length1 == |ms| == |filled|
    && (forall b: nat, e: nat :: Marked(filled, b, e) ==> b < e < |ms|)
    && (forall b: nat, e: nat {:trigger opNums[b, e]} :: b < |ms| && e < |ms| && Marked(filled, b, e) ==>
          EntryOk(ms, best, filled, b, e, opNums[b, e]))
    && (forall b: nat, e: nat {:trigger opNums[b, e]} :: b < |ms| && e < |ms| && opNums[b, e].optOpNum != 0 ==>
          Marked(filled, b, e))
  }

  lemma BestLeaf(ms: Chain, best: Best, k: nat)
    requires IsBest(ms, best) && k < |ms|
    ensures At(best, k, k) == 0
  {
    assert MinCost(ms, k, k) == 0;
  }

  /** Whatever the table says about an entry that is written or trivial is the least cost. */
  lemma EntryValue(ms: Chain, best: Best, opNums: array2<OptMult>, filled: Filled, b: nat, e: nat)
    requires TableOk(ms, best, opNums, filled) && IsBest(ms, best) && b <= e < |ms| && PartFilled(filled, b, e)
    ensures opNums[b, e].optOpNum == At(best, b, e)
  {
    if b == e {
      assert !Marked(filled, b, b);
      BestLeaf(ms, best, b);
    } else {
      assert EntryOk(ms, best, filled, b, e, opNums[b, e]);
    }
  }

  lemma EntryStays(ms: Chain, best: Best, filled: Filled, more: Filled, b: nat, e: nat, x: OptMult)
    requires EntryOk(ms, best, filled, b, e, x) && Grows(filled, more)
    ensures EntryOk(ms, best, more, b, e, x)
  {
  }

  method PutEntry(ms: Chain, ghost best: Best, opNums: array2<OptMult>, ghost filled: Filled, begin: nat, end: nat, x: OptMult)
    requires begin < end < |ms| && TableOk(ms, best, opNums, filled) && EntryOk(ms, best, filled, begin, end, x)
    modifies opNums
    ensures TableOk(ms, best, opNums, Mark(filled, begin, end)) && opNums[begin, end] == x
  {
    opNums[begin, end] := x;
    ghost var more := Mark(filled, begin, end);
    MarkOnly(filled, begin, end);
    forall b: nat, e: nat | b < |ms| && e < |ms| && Marked(more, b, e) ensures EntryOk(ms, best, more, b, e, opNums[b, e]) {
      EntryStays(ms, best, filled, more, b, e, opNums[b, e]);
    }
  }

  /** The recorded cost of a part, computed first if the table shows zero for it. */
  method PartOps(begin: nat, end: nat, ms: Chain, ghost best: Best, opNums: array2<OptMult>, ghost filled: Filled)
    returns (ops: nat, ghost filled': Filled)
    requires begin <= end < |ms| && TableOk(ms, best, opNums, filled) && IsBest(ms, best)
    modifies opNums
    ensures TableOk(ms, best, opNums, filled') && Grows(filled, filled') && PartFilled(filled', begin, end)
    ensures ops == At(best, begin, end)
    decreases end - begin, 2
  {
    filled' := filled;
    if begin != end && opNums[begin, end].optOpNum == 0 {
      filled' := ComputeOptMultNum(begin, end, ms, best, opNums, filled');
    }
    EntryValue(ms, best, opNums, filled', begin, end);
    ops := opNums[begin, end].optOpNum;
  }

  /** The cheapest split before i. */
  ghost predicate BestSoFar(ms: Chain, best: Best, filled: Filled, begin: nat, i: nat, end: nat, x: OptMult) {
    && begin <= x.leftPartEnd < i
    && x.optOpNum == Via(ms, best, begin, x.leftPartEnd, end)
    && (forall k :: begin <= k < i ==> x.optOpNum <= Via(ms, best, begin, k, end))
    && PartFilled(filled, begin, x.leftPartEnd) && PartFilled(filled, x.leftPartEnd + 1, end)
  }

  function Better(x: Option<OptMult>, i: nat, c: nat): Option<OptMult> {
    if x.None? || c < x.value.optOpNum then Some(OptMult(i, c)) else x
  }

  lemma NextSplit(ms: Chain, best: Best, filled: Filled, more: Filled, begin: nat, i: nat, end: nat, x: Option<OptMult>)
    requires begin <= i && Grows(filled, more) && (x.None? <==> i == begin)
    requires x.Some? ==> BestSoFar(ms, best, filled, begin, i, end, x.value)
    requires PartFilled(more, begin, i) && PartFilled(more, i + 1, end) && Via(ms, best, begin, i, end) >= 0
    ensures var y := Better(x, i, Via(ms, best, begin, i, end));
            y.Some? && BestSoFar(ms, best, more, begin, i + 1, end, y.value)
  {
  }

  /** The cheapest of all splits gives the least cost. */
  lemma BestOfAll(ms: Chain, best: Best, filled: Filled, begin: nat, end: nat, x: OptMult)
    requires begin < end < |ms| && IsBest(ms, best) && BestSoFar(ms, best, filled, begin, end, end, x)
    ensures EntryOk(ms, best, filled, begin, end, x)
  {
    var i := BestSplit(ms, begin, end, end);
    assert MinCost(ms, begin, end) == Via(ms, best, begin, i, end);
    MinUpToLeast(ms, begin, x.leftPartEnd, end, end);
    assert MinCost(ms, begin, x.leftPartEnd) == At(best, begin, x.leftPartEnd);
    assert MinCost(ms, x.leftPartEnd + 1, end) == At(best, x.leftPartEnd + 1, end);
  }

  /** The cost of splitting after i, once both parts are known. */
  method SplitOps(begin: nat, i: nat, end: nat, ms: Chain, ghost best: Best, opNums: array2<OptMult>, ghost filled: Filled)
    returns (overall: nat, ghost filled': Filled)
    requires begin <= i < end < |ms| && TableOk(ms, best, opNums, filled) && IsBest(ms, best)
    modifies opNums
    ensures TableOk(ms, best, opNums, filled') && Grows(filled, filled')
    ensures PartFilled(filled', begin, i) && PartFilled(filled', i + 1, end)
    ensures overall == Via(ms, best, begin, i, end)
    decreases end - begin, 0
  {
    var leftPart, rightPart;
    leftPart, filled' := PartOps(begin, i, ms, best, opNums, filled);
    rightPart, filled' := PartOps(i + 1, end, ms, best, opNums, filled');
    overall := ms[begin].rows * ms[i].cols * ms[end].cols;
    overall := overall + (leftPart + rightPart);
  }

  /** Fills in the entry begin..end, and on the way the parts it needs that look uncomputed. */
  method ComputeOptMultNum(begin: nat, end: nat, ms: Chain, ghost best: Best, opNums: array2<OptMult>, ghost filled: Filled)
    returns (ghost filled': Filled)
    requires begin < end < |ms| && TableOk(ms, best, opNums, filled) && IsBest(ms, best)
    modifies opNums
    ensures TableOk(ms, best, opNums, filled') && Grows(filled, filled') && Marked(filled', begin, end)
    decreases end - begin, 1
  {
    filled' := filled;
    var optOps: Option<OptMult> := None;
    var i := begin;
    while i < end
      invariant begin <= i <= end && Grows(filled, filled') && TableOk(ms, best, opNums, filled')
      invariant optOps.None? <==> i == begin
      invariant optOps.Some? ==> BestSoFar(ms, best, filled', begin, i, end, optOps.value)
    {
      ghost var before := filled';
      var overall;
      overall, filled' := SplitOps(begin, i, end, ms, best, opNums, filled');
      NextSplit(ms, best, before, filled', begin, i, end, optOps);
      if optOps.None? || overall < optOps.value.optOpNum {
        optOps := Some(OptMult(i, overall));
      }
      i := i + 1;
    }
    BestOfAll(ms, best, filled', begin, end, optOps.value);
    PutEntry(ms, best, opNums, filled', begin, end, optOps.value);
    filled' := Mark(filled', begin, end);
  }

  // ---------------------------------------------------------------------------
  // Multiplying along the table
  // ---------------------------------------------------------------------------

  method DotCell(a: Matrix, b: Matrix, i: nat, j: nat) returns (sum: int, mults: nat)
    requires Shaped(a) && Shaped(b) && a.cols == b.rows && i < a.rows && j < b.cols
    ensures sum == Dot(a.cells, b.cells, i, j, a.cols) && mults == a.cols
  {
    sum, mults := 0, 0;
    var z := 0;
    while z < a.cols
      invariant 0 <= z <= a.cols && mults == z && sum == Dot(a.cells, b.cells, i, j, z)
    {
      sum := sum + a.cells[i][z] * b.cells[z][j];
      mults := mults + 1;
      z := z + 1;
    }
  }

  method DotRow(a: Matrix, b: Matrix, i: nat) returns (row: seq<int>, mults: nat)
    requires Shaped(a) && Shaped(b) && a.cols == b.rows && i < a.rows
    ensures |row| == b.cols && forall j :: 0 <= j < b.cols ==> row[j] == Dot(a.cells, b.cells, i, j, a.cols)
    ensures mults == a.cols * b.cols
  {
    row, mults := [], 0;
    while |row| < b.cols
      invariant |row| <= b.cols && mults == a.cols * |row|
      invariant forall j :: 0 <= j < |row| ==> row[j] == Dot(a.cells, b.cells, i, j, a.cols)
    {
      var sum, m := DotCell(a, b, i, |row|);
      assert a.cols * (|row| + 1) == a.cols * |row| + a.cols;
      row, mults := row + [sum], mults + m;
    }
  }

  lemma MatMulRow(a: Mat, b: Mat, k: nat, n: nat, cols: nat, row: seq<int>)
    requires |row| == cols && forall j :: 0 <= j < cols ==> row[j] == Dot(a, b, k, j, n)
    ensures MatMul(a, b, k, n, cols) + [row] == MatMul(a, b, k + 1, n, cols)
  {
    var more := MatMul(a, b, k + 1, n, cols);
    assert more[k] == row;
  }

  /** The product, and the number of scalar multiplications it took. */
  method DotProduct(a: Matrix, b: Matrix) returns (r: Matrix, mults: nat)
    requires Shaped(a) && Shaped(b) && a.cols == b.rows
    ensures r == Mul(a, b) && mults == a.rows * a.cols * b.cols
  {
    var rows: Mat := [];
    mults := 0;
    while |rows| < a.rows
      invariant |rows| <= a.rows && mults == |rows| * (a.cols * b.cols)
      invariant rows == MatMul(a.cells, b.cells, |rows|, a.cols, b.cols)
    {
      var row, m := DotRow(a, b, |rows|);
      MatMulRow(a.cells, b.cells, |rows|, a.cols, b.cols, row);
      assert (|rows| + 1) * (a.cols * b.cols) == |rows| * (a.cols * b.cols) + a.cols * b.cols;
      rows, mults := rows + [row], mults + m;
    }
    MulAssoc(a.rows, a.cols, b.cols);
    r := Matrix(a.rows, b.cols, rows);
  }

  /** One factor: an operand itself, or the product of a longer part. */
  method Part(begin: nat, end: nat, ms: Chain, ghost best: Best, opNums: array2<OptMult>, ghost filled: Filled)
    returns (r: Matrix, mults: nat)
    requires begin <= end < |ms| && TableOk(ms, best, opNums, filled) && PartFilled(filled, begin, end)
    requires AllShaped(ms) && Compatible(ms) && IsBest(ms, best)
    ensures r == Product(ms, begin, end) && mults == At(best, begin, end)
    decreases end - begin, 1
  {
    if begin == end {
      r, mults := ms[begin], 0;
      BestLeaf(ms, best, begin);
    } else {
      r, mults := MultiplicateMatrices(begin, end, ms, best, opNums, filled);
    }
  }

  lemma Factors(ms: Chain, begin: nat, i: nat, end: nat)
    requires begin <= i < end < |ms| && AllShaped(ms) && Compatible(ms)
    ensures var l, r := Product(ms, begin, i), Product(ms, i + 1, end);
            && Shaped(l) && Shaped(r) && l.cols == r.rows && Mul(l, r) == Product(ms, begin, end)
            && l.rows * l.cols * r.cols == Join(ms, begin, i, end)
  {
    ProductShape(ms, begin, i);
    ProductShape(ms, i + 1, end);
    ProductSplit(ms, begin, i, end);
    assert FitsNext(ms, i);
  }

  /** Follows the recorded splits: the left-to-right product, at the least possible cost. */
  method MultiplicateMatrices(begin: nat, end: nat, ms: Chain, ghost best: Best, opNums: array2<OptMult>, ghost filled: Filled)
    returns (r: Matrix, mults: nat)
    requires begin < end < |ms| && TableOk(ms, best, opNums, filled) && Marked(filled, begin, end)
    requires AllShaped(ms) && Compatible(ms) && IsBest(ms, best)
    ensures r == Product(ms, begin, end) && mults == At(best, begin, end)
    decreases end - begin, 0
  {
    var x := opNums[begin, end];
    assert EntryOk(ms, best, filled, begin, end, x);
    var i := x.leftPartEnd;
    var left, leftMults := Part(begin, i, ms, best, opNums, filled);
    var right, rightMults := Part(i + 1, end, ms, best, opNums, filled);
    Factors(ms, begin, i, end);
    var m;
    r, m := DotProduct(left, right);
    mults := leftMults + rightMults + m;
  }

  // ---------------------------------------------------------------------------
  // From an expression to its value
  // ---------------------------------------------------------------------------

  /** What operator* builds. */
  datatype Glue = Pair(first: Matrix, right: Matrix) | More(left: Glue, right: Matrix)

  function Operands(g: Glue): (ms: Chain)
    ensures |ms| >= 2
  {
    match g
    case Pair(a, b) => [a, b]
    case More(l, b) => Operands(l) + [b]
  }

  method DFS(g: Glue, res: Chain) returns (res': Chain)
    ensures res' == res + Operands(g)
  {
    match g {
      case Pair(a, b) => res' := res + [a] + [b];
      case More(l, b) =>
        res' := DFS(l, res);
        res' := res' + [b];
    }
  }

  /** The value of the expression multiplied strictly from left to right; None where sizes clash. */
  function Value(g: Glue): Option<Matrix> {
    match g
    case Pair(a, b) => if a.cols == b.rows then Some(Mul(a, b)) else None
    case More(l, b) =>
      var v := Value(l);
      if v.Some? && v.value.cols == b.rows then Some(Mul(v.value, b)) else None
  }

  lemma {:induction false} ValueIsProduct(g: Glue)
    ensures var ms := Operands(g);
            && (Value(g).Some? <==> Compatible(ms))
            && (Value(g).Some? ==> Value(g).value == Product(ms, 0, |ms| - 1)
                                   && Value(g).value.cols == Nth(ms, |ms| - 1).cols)
  {
    var ms := Operands(g);
    match g {
      case Pair(a, b) =>
        assert Nth(ms, 0) == a && Nth(ms, 1) == b;
        assert FitsNext(ms, 0) <==> a.cols == b.rows;
        assert Product(ms, 0, 1) == Mul(Product(ms, 0, 0), b);
      case More(l, b) =>
        var front := Operands(l);
        ValueIsProduct(l);
        CompatiblePrefix(front, b);
        ProductPrefix(front, b, |front| - 1);
        assert Nth(ms, |front|) == b;
    }
  }

  lemma CompatiblePrefix(front: Chain, b: Matrix)
    requires |front| >= 1
    ensures Compatible(front + [b]) <==> Compatible(front) && Nth(front, |front| - 1).cols == b.rows
  {
    var ms := front + [b];
    assert forall i :: 0 <= i && i + 1 < |front| ==> FitsNext(ms, i) == FitsNext(front, i);
    assert FitsNext(ms, |front| - 1) <==> Nth(front, |front| - 1).cols == b.rows;
    if Compatible(ms) {
      forall i | 0 <= i && i + 1 < |front| ensures FitsNext(front, i) {
        assert FitsNext(ms, i);
      }
    }
  }

  lemma {:induction false} ProductPrefix(front: Chain, b: Matrix, end: nat)
    requires end < |front|
    ensures Product(front + [b], 0, end) == Product(front, 0, end)
  {
    if end > 0 {
      ProductPrefix(front, b, end - 1);
    }
  }

  method SizesFit(operands: Chain) returns (ok: bool)
    ensures ok <==> Compatible(operands)
  {
    var i := 1;
    while i < |operands|
      invariant |operands| > 0 ==> 1 <= i <= |operands|
      invariant forall k :: 0 <= k && k + 1 < i && k + 1 < |operands| ==> FitsNext(operands, k)
    {
      if operands[i - 1].cols != operands[i].rows {
        assert !FitsNext(operands, i - 1);
        return false;
      }
      i := i + 1;
    }
    return true;
  }

  /** Optimises and multiplies a chain of at least two operands that fit. */
  method MultiplyChain(ms: Chain) returns (r: Matrix, mults: nat)
    requires |ms| >= 2 && AllShaped(ms) && Compatible(ms)
    ensures r == Product(ms, 0, |ms| - 1) && mults == MinCost(ms, 0, |ms| - 1)
  {
    var n := |ms|;
    var opNums := new OptMult[n, n]((_, _) => OptMult(0, 0));
    ghost var best: Best := seq(n, b requires 0 <= b => seq(n, e requires 0 <= e => MinCost(ms, b, e)));
    ghost var filled := ComputeOptMultNum(0, n - 1, ms, best, opNums, seq(n, b => {}));
    r, mults := MultiplicateMatrices(0, n - 1, ms, best, opNums, filled);
  }

  method Evaluate(operands: Chain) returns (r: Option<Matrix>, mults: nat)
    requires |operands| >= 2 && AllShaped(operands)
    ensures r.Some? <==> Compatible(operands)
    ensures r.Some? ==> r.value == Product(operands, 0, |operands| - 1) && Least(operands, mults)
  {
    var ok := SizesFit(operands);
    if !ok {
      return None, 0;
    }
    var m;
    m, mults := MultiplyChain(operands);
    MinCostIsLeast(operands);
    r := Some(m);
  }

  /**
    The constructor from an expression: fails exactly when the sizes clash somewhere, otherwise
    gives the left-to-right product with as few scalar multiplications as the best parenthesisation.
  */
  method FromGlue(g: Glue) returns (r: Option<Matrix>, mults: nat)
    requires AllShaped(Operands(g))
    ensures r == Value(g)
    ensures r.Some? ==> Least(Operands(g), mults)
  {
    var operands := DFS(g, []);
    assert operands == Operands(g);
    ValueOf(g, operands);
    r, mults := Evaluate(operands);
  }

  lemma ValueOf(g: Glue, ms: Chain)
    requires ms == Operands(g)
    ensures |ms| >= 2 && Value(g) == if Compatible(ms) then Some(Product(ms, 0, |ms| - 1)) else None
  {
    ValueIsProduct(g);
  }
}
