/**
  From token lines to the result of Run: indentation, statements, nested loop bodies,
  and the matrix built while the program's lines are consumed.
*/
module LoopInterpreter {
  import opened Common
  import opened LinearAlgebra
  import opened WordMatrix
  import opened LoopSyntax
  import opened LinearForm
  import opened LoopProgram

  ghost predicate AllEnd(lines: seq<TokenLine>) {
    forall i :: 0 <= i < |lines| ==> Ends(lines[i])
  }

  // ---------------------------------------------------------------------------
  // The language: which lines form which program
  // ---------------------------------------------------------------------------

  datatype Statement = Blank | SetLine(x: nat, op: Op, e: Expr) | ForLine(count: nat)

  function OpOf(c: char): Op {
    if c == '+' then PlusEq else if c == '-' then MinusEq else TimesEq
  }

  function ParseAssignment(line: TokenLine, pos: nat, x: nat, vars: map<string, nat>): Option<Statement> {
    var t := TokenAt(line, pos);
    if t.Symbol? && t.symbol !in {'+', '-', '*'} then None
    else
      var op := if t.Symbol? then OpOf(t.symbol) else Set;
      var eqv := if t.Symbol? then pos + 1 else pos;
      if TokenAt(line, eqv) != Eqv then None
      else
        var r := ParseSum(line, eqv + 1, vars);
        if r.None? || TokenAt(line, r.value.pos) != NewLine then None
        else Some(SetLine(x, op, r.value.expr))
  }

  function ParseLine(line: TokenLine, pos: nat, vars: map<string, nat>): Option<Statement> {
    match TokenAt(line, pos)
    case Name(x) => if x in vars then ParseAssignment(line, pos + 1, vars[x], vars) else None
    case For =>
      (var t := TokenAt(line, pos + 1);
       if t.Number? && TokenAt(line, pos + 2) == NewLine then Some(ForLine(t.value)) else None)
    case NewLine => Some(Blank)
    case _ => None
  }

  /** How many leading lines are indented deeper than depth. */
  function BodyLength(lines: seq<TokenLine>, depth: nat): (k: nat)
    ensures k <= |lines|
  {
    if lines == [] || Tabs(lines[0]) <= depth then 0 else 1 + BodyLength(lines[1..], depth)
  }

  function ParseProgram(lines: seq<TokenLine>, depth: nat, vars: map<string, nat>): Option<Program>
    decreases |lines|
  {
    if lines == [] then Some(Done)
    else if Tabs(lines[0]) != depth then None
    else
      var s := ParseLine(lines[0], depth, vars);
      if s.None? then None
      else
        match s.value
        case Blank => ParseProgram(lines[1..], depth, vars)
        case SetLine(x, op, e) =>
          (var rest := ParseProgram(lines[1..], depth, vars);
           if rest.None? then None else Some(Assign(x, op, e, rest.value)))
        case ForLine(count) =>
          (var k := BodyLength(lines[1..], depth);
           if k == 0 then None
           else
             var body, rest := ParseProgram(lines[1..][..k], depth + 1, vars), ParseProgram(lines[1..][k..], depth, vars);
             if body.None? || rest.None? then None else Some(Loop(count, body.value, rest.value)))
  }

  // ---------------------------------------------------------------------------
  // Parsed programs only use numbered variables
  // ---------------------------------------------------------------------------

  ghost predicate Bounded(vars: map<string, nat>, n: nat) {
    forall x :: x in vars ==> vars[x] < n
  }

  lemma {:induction false} ConstantInScope(line: TokenLine, pos: nat, vars: map<string, nat>, n: nat)
    requires Bounded(vars, n) && ParseConstant(line, pos, vars).Some?
    ensures Variables(ParseConstant(line, pos, vars).value.expr, n)
    decreases Left(line, pos), 0
  {
    if TokenAt(line, pos) == Symbol('-') {
      ConstantInScope(line, pos + 1, vars, n);
    } else if TokenAt(line, pos) == Symbol('(') {
      SumInScope(line, pos + 1, vars, n);
    }
  }

  lemma {:induction false} MulRestInScope(line: TokenLine, acc: Parsed, vars: map<string, nat>, n: nat)
    requires Bounded(vars, n) && MulRest(line, acc, vars).Some? && Variables(acc.expr, n)
    ensures Variables(MulRest(line, acc, vars).value.expr, n)
    decreases Left(line, acc.pos), 1
  {
    if TokenAt(line, acc.pos) == Symbol('*') {
      ConstantInScope(line, acc.pos + 1, vars, n);
      var r := ParseConstant(line, acc.pos + 1, vars).value;
      MulRestInScope(line, Parsed(LoopSyntax.Mul(acc.expr, r.expr), r.pos), vars, n);
    }
  }

  lemma {:induction false} MulInScope(line: TokenLine, pos: nat, vars: map<string, nat>, n: nat)
    requires Bounded(vars, n) && ParseMul(line, pos, vars).Some?
    ensures Variables(ParseMul(line, pos, vars).value.expr, n)
    decreases Left(line, pos), 2
  {
    ConstantInScope(line, pos, vars, n);
    MulRestInScope(line, ParseConstant(line, pos, vars).value, vars, n);
  }

  lemma {:induction false} SumRestInScope(line: TokenLine, acc: Parsed, vars: map<string, nat>, n: nat)
    requires Bounded(vars, n) && SumRest(line, acc, vars).Some? && Variables(acc.expr, n)
    ensures Variables(SumRest(line, acc, vars).value.expr, n)
    decreases Left(line, acc.pos), 3
  {
    if TokenAt(line, acc.pos) == Symbol('+') || TokenAt(line, acc.pos) == Symbol('-') {
      MulInScope(line, acc.pos + 1, vars, n);
      var r := ParseMul(line, acc.pos + 1, vars).value;
      SumRestInScope(line, Parsed(LoopSyntax.Sum(acc.expr, TokenAt(line, acc.pos) == Symbol('-'), r.expr), r.pos), vars, n);
    }
  }

  lemma {:induction false} SumInScope(line: TokenLine, pos: nat, vars: map<string, nat>, n: nat)
    requires Bounded(vars, n) && ParseSum(line, pos, vars).Some?
    ensures Variables(ParseSum(line, pos, vars).value.expr, n)
    decreases Left(line, pos), 4
  {
    MulInScope(line, pos, vars, n);
    SumRestInScope(line, ParseMul(line, pos, vars).value, vars, n);
  }

  lemma LineInScope(line: TokenLine, pos: nat, vars: map<string, nat>, n: nat)
    requires Bounded(vars, n) && ParseLine(line, pos, vars).Some?
    ensures var s := ParseLine(line, pos, vars).value; s.SetLine? ==> s.x < n && Variables(s.e, n)
  {
    if ParseLine(line, pos, vars).value.SetLine? {
      var eqv := if TokenAt(line, pos + 1).Symbol? then pos + 2 else pos + 1;
      SumInScope(line, eqv + 1, vars, n);
    }
  }

  lemma {:induction false} ProgramInScope(lines: seq<TokenLine>, depth: nat, vars: map<string, nat>, n: nat)
    requires Bounded(vars, n) && ParseProgram(lines, depth, vars).Some?
    ensures InScope(ParseProgram(lines, depth, vars).value, n)
    decreases |lines|
  {
    if lines != [] {
      LineInScope(lines[0], depth, vars, n);
      var s := ParseLine(lines[0], depth, vars).value;
      if s.ForLine? {
        var k := BodyLength(lines[1..], depth);
        ProgramInScope(lines[1..][..k], depth + 1, vars, n);
        ProgramInScope(lines[1..][k..], depth, vars, n);
      } else {
        ProgramInScope(lines[1..], depth, vars, n);
      }
    }
  }

  // ---------------------------------------------------------------------------
  // What CalculateTransformMatrix builds
  // ---------------------------------------------------------------------------

  ghost function CompileLines(lines: seq<TokenLine>, depth: nat, vars: map<string, nat>, n: nat): (m: Option<Mat>)
    ensures m.Some? ==> Square(m.value, n + 1)
  {
    var p := ParseProgram(lines, depth, vars);
    if p.None? then None else Compile(p.value, n)
  }

  /** The matrix so far followed by the matrix of the remaining lines. */
  ghost function Joined(res: Mat, rest: Option<Mat>, n: nat): Option<Mat> {
    if rest.None? then None else Some(WMul(res, rest.value, n + 1, n + 1, n + 1))
  }

  ghost function StatementMatrix(s: Statement, n: nat): Option<Mat> {
    if !s.SetLine? then None
    else
      var f := Coeffs(s.e, n);
      if f.None? || (s.op == TimesEq && !NoVariables(f.value, n)) then None
      else Some(Transform(s.x, s.op, f.value, n))
  }

  lemma CompileBlank(lines: seq<TokenLine>, depth: nat, vars: map<string, nat>, n: nat)
    requires lines != [] && Tabs(lines[0]) == depth && ParseLine(lines[0], depth, vars) == Some(Blank)
    ensures CompileLines(lines, depth, vars, n) == CompileLines(lines[1..], depth, vars, n)
  {
  }

  lemma CompileSet(lines: seq<TokenLine>, depth: nat, vars: map<string, nat>, n: nat, s: Statement)
    requires lines != [] && Tabs(lines[0]) == depth && ParseLine(lines[0], depth, vars) == Some(s) && s.SetLine?
    ensures CompileLines(lines, depth, vars, n)
            == if StatementMatrix(s, n).None? then None
               else Joined(StatementMatrix(s, n).value, CompileLines(lines[1..], depth, vars, n), n)
  {
  }

  lemma CompileFor(lines: seq<TokenLine>, depth: nat, vars: map<string, nat>, n: nat, count: nat, k: nat)
    requires lines != [] && Tabs(lines[0]) == depth && ParseLine(lines[0], depth, vars) == Some(ForLine(count))
    requires k == BodyLength(lines[1..], depth)
    ensures CompileLines(lines, depth, vars, n)
            == if k == 0 || CompileLines(lines[1..][..k], depth + 1, vars, n).None? then None
               else Joined(WPow(CompileLines(lines[1..][..k], depth + 1, vars, n).value, count, n + 1),
                           CompileLines(lines[1..][k..], depth, vars, n), n)
  {
  }

  lemma CompileRejected(lines: seq<TokenLine>, depth: nat, vars: map<string, nat>, n: nat)
    requires lines != [] && (Tabs(lines[0]) != depth || ParseLine(lines[0], depth, vars).None?)
    ensures CompileLines(lines, depth, vars, n).None?
  {
  }

  lemma JoinStep(res: Mat, m: Mat, rest: Option<Mat>, n: nat)
    ensures Joined(res, Joined(m, rest, n), n) == Joined(WMul(res, m, n + 1, n + 1, n + 1), rest, n)
  {
    if rest.Some? {
      WMulAssociative(res, m, rest.value, n + 1, n + 1, n + 1, n + 1);
    }
  }

  // ---------------------------------------------------------------------------
  // The loops
  // ---------------------------------------------------------------------------

  method CountTabs(line: Line) returns (count: nat)
    requires line.pos == 0 && Ends(line.tokens)
    modifies line
    ensures count == Tabs(line.tokens) && line.pos == count < |line.tokens|
  {
    count := 0;
    var token := line.Get();
    while token == Tab
      invariant line.pos == count < |line.tokens| && token == line.tokens[line.pos]
      invariant Tabs(line.tokens) == count + Tabs(line.tokens[count..])
      decreases |line.tokens| - count
    {
      assert line.tokens[count..][1..] == line.tokens[count + 1..];
      count := count + 1;
      var ok := line.Next();
      token := line.Get();
    }
  }

  method CountTabsOf(tokens: TokenLine) returns (count: nat)
    requires Ends(tokens)
    ensures count == Tabs(tokens)
  {
    var line := new Line(tokens);
    count := CountTabs(line);
  }

  /** Reads `[op] = expr` and the end of the line, leaving the cursor on NewLine. */
  method ReadAssignment(line: Line, x: nat, vars: map<string, nat>) returns (s: Option<Statement>)
    requires Ends(line.tokens) && line.pos < |line.tokens|
    modifies line
    ensures s == ParseAssignment(line.tokens, old(line.pos), x, vars)
  {
    var op := Set;
    var token := line.Get();
    if token.Symbol? {
      if token.symbol != '+' && token.symbol != '-' && token.symbol != '*' {
        return None;
      }
      op := OpOf(token.symbol);
      var ok := line.Next();
    }
    token := line.Get();
    if token != Eqv {
      return None;
    }
    var ok := line.Next();
    var e := BuildSum(line, vars);
    if e.None? {
      return None;
    }
    token := line.Get();
    if token != NewLine {
      return None;
    }
    s := Some(SetLine(x, op, e.value));
  }

  method ReadLine(line: Line, vars: map<string, nat>) returns (s: Option<Statement>)
    requires Ends(line.tokens) && line.pos < |line.tokens|
    modifies line
    ensures s == ParseLine(line.tokens, old(line.pos), vars)
  {
    var token := line.Get();
    if token.Name? {
      if token.name !in vars {
        return None;
      }
      var ok := line.Next();
      s := ReadAssignment(line, vars[token.name], vars);
    } else if token == For {
      var ok := line.Next();
      token := line.Get();
      if !token.Number? {
        return None;
      }
      var count := token.value;
      ok := line.Next();
      token := line.Get();
      if token != NewLine {
        return None;
      }
      s := Some(ForLine(count));
    } else if token == NewLine {
      s := Some(Blank);
    } else {
      s := None;
    }
  }

  /** The statement on a line of the expected depth; None where the source throws. */
  method ReadStatement(tokens: TokenLine, depth: nat, vars: map<string, nat>) returns (s: Option<Statement>)
    requires Ends(tokens)
    ensures s == if Tabs(tokens) == depth then ParseLine(tokens, depth, vars) else None
  {
    var line := new Line(tokens);
    var tabs := CountTabs(line);
    if tabs != depth {
      return None;
    }
    s := ReadLine(line, vars);
  }

  /** Adjusts the expression's column for the operator; None is "Non constant expression for *=". */
  method AdjustColumn(x: nat, op: Op, f: seq<int>, n: nat) returns (r: Option<seq<int>>)
    requires x < n && Form(f, n)
    ensures r.None? <==> op == TimesEq && !NoVariables(f, n)
    ensures r.Some? ==> r.value == Column(x, op, f, n)
  {
    var column := f;
    if op == PlusEq {
      column := column[x := Wrap(column[x] + 1)];
      PlusColumn(f, x, n);
    } else if op == MinusEq {
      column := NegateColumn(column, n);
      column := column[x := Wrap(column[x] + 1)];
      NegatedColumn(f, x, n);
    } else if op == TimesEq {
      var bad := HasVariables(column, n);
      if bad {
        return None;
      }
      column := column[x := column[n]];
      column := column[n := 0];
      TimesColumn(f, x, n);
    }
    r := Some(column);
  }

  lemma PlusColumn(f: seq<int>, x: nat, n: nat)
    requires Form(f, n) && x < n
    ensures f[x := Wrap(f[x] + 1)] == Column(x, PlusEq, f, n)
  {
  }

  lemma TimesColumn(f: seq<int>, x: nat, n: nat)
    requires Form(f, n) && x < n && NoVariables(f, n)
    ensures f[x := f[n]][n := 0] == Column(x, TimesEq, f, n)
  {
    forall i | 0 <= i < n + 1 ensures f[x := f[n]][n := 0][i] == Column(x, TimesEq, f, n)[i] {
      assert i < n ==> Nth(f, i) == 0;
    }
  }

  /** Writes the expression into column x of the identity and adjusts it for the operator. */
  method BuildTransform(x: nat, op: Op, e: Expr, n: nat) returns (m: Option<Mat>)
    requires x < n && Variables(e, n)
    ensures m == StatementMatrix(SetLine(x, op, e), n)
  {
    var f := Evaluate(e, n);
    if f.None? {
      return None;
    }
    var column := AdjustColumn(x, op, f.value, n);
    if column.None? {
      return None;
    }
    ColumnForm(x, op, f.value, n);
    var t := PutColumn(x, column.value, n);
    m := Some(t);
  }

  method NegateColumn(column: seq<int>, n: nat) returns (r: seq<int>)
    requires Form(column, n)
    ensures r == seq(n + 1, i => Wrap(-Nth(column, i)))
  {
    r := [];
    var i: nat := 0;
    while i < n + 1
      invariant i <= n + 1 && |r| == i && forall j :: 0 <= j < i ==> r[j] == Wrap(-Nth(column, j))
    {
      r := r + [Wrap(-column[i])];
      i := i + 1;
    }
  }

  lemma NegatedColumn(f: seq<int>, x: nat, n: nat)
    requires Form(f, n) && x < n
    ensures var r := seq(n + 1, i => Wrap(-Nth(f, i)));
            r[x := Wrap(r[x] + 1)] == Column(x, MinusEq, f, n)
  {
    var r := seq(n + 1, i => Wrap(-Nth(f, i)));
    WrapAdd(r[x], 1, -f[x], 1);
    assert Unit(x, 1, n)[x] == 1;
    forall i | 0 <= i < n + 1 ensures r[x := Wrap(r[x] + 1)][i] == Column(x, MinusEq, f, n)[i] {
      if i == x {
        assert Nth(Unit(x, 1, n), i) - Nth(f, i) == -f[x] + 1;
      }
    }
  }

  method PutColumn(x: nat, column: seq<int>, n: nat) returns (m: Mat)
    requires x < n && |column| == n + 1
    ensures m == WithColumn(x, column, n)
  {
    m := Identity(n + 1);
    var i: nat := 0;
    while i < n + 1
      invariant i <= n + 1 && Shape(m, n + 1, n + 1)
      invariant forall r :: 0 <= r < i ==> m[r] == WithColumn(x, column, n)[r]
      invariant forall r :: i <= r < n + 1 ==> m[r] == Identity(n + 1)[r]
    {
      assert Identity(n + 1)[i][x := column[i]] == WithColumn(x, column, n)[i];
      m := m[i := m[i][x := column[i]]];
      i := i + 1;
    }
  }

  lemma EraseAt(program: seq<TokenLine>, it: nat)
    requires it < |program| && AllEnd(program)
    ensures program[it..] == [program[it]] + program[it + 1..] && program[it..][1..] == program[it + 1..]
    ensures (program[..it] + program[it + 1..])[it..] == program[it + 1..]
    ensures AllEnd(program[..it] + program[it + 1..])
  {
  }

  /** body and rest make up all, and the body of all goes on into rest. */
  ghost predicate Taking(body: seq<TokenLine>, rest: seq<TokenLine>, all: seq<TokenLine>, depth: nat) {
    body + rest == all && BodyLength(all, depth) == |body| + BodyLength(rest, depth)
  }

  lemma TakeOne(body: seq<TokenLine>, rest: seq<TokenLine>, all: seq<TokenLine>, depth: nat)
    requires Taking(body, rest, all, depth) && rest != [] && Tabs(rest[0]) > depth
    ensures Taking(body + [rest[0]], rest[1..], all, depth)
  {
    assert (body + [rest[0]]) + rest[1..] == body + rest;
  }

  lemma TakenAll(body: seq<TokenLine>, rest: seq<TokenLine>, all: seq<TokenLine>, depth: nat)
    requires Taking(body, rest, all, depth) && (rest == [] || Tabs(rest[0]) <= depth)
    ensures BodyLength(all, depth) == |body| && all[..|body|] == body && all[|body|..] == rest
  {
  }

  class Interpreter {
    var program: seq<TokenLine>
    const vars: map<string, nat>
    const depth: nat

    constructor (program: seq<TokenLine>, vars: map<string, nat>, depth: nat)
      ensures this.program == program && this.vars == vars && this.depth == depth
    {
      this.program := program;
      this.vars := vars;
      this.depth := depth;
    }

    /** Moves the lines deeper than depth, from it on, out of the program. */
    method TakeBody(it: nat) returns (body: seq<TokenLine>)
      requires it <= |program| && AllEnd(program)
      modifies this
      ensures AllEnd(program) && AllEnd(body) && it <= |program| && |body| + |program| == old(|program|)
      ensures var k := BodyLength(old(program)[it..], depth);
              body == old(program)[it..][..k] && program[it..] == old(program)[it..][k..]
    {
      body := [];
      ghost var all := program[it..];
      ghost var rest := all;
      while it < |program|
        invariant it <= |program| && AllEnd(program) && AllEnd(body) && rest == program[it..]
        invariant Taking(body, rest, all, depth) && |body| + |program| == old(|program|)
        decreases |program|
      {
        assert rest[0] == program[it];
        var tabs := CountTabsOf(program[it]);
        if tabs <= depth {
          break;
        }
        TakeOne(body, rest, all, depth);
        EraseAt(program, it);
        body := body + [program[it]];
        program := program[..it] + program[it + 1..];
        rest := rest[1..];
      }
      TakenAll(body, rest, all, depth);
    }

    /** The matrix of one statement; body lines of a loop are taken out of the program first. */
    method StatementStep(it: nat, s: Statement, n: nat) returns (m: Option<Mat>)
      requires 1 <= it <= |program| && AllEnd(program) && Bounded(vars, n)
      requires Tabs(program[it - 1]) == depth && ParseLine(program[it - 1], depth, vars) == Some(s)
      modifies this
      ensures AllEnd(program) && it <= |program| && |program| - it <= old(|program|) - it
      ensures CompileLines(old(program)[it - 1..], depth, vars, n)
              == if m.None? then None else Joined(m.value, CompileLines(program[it..], depth, vars, n), n)
      ensures m.Some? ==> Square(m.value, n + 1)
      decreases |program| - it, 2
    {
      ghost var lines := program[it - 1..];
      assert lines[0] == program[it - 1] && lines[1..] == program[it..];
      match s {
        case Blank =>
          CompileBlank(lines, depth, vars, n);
          IdentityJoin(CompileLines(lines[1..], depth, vars, n), n);
          m := Some(Identity(n + 1));
        case SetLine(x, op, e) =>
          LineInScope(program[it - 1], depth, vars, n);
          m := BuildTransform(x, op, e, n);
          CompileSet(lines, depth, vars, n, s);
          if m.Some? {
            TransformSquare(x, op, Coeffs(e, n).value, n);
          }
        case ForLine(count) =>
          CompileFor(lines, depth, vars, n, count, BodyLength(lines[1..], depth));
          m := LoopStep(it, count, n);
      }
    }

    /** Takes the loop body out of the program and raises its matrix to the iteration count. */
    method LoopStep(it: nat, count: nat, n: nat) returns (m: Option<Mat>)
      requires it <= |program| && AllEnd(program) && Bounded(vars, n)
      modifies this
      ensures AllEnd(program) && it <= |program| <= old(|program|)
      ensures var lines := old(program)[it..];
              var k := BodyLength(lines, depth);
              var b := CompileLines(lines[..k], depth + 1, vars, n);
              && program[it..] == lines[k..]
              && m == if k == 0 || b.None? then None else Some(WPow(b.value, count, n + 1))
      decreases |program| - it, 1
    {
      var body := TakeBody(it);
      if body == [] {
        return None;
      }
      var inner := new Interpreter(body, vars, depth + 1);
      var b := inner.CalculateTransformMatrix(n);
      if b.None? {
        return None;
      }
      var power := Pow(b.value, count, n + 1);
      m := Some(power);
    }

    method CalculateTransformMatrix(n: nat) returns (r: Option<Mat>)
      requires AllEnd(program) && Bounded(vars, n)
      modifies this
      ensures r == CompileLines(old(program), depth, vars, n)
      decreases |program|, 0
    {
      var res := Identity(n + 1);
      ghost var goal := CompileLines(program, depth, vars, n);
      var it: nat := 0;
      IdentityJoin(goal, n);
      assert program[0..] == program;
      while it < |program|
        invariant it <= |program| <= old(|program|) && AllEnd(program) && Square(res, n + 1)
        invariant goal == Joined(res, CompileLines(program[it..], depth, vars, n), n)
        decreases |program| - it
      {
        assert program[it..][0] == program[it];
        var s := ReadStatement(program[it], depth, vars);
        if s.None? {
          CompileRejected(program[it..], depth, vars, n);
          return None;
        }
        it := it + 1;
        var m := StatementStep(it, s.value, n);
        if m.None? {
          return None;
        }
        JoinStep(res, m.value, CompileLines(program[it..], depth, vars, n), n);
        res := Multiply(res, m.value, n + 1, n + 1, n + 1);
      }
      assert program[it..] == [];
      WMulIdentityRight(res, n + 1, n + 1);
      r := Some(res);
    }
  }

  lemma IdentityJoin(rest: Option<Mat>, n: nat)
    requires rest.Some? ==> Square(rest.value, n + 1)
    ensures Joined(Identity(n + 1), rest, n) == rest
  {
    if rest.Some? {
      WMulIdentityLeft(rest.value, n + 1, n + 1);
    }
  }

  // ---------------------------------------------------------------------------
  // Run
  // ---------------------------------------------------------------------------

  function WithName(vars: map<string, nat>, t: Token): map<string, nat> {
    if t.Name? && t.name !in vars then vars[t.name := |vars|] else vars
  }

  function LineVars(vars: map<string, nat>, line: TokenLine): map<string, nat>
    decreases |line|
  {
    if line == [] then vars else LineVars(WithName(vars, line[0]), line[1..])
  }

  /** Variables numbered in the order in which their names first occur. */
  function AllVars(vars: map<string, nat>, lines: seq<TokenLine>): map<string, nat>
    decreases |lines|
  {
    if lines == [] then vars else AllVars(LineVars(vars, lines[0]), lines[1..])
  }

  /** The numbers are 0..|vars|, each used once. */
  ghost predicate Numbering(vars: map<string, nat>) {
    && Bounded(vars, |vars|)
    && forall x, y :: x in vars && y in vars && vars[x] == vars[y] ==> x == y
  }

  lemma WithNameNumbering(vars: map<string, nat>, t: Token)
    requires Numbering(vars)
    ensures Numbering(WithName(vars, t))
  {
    if t.Name? && t.name !in vars {
      var next := WithName(vars, t);
      assert next.Keys == vars.Keys + {t.name};
      assert |next| == |next.Keys| == |vars| + 1;
    }
  }

  lemma {:induction false} LineNumbering(vars: map<string, nat>, line: TokenLine)
    requires Numbering(vars)
    ensures Numbering(LineVars(vars, line))
    decreases |line|
  {
    if line != [] {
      WithNameNumbering(vars, line[0]);
      LineNumbering(WithName(vars, line[0]), line[1..]);
    }
  }

  lemma {:induction false} AllNumbering(vars: map<string, nat>, lines: seq<TokenLine>)
    requires Numbering(vars)
    ensures Numbering(AllVars(vars, lines))
    decreases |lines|
  {
    if lines != [] {
      LineNumbering(vars, lines[0]);
      AllNumbering(LineVars(vars, lines[0]), lines[1..]);
    }
  }

  method GatherVars(program: seq<TokenLine>) returns (vars: map<string, nat>)
    ensures vars == AllVars(map[], program) && Numbering(vars)
  {
    vars := map[];
    var i := 0;
    while i < |program|
      invariant 0 <= i <= |program| && AllVars(map[], program) == AllVars(vars, program[i..])
    {
      var line, j := program[i], 0;
      ghost var start := vars;
      while j < |line|
        invariant 0 <= j <= |line| && LineVars(start, line) == LineVars(vars, line[j..])
      {
        assert line[j..][0] == line[j] && line[j..][1..] == line[j + 1..];
        if line[j].Name? && line[j].name !in vars {
          vars := vars[line[j].name := |vars|];
        }
        j := j + 1;
      }
      assert line[j..] == [];
      assert program[i..][0] == line && program[i..][1..] == program[i + 1..];
      i := i + 1;
    }
    assert program[i..] == [];
    AllNumbering(map[], program);
  }

  /** What running the lines step by step from the all-zero state gives, if they form an accepted program. */
  ghost function Meaning(lines: seq<TokenLine>): Option<seq<int>> {
    var vars := AllVars(map[], lines);
    var p := ParseProgram(lines, 0, vars);
    if p.None? || !Accepted(p.value, |vars|) then None
    else Some(Exec(p.value, ZeroState(|vars|)))
  }

  /** Compiling succeeds exactly on accepted programs and its matrix gives their final state. */
  lemma CompileMeaning(lines: seq<TokenLine>)
    ensures var vars := AllVars(map[], lines);
            var m := CompileLines(lines, 0, vars, |vars|);
            && (m.Some? <==> Meaning(lines).Some?)
            && (m.Some? ==> Times(ZeroState(|vars|), m.value, |vars|) == Row(Meaning(lines).value))
            && (m.Some? ==> State(Meaning(lines).value, |vars|))
  {
    var vars := AllVars(map[], lines);
    var n, p := |vars|, ParseProgram(lines, 0, vars);
    AllNumbering(map[], lines);
    if p.Some? {
      ProgramInScope(lines, 0, vars, n);
      CompileDefined(p.value, n);
      if Accepted(p.value, n) {
        assert State(ZeroState(n), n);
        CompileSound(p.value, n, ZeroState(n));
        ExecState(p.value, ZeroState(n), n);
      }
    }
  }

  /** Run on tokenized lines: None where the source throws. */
  method Run(lines: seq<TokenLine>) returns (values: Option<map<string, int>>)
    requires AllEnd(lines)
    ensures values.Some? <==> Meaning(lines).Some?
    ensures values.Some? ==>
              var vars := AllVars(map[], lines);
              && values.value.Keys == vars.Keys
              && forall x :: x in vars ==> values.value[x] == Nth(Meaning(lines).value, vars[x])
  {
    var vars := GatherVars(lines);
    var n := |vars|;
    CompileMeaning(lines);
    var interpreter := new Interpreter(lines, vars, 0);
    var m := interpreter.CalculateTransformMatrix(n);
    if m.None? {
      return None;
    }
    var start := [seq(n, _ => 0) + [1]];
    assert start == Row(ZeroState(n));
    var res := Multiply(start, m.value, 1, n + 1, n + 1);
    ghost var final := Meaning(lines).value;
    assert res[0] == final + [1];
    values := Some(map x | x in vars :: At(res, 0, vars[x]));
  }
}
