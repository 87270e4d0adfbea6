/**
  Loop programs over named variables: how they are written as token lines and what they mean on
  an environment of names. Running the written lines gives that meaning.
*/
module LoopPrinter {
  import opened Common
  import opened WordMatrix
  import opened LoopSyntax
  import opened LinearForm
  import opened LoopProgram
  import opened LoopInterpreter

  datatype Term =
    | Const(value: nat)
    | Use(x: string)
    | Minus(arg: Term)
    | Times(left: Term, right: Term)
    | Plus(left: Term, right: Term)
    | Less(left: Term, right: Term)

  datatype Code =
    | End
    | Change(x: string, op: Op, e: Term, rest: Code)
    | For(count: nat, body: Code, rest: Code)

  // ---------------------------------------------------------------------------
  // Meaning
  // ---------------------------------------------------------------------------

  type Env = map<string, int>

  function Look(env: Env, x: string): int {
    if x in env then env[x] else 0
  }

  function TermValue(t: Term, env: Env): int {
    match t
    case Const(n) => n
    case Use(x) => Look(env, x)
    case Minus(a) => -TermValue(a, env)
    case Times(l, r) => TermValue(l, env) * TermValue(r, env)
    case Plus(l, r) => TermValue(l, env) + TermValue(r, env)
    case Less(l, r) => TermValue(l, env) - TermValue(r, env)
  }

  function RunCode(c: Code, env: Env): Env
    decreases c, 0
  {
    match c
    case End => env
    case Change(x, op, e, rest) => RunCode(rest, env[x := Wrap(Updated(op, Look(env, x), TermValue(e, env)))])
    case For(count, body, rest) => RunCode(rest, Iterate(body, count, env))
  }

  function Iterate(body: Code, k: nat, env: Env): Env
    decreases body, k
  {
    if k == 0 then env else Iterate(body, k - 1, RunCode(body, env))
  }

  // ---------------------------------------------------------------------------
  // Writing
  // ---------------------------------------------------------------------------

  /** An operand: a number, a name, a negated operand, or anything in parentheses. */
  function WriteOperand(t: Term): seq<Token>
    decreases t, 0
  {
    match t
    case Const(n) => [Number(n)]
    case Use(x) => [Name(x)]
    case Minus(a) => [Symbol('-')] + WriteOperand(a)
    case Times(l, r) => [Symbol('(')] + (WriteProduct(l) + ([Symbol('*')] + WriteOperand(r))) + [Symbol(')')]
    case Plus(l, r) => [Symbol('(')] + (WriteSum(l) + ([Symbol('+')] + WriteProduct(r))) + [Symbol(')')]
    case Less(l, r) => [Symbol('(')] + (WriteSum(l) + ([Symbol('-')] + WriteProduct(r))) + [Symbol(')')]
  }

  function WriteProduct(t: Term): seq<Token>
    decreases t, 1
  {
    if t.Times? then WriteProduct(t.left) + ([Symbol('*')] + WriteOperand(t.right)) else WriteOperand(t)
  }

  function WriteSum(t: Term): seq<Token>
    decreases t, 2
  {
    if t.Plus? then WriteSum(t.left) + ([Symbol('+')] + WriteProduct(t.right))
    else if t.Less? then WriteSum(t.left) + ([Symbol('-')] + WriteProduct(t.right))
    else WriteProduct(t)
  }

  /** How an operator is written. */
  function Mark(op: Op): seq<Token> {
    match op
    case Set => [Eqv]
    case PlusEq => [Symbol('+'), Eqv]
    case MinusEq => [Symbol('-'), Eqv]
    case TimesEq => [Symbol('*'), Eqv]
  }

  function Indent(depth: nat): seq<Token> {
    seq(depth, _ => Tab)
  }

  function WriteChange(x: string, op: Op, e: Term, depth: nat): TokenLine {
    Indent(depth) + ([Name(x)] + Mark(op)) + WriteSum(e) + [NewLine]
  }

  function WriteFor(count: nat, depth: nat): TokenLine {
    Indent(depth) + [Token.For, Number(count), NewLine]
  }

  function Write(c: Code, depth: nat): seq<TokenLine> {
    match c
    case End => []
    case Change(x, op, e, rest) => [WriteChange(x, op, e, depth)] + Write(rest, depth)
    case For(count, body, rest) => [WriteFor(count, depth)] + (Write(body, depth + 1) + Write(rest, depth))
  }

  /** Loops have bodies; the language has no way to write one without. */
  predicate Proper(c: Code) {
    match c
    case End => true
    case Change(_, _, _, rest) => Proper(rest)
    case For(_, body, rest) => !body.End? && Proper(body) && Proper(rest)
  }

  // ---------------------------------------------------------------------------
  // Numbered variables
  // ---------------------------------------------------------------------------

  function Index(vars: map<string, nat>, x: string): nat {
    if x in vars then vars[x] else 0
  }

  function NumberTerm(t: Term, vars: map<string, nat>): Expr {
    match t
    case Const(n) => Num(n)
    case Use(x) => Var(Index(vars, x))
    case Minus(a) => Neg(NumberTerm(a, vars))
    case Times(l, r) => Mul(NumberTerm(l, vars), NumberTerm(r, vars))
    case Plus(l, r) => Sum(NumberTerm(l, vars), false, NumberTerm(r, vars))
    case Less(l, r) => Sum(NumberTerm(l, vars), true, NumberTerm(r, vars))
  }

  function NumberCode(c: Code, vars: map<string, nat>): Program {
    match c
    case End => Done
    case Change(x, op, e, rest) => Assign(Index(vars, x), op, NumberTerm(e, vars), NumberCode(rest, vars))
    case For(count, body, rest) => Loop(count, NumberCode(body, vars), NumberCode(rest, vars))
  }

  predicate TermKnown(t: Term, vars: map<string, nat>) {
    match t
    case Const(_) => true
    case Use(x) => x in vars
    case Minus(a) => TermKnown(a, vars)
    case Times(l, r) => TermKnown(l, vars) && TermKnown(r, vars)
    case Plus(l, r) => TermKnown(l, vars) && TermKnown(r, vars)
    case Less(l, r) => TermKnown(l, vars) && TermKnown(r, vars)
  }

  predicate CodeKnown(c: Code, vars: map<string, nat>) {
    match c
    case End => true
    case Change(x, _, e, rest) => x in vars && TermKnown(e, vars) && CodeKnown(rest, vars)
    case For(_, body, rest) => CodeKnown(body, vars) && CodeKnown(rest, vars)
  }

  /** The name with number i. */
  ghost function NameAt(vars: map<string, nat>, i: nat): string {
    if exists x :: x in vars && vars[x] == i then var x :| x in vars && vars[x] == i; x else ""
  }

  ghost function Names(vars: map<string, nat>): seq<string> {
    seq(|vars|, i requires 0 <= i < |vars| => NameAt(vars, i))
  }

  lemma NameOfIndex(vars: map<string, nat>, x: string)
    requires Numbering(vars) && x in vars
    ensures vars[x] < |Names(vars)| && Names(vars)[vars[x]] == x
  {
    assert vars[x] == vars[x];
  }

  // ---------------------------------------------------------------------------
  // Numbering does not change what is written
  // ---------------------------------------------------------------------------

  lemma {:induction false} NumberedPrintable(t: Term, vars: map<string, nat>)
    requires Numbering(vars) && TermKnown(t, vars)
    ensures Printable(NumberTerm(t, vars), Names(vars), vars)
  {
    match t {
      case Const(_) =>
      case Use(x) => NameOfIndex(vars, x);
      case Minus(a) => NumberedPrintable(a, vars);
      case Times(l, r) =>
        NumberedPrintable(l, vars);
        NumberedPrintable(r, vars);
      case Plus(l, r) =>
        NumberedPrintable(l, vars);
        NumberedPrintable(r, vars);
      case Less(l, r) =>
        NumberedPrintable(l, vars);
        NumberedPrintable(r, vars);
    }
  }

  lemma {:induction false} OperandWritten(t: Term, vars: map<string, nat>)
    requires Numbering(vars) && TermKnown(t, vars)
    ensures WriteOperand(t) == PrintConstant(NumberTerm(t, vars), Names(vars))
    decreases t, 0
  {
    match t {
      case Const(_) =>
      case Use(x) => NameOfIndex(vars, x);
      case Minus(a) => OperandWritten(a, vars);
      case Times(l, r) =>
        ProductWritten(l, vars);
        OperandWritten(r, vars);
      case Plus(l, r) =>
        SumWritten(l, vars);
        ProductWritten(r, vars);
      case Less(l, r) =>
        SumWritten(l, vars);
        ProductWritten(r, vars);
    }
  }

  lemma {:induction false} ProductWritten(t: Term, vars: map<string, nat>)
    requires Numbering(vars) && TermKnown(t, vars)
    ensures WriteProduct(t) == PrintMul(NumberTerm(t, vars), Names(vars))
    decreases t, 1
  {
    if t.Times? {
      ProductWritten(t.left, vars);
      OperandWritten(t.right, vars);
    } else {
      OperandWritten(t, vars);
    }
  }

  lemma {:induction false} SumWritten(t: Term, vars: map<string, nat>)
    requires Numbering(vars) && TermKnown(t, vars)
    ensures WriteSum(t) == PrintSum(NumberTerm(t, vars), Names(vars))
    decreases t, 2
  {
    if t.Plus? || t.Less? {
      SumWritten(t.left, vars);
      ProductWritten(t.right, vars);
    } else {
      ProductWritten(t, vars);
    }
  }

  // ---------------------------------------------------------------------------
  // Written lines parse back
  // ---------------------------------------------------------------------------

  lemma {:induction false} TabsIndented(depth: nat, rest: seq<Token>)
    requires rest != [] && rest[0] != Tab
    ensures Tabs(Indent(depth) + rest) == depth
  {
    if depth == 0 {
      assert Indent(0) + rest == rest;
    } else {
      assert (Indent(depth) + rest)[1..] == Indent(depth - 1) + rest;
      TabsIndented(depth - 1, rest);
    }
  }

  /** The tokens of head stand behind the indentation. */
  lemma HeadTokens(depth: nat, head: seq<Token>, tail: seq<Token>, line: TokenLine)
    requires line == Indent(depth) + head + tail
    ensures forall i :: 0 <= i < |head| ==> depth + i < |line| && TokenAt(line, depth + i) == head[i]
  {
    forall i | 0 <= i < |head| ensures depth + i < |line| && TokenAt(line, depth + i) == head[i] {
      assert line[depth + i] == head[i];
    }
  }

  lemma ChangeTokens(x: string, op: Op, e: Term, depth: nat, line: TokenLine)
    requires line == WriteChange(x, op, e, depth)
    ensures Tabs(line) == depth && TokenAt(line, depth) == Name(x) && Ends(line)
    ensures TokenAt(line, depth + 1) == Mark(op)[0] && (op != Set ==> TokenAt(line, depth + 2) == Mark(op)[1])
  {
    var head, tail := [Name(x)] + Mark(op), WriteSum(e) + [NewLine];
    assert line == Indent(depth) + head + tail;
    assert line == Indent(depth) + (head + tail);
    TabsIndented(depth, head + tail);
    HeadTokens(depth, head, tail, line);
    assert head[0] == Name(x) && head[1] == Mark(op)[0] && (op != Set ==> head[2] == Mark(op)[1]);
  }

  lemma ChangeParses(x: string, op: Op, e: Term, depth: nat, vars: map<string, nat>, line: TokenLine)
    requires Numbering(vars) && x in vars && TermKnown(e, vars) && line == WriteChange(x, op, e, depth)
    ensures Tabs(line) == depth && ParseLine(line, depth, vars) == Some(SetLine(vars[x], op, NumberTerm(e, vars)))
  {
    var prefix := Indent(depth) + ([Name(x)] + Mark(op));
    ChangeTokens(x, op, e, depth, line);
    SumWritten(e, vars);
    NumberedPrintable(e, vars);
    ParsePrinted(NumberTerm(e, vars), Names(vars), vars, prefix);
    assert line == prefix + WriteSum(e) + [NewLine];
    assert |prefix| == depth + 1 + |Mark(op)|;
  }

  lemma ForParses(count: nat, depth: nat, vars: map<string, nat>, line: TokenLine)
    requires line == WriteFor(count, depth)
    ensures Tabs(line) == depth && ParseLine(line, depth, vars) == Some(ForLine(count))
  {
    TabsIndented(depth, [Token.For, Number(count), NewLine]);
    assert line[depth] == Token.For && line[depth + 1] == Number(count) && line[depth + 2] == NewLine;
  }

  /** Every written line is indented at least this deep, and the first one exactly. */
  lemma {:induction false} WrittenDepth(c: Code, depth: nat)
    ensures forall i :: 0 <= i < |Write(c, depth)| ==> Tabs(Write(c, depth)[i]) >= depth
    ensures !c.End? ==> |Write(c, depth)| > 0 && Tabs(Write(c, depth)[0]) == depth
  {
    match c {
      case End =>
      case Change(x, op, e, rest) =>
        ChangeTokens(x, op, e, depth, WriteChange(x, op, e, depth));
        WrittenDepth(rest, depth);
      case For(count, body, rest) =>
        TabsIndented(depth, [Token.For, Number(count), NewLine]);
        WrittenDepth(body, depth + 1);
        WrittenDepth(rest, depth);
    }
  }

  lemma {:induction false} BodyLengthIs(body: seq<TokenLine>, rest: seq<TokenLine>, depth: nat)
    requires forall i :: 0 <= i < |body| ==> Tabs(body[i]) > depth
    requires rest != [] ==> Tabs(rest[0]) <= depth
    ensures BodyLength(body + rest, depth) == |body|
    ensures (body + rest)[..|body|] == body && (body + rest)[|body|..] == rest
  {
    if body == [] {
      assert body + rest == rest;
    } else {
      assert (body + rest)[1..] == body[1..] + rest;
      BodyLengthIs(body[1..], rest, depth);
    }
  }

  lemma ProgramFirst(line: TokenLine, rest: seq<TokenLine>)
    ensures ([line] + rest)[0] == line && ([line] + rest)[1..] == rest
  {
  }

  lemma LoopWritten(count: nat, depth: nat, b: seq<TokenLine>, r: seq<TokenLine>, vars: map<string, nat>)
    requires b != [] && (forall i :: 0 <= i < |b| ==> Tabs(b[i]) > depth) && (r != [] ==> Tabs(r[0]) <= depth)
    requires ParseProgram(b, depth + 1, vars).Some? && ParseProgram(r, depth, vars).Some?
    ensures ParseProgram([WriteFor(count, depth)] + (b + r), depth, vars)
            == Some(Loop(count, ParseProgram(b, depth + 1, vars).value, ParseProgram(r, depth, vars).value))
  {
    ForParses(count, depth, vars, WriteFor(count, depth));
    ProgramFirst(WriteFor(count, depth), b + r);
    BodyLengthIs(b, r, depth);
  }

  /** Every program with loop bodies, written out, parses back to itself. */
  lemma {:induction false} ParseWritten(c: Code, depth: nat, vars: map<string, nat>)
    requires Numbering(vars) && CodeKnown(c, vars) && Proper(c)
    ensures ParseProgram(Write(c, depth), depth, vars) == Some(NumberCode(c, vars))
  {
    match c {
      case End =>
      case Change(x, op, e, rest) =>
        var line := WriteChange(x, op, e, depth);
        ChangeParses(x, op, e, depth, vars, line);
        ProgramFirst(line, Write(rest, depth));
        ParseWritten(rest, depth, vars);
      case For(count, body, rest) =>
        WrittenDepth(body, depth + 1);
        WrittenDepth(rest, depth);
        ParseWritten(body, depth + 1, vars);
        ParseWritten(rest, depth, vars);
        LoopWritten(count, depth, Write(body, depth + 1), Write(rest, depth), vars);
    }
  }

  // ---------------------------------------------------------------------------
  // Numbered states and environments
  // ---------------------------------------------------------------------------

  ghost predicate Agree(env: Env, st: seq<int>, vars: map<string, nat>) {
    |st| == |vars| && forall x :: x in vars ==> vars[x] < |st| && Look(env, x) == st[vars[x]]
  }

  lemma {:induction false} ValueNumbered(t: Term, env: Env, st: seq<int>, vars: map<string, nat>)
    requires Agree(env, st, vars) && TermKnown(t, vars)
    ensures Value(NumberTerm(t, vars), st) == TermValue(t, env)
  {
    match t {
      case Const(_) =>
      case Use(x) =>
      case Minus(a) => ValueNumbered(a, env, st, vars);
      case Times(l, r) =>
        ValueNumbered(l, env, st, vars);
        ValueNumbered(r, env, st, vars);
      case Plus(l, r) =>
        ValueNumbered(l, env, st, vars);
        ValueNumbered(r, env, st, vars);
      case Less(l, r) =>
        ValueNumbered(l, env, st, vars);
        ValueNumbered(r, env, st, vars);
    }
  }

  lemma StoreAgrees(env: Env, st: seq<int>, vars: map<string, nat>, x: string, op: Op, value: int)
    requires Numbering(vars) && Agree(env, st, vars) && x in vars
    ensures Agree(env[x := Wrap(Updated(op, Look(env, x), value))], Store(st, vars[x], op, value), vars)
  {
  }

  lemma {:induction false} ExecNumbered(c: Code, env: Env, st: seq<int>, vars: map<string, nat>)
    requires Numbering(vars) && Agree(env, st, vars) && CodeKnown(c, vars)
    ensures Agree(RunCode(c, env), Exec(NumberCode(c, vars), st), vars)
    decreases c, 0
  {
    match c {
      case End =>
      case Change(x, op, e, rest) =>
        var value := TermValue(e, env);
        ValueNumbered(e, env, st, vars);
        StoreAgrees(env, st, vars, x, op, value);
        ExecNumbered(rest, env[x := Wrap(Updated(op, Look(env, x), value))], Store(st, vars[x], op, value), vars);
      case For(count, body, rest) =>
        RepeatNumbered(body, count, env, st, vars);
        ExecNumbered(rest, Iterate(body, count, env), Repeat(NumberCode(body, vars), count, st), vars);
    }
  }

  lemma {:induction false} RepeatNumbered(body: Code, k: nat, env: Env, st: seq<int>, vars: map<string, nat>)
    requires Numbering(vars) && Agree(env, st, vars) && CodeKnown(body, vars)
    ensures Agree(Iterate(body, k, env), Repeat(NumberCode(body, vars), k, st), vars)
    decreases body, k
  {
    if k > 0 {
      ExecNumbered(body, env, st, vars);
      RepeatNumbered(body, k - 1, RunCode(body, env), Exec(NumberCode(body, vars), st), vars);
    }
  }

  // ---------------------------------------------------------------------------
  // The variables of the written lines
  // ---------------------------------------------------------------------------

  ghost predicate NamesIn(s: seq<Token>, vars: map<string, nat>) {
    forall i :: 0 <= i < |s| && s[i].Name? ==> s[i].name in vars
  }

  lemma NamesSplit(a: seq<Token>, b: seq<Token>, vars: map<string, nat>)
    requires NamesIn(a + b, vars)
    ensures NamesIn(a, vars) && NamesIn(b, vars)
  {
    forall i | 0 <= i < |a| && a[i].Name? ensures a[i].name in vars {
      assert (a + b)[i] == a[i];
    }
    forall i | 0 <= i < |b| && b[i].Name? ensures b[i].name in vars {
      assert (a + b)[|a| + i] == b[i];
    }
  }

  lemma NamesInfix(a: seq<Token>, c: Token, b: seq<Token>, vars: map<string, nat>)
    requires NamesIn(a + ([c] + b), vars)
    ensures NamesIn(a, vars) && NamesIn(b, vars)
  {
    NamesSplit(a, [c] + b, vars);
    NamesSplit([c], b, vars);
  }

  lemma NamesEnclosed(a: seq<Token>, vars: map<string, nat>)
    requires NamesIn([Symbol('(')] + a + [Symbol(')')], vars)
    ensures NamesIn(a, vars)
  {
    NamesSplit([Symbol('(')] + a, [Symbol(')')], vars);
    NamesSplit([Symbol('(')], a, vars);
  }

  lemma {:induction false} OperandKnown(t: Term, vars: map<string, nat>)
    requires NamesIn(WriteOperand(t), vars)
    ensures TermKnown(t, vars)
    decreases t, 0
  {
    match t {
      case Const(_) =>
      case Use(x) => assert [Name(x)][0] == Name(x);
      case Minus(a) =>
        NamesSplit([Symbol('-')], WriteOperand(a), vars);
        OperandKnown(a, vars);
      case Times(l, r) =>
        NamesEnclosed(WriteProduct(l) + ([Symbol('*')] + WriteOperand(r)), vars);
        NamesInfix(WriteProduct(l), Symbol('*'), WriteOperand(r), vars);
        ProductKnown(l, vars);
        OperandKnown(r, vars);
      case Plus(l, r) =>
        NamesEnclosed(WriteSum(l) + ([Symbol('+')] + WriteProduct(r)), vars);
        NamesInfix(WriteSum(l), Symbol('+'), WriteProduct(r), vars);
        SumKnown(l, vars);
        ProductKnown(r, vars);
      case Less(l, r) =>
        NamesEnclosed(WriteSum(l) + ([Symbol('-')] + WriteProduct(r)), vars);
        NamesInfix(WriteSum(l), Symbol('-'), WriteProduct(r), vars);
        SumKnown(l, vars);
        ProductKnown(r, vars);
    }
  }

  lemma {:induction false} ProductKnown(t: Term, vars: map<string, nat>)
    requires NamesIn(WriteProduct(t), vars)
    ensures TermKnown(t, vars)
    decreases t, 1
  {
    if t.Times? {
      NamesInfix(WriteProduct(t.left), Symbol('*'), WriteOperand(t.right), vars);
      ProductKnown(t.left, vars);
      OperandKnown(t.right, vars);
    } else {
      OperandKnown(t, vars);
    }
  }

  lemma {:induction false} SumKnown(t: Term, vars: map<string, nat>)
    requires NamesIn(WriteSum(t), vars)
    ensures TermKnown(t, vars)
    decreases t, 2
  {
    if t.Plus? || t.Less? {
      NamesInfix(WriteSum(t.left), Symbol(if t.Plus? then '+' else '-'), WriteProduct(t.right), vars);
      SumKnown(t.left, vars);
      ProductKnown(t.right, vars);
    } else {
      ProductKnown(t, vars);
    }
  }

  ghost predicate LinesIn(lines: seq<TokenLine>, vars: map<string, nat>) {
    forall i :: 0 <= i < |lines| ==> NamesIn(lines[i], vars)
  }

  lemma LinesSplit(a: seq<TokenLine>, b: seq<TokenLine>, vars: map<string, nat>)
    requires LinesIn(a + b, vars)
    ensures LinesIn(a, vars) && LinesIn(b, vars)
  {
    forall i | 0 <= i < |a| ensures NamesIn(a[i], vars) {
      assert (a + b)[i] == a[i];
    }
    forall i | 0 <= i < |b| ensures NamesIn(b[i], vars) {
      assert (a + b)[|a| + i] == b[i];
    }
  }

  lemma ChangeKnown(x: string, op: Op, e: Term, depth: nat, vars: map<string, nat>)
    requires NamesIn(WriteChange(x, op, e, depth), vars)
    ensures x in vars && TermKnown(e, vars)
  {
    var head := [Name(x)] + Mark(op);
    NamesSplit(Indent(depth) + head + WriteSum(e), [NewLine], vars);
    NamesSplit(Indent(depth) + head, WriteSum(e), vars);
    NamesSplit(Indent(depth), head, vars);
    assert head[0] == Name(x);
    SumKnown(e, vars);
  }

  lemma {:induction false} CodeIsKnown(c: Code, depth: nat, vars: map<string, nat>)
    requires LinesIn(Write(c, depth), vars)
    ensures CodeKnown(c, vars)
  {
    match c {
      case End =>
      case Change(x, op, e, rest) =>
        LinesSplit([WriteChange(x, op, e, depth)], Write(rest, depth), vars);
        assert [WriteChange(x, op, e, depth)][0] == WriteChange(x, op, e, depth);
        ChangeKnown(x, op, e, depth, vars);
        CodeIsKnown(rest, depth, vars);
      case For(count, body, rest) =>
        LinesSplit([WriteFor(count, depth)], Write(body, depth + 1) + Write(rest, depth), vars);
        LinesSplit(Write(body, depth + 1), Write(rest, depth), vars);
        CodeIsKnown(body, depth + 1, vars);
        CodeIsKnown(rest, depth, vars);
    }
  }

  lemma {:induction false} LineVarsKnow(vars: map<string, nat>, line: TokenLine)
    ensures vars.Keys <= LineVars(vars, line).Keys && NamesIn(line, LineVars(vars, line))
    decreases |line|
  {
    if line != [] {
      var next := WithName(vars, line[0]);
      LineVarsKnow(next, line[1..]);
      forall i | 0 <= i < |line| && line[i].Name? ensures line[i].name in LineVars(vars, line) {
        if i > 0 {
          assert line[1..][i - 1] == line[i];
        } else {
          assert line[0].name in next.Keys;
        }
      }
    }
  }

  lemma {:induction false} AllVarsKnow(vars: map<string, nat>, lines: seq<TokenLine>)
    ensures vars.Keys <= AllVars(vars, lines).Keys && LinesIn(lines, AllVars(vars, lines))
    decreases |lines|
  {
    if lines != [] {
      var next := LineVars(vars, lines[0]);
      LineVarsKnow(vars, lines[0]);
      AllVarsKnow(next, lines[1..]);
      forall i | 0 <= i < |lines| ensures NamesIn(lines[i], AllVars(vars, lines)) {
        if i > 0 {
          assert lines[1..][i - 1] == lines[i];
        } else {
          forall j | 0 <= j < |lines[0]| && lines[0][j].Name? ensures lines[0][j].name in AllVars(vars, lines) {
            assert lines[0][j].name in next.Keys;
          }
        }
      }
    }
  }

  lemma {:induction false} WrittenEnds(c: Code, depth: nat)
    ensures AllEnd(Write(c, depth))
  {
    match c {
      case End =>
      case Change(x, op, e, rest) => WrittenEnds(rest, depth);
      case For(count, body, rest) =>
        WrittenEnds(body, depth + 1);
        WrittenEnds(rest, depth);
    }
  }

  // ---------------------------------------------------------------------------
  // Main results
  // ---------------------------------------------------------------------------

  /**
    For every program with loop bodies: its written lines run exactly if it is linear, and then
    every variable has the value that executing the program on names gives.
  */
  lemma RunWritten(c: Code)
    requires Proper(c)
    ensures var lines := Write(c, 0);
            var vars := AllVars(map[], lines);
            && AllEnd(lines) && CodeKnown(c, vars)
            && (Meaning(lines).Some? <==> Accepted(NumberCode(c, vars), |vars|))
            && (Meaning(lines).Some? ==>
                  forall x :: x in vars ==> Nth(Meaning(lines).value, vars[x]) == Look(RunCode(c, map[]), x))
  {
    var lines := Write(c, 0);
    var vars := AllVars(map[], lines);
    WrittenEnds(c, 0);
    AllNumbering(map[], lines);
    AllVarsKnow(map[], lines);
    CodeIsKnown(c, 0, vars);
    ParseWritten(c, 0, vars);
    assert Agree(map[], ZeroState(|vars|), vars);
    ExecNumbered(c, map[], ZeroState(|vars|), vars);
  }

  /** What each of the four assignments does, with the modulus written out. */
  lemma AssignmentsMean(x: string, e: Term, env: Env)
    ensures RunCode(Change(x, Set, e, End), env) == env[x := TermValue(e, env) % 0x1_0000_0000_0000_0000]
    ensures RunCode(Change(x, PlusEq, e, End), env) == env[x := (Look(env, x) + TermValue(e, env)) % 0x1_0000_0000_0000_0000]
    ensures RunCode(Change(x, MinusEq, e, End), env) == env[x := (Look(env, x) - TermValue(e, env)) % 0x1_0000_0000_0000_0000]
    ensures RunCode(Change(x, TimesEq, e, End), env) == env[x := (Look(env, x) * TermValue(e, env)) % 0x1_0000_0000_0000_0000]
  {
  }

  /** The tokens of an assignment that is not indented. */
  lemma AssignmentTokens(x: string, op: Op, e: Term)
    ensures WriteChange(x, op, e, 0) == [Name(x)] + Mark(op) + WriteSum(e) + [NewLine]
  {
    assert Indent(0) + ([Name(x)] + Mark(op)) == [Name(x)] + Mark(op);
  }

  /** A loop around `x += n` adds n as often as it says. */
  lemma {:induction false} LoopAdds(x: string, n: nat, k: nat, env: Env)
    ensures Look(Iterate(Change(x, PlusEq, Const(n), End), k, env), x) % 0x1_0000_0000_0000_0000
            == (Look(env, x) + k * n) % 0x1_0000_0000_0000_0000
    decreases k
  {
    if k > 0 {
      var v := Look(env, x) + n;
      var once := env[x := Wrap(v)];
      assert RunCode(Change(x, PlusEq, Const(n), End), env) == once;
      LoopAdds(x, n, k - 1, once);
      WrapAdd(Wrap(v), (k - 1) * n, v, (k - 1) * n);
      OneMore(Look(env, x), n, k);
    }
  }

  lemma OneMore(v: int, n: int, k: int)
    ensures v + n + (k - 1) * n == v + k * n
  {
    assert (k - 1) * n == k * n - n;
  }

  /** The lines run and leave v in x. */
  ghost predicate OneResult(lines: seq<TokenLine>, x: string, v: int) {
    var vars := AllVars(map[], lines);
    x in vars && Meaning(lines).Some? && Nth(Meaning(lines).value, vars[x]) == v
  }

  lemma ConstWritten(n: nat)
    ensures WriteSum(Const(n)) == [Number(n)]
  {
    assert WriteProduct(Const(n)) == WriteOperand(Const(n)) == [Number(n)];
  }

  lemma ConstAccepted(x: nat, op: Op, n: nat, rest: Program, size: nat)
    requires Accepted(rest, size)
    ensures Accepted(Assign(x, op, Num(n), rest), size)
  {
    forall st, st' | State(st, size) && State(st', size) ensures Wrap(Value(Num(n), st)) == Wrap(Value(Num(n), st')) {
      assert Value(Num(n), st) == n == Value(Num(n), st');
    }
  }

  lemma OneChange(x: string, n: nat, op: Op, line: TokenLine)
    requires line == [Name(x)] + Mark(op) + [Number(n)] + [NewLine]
    ensures OneResult([line], x, Look(RunCode(Change(x, op, Const(n), End), map[]), x))
  {
    var c := Change(x, op, Const(n), End);
    AssignmentTokens(x, op, Const(n));
    ConstWritten(n);
    assert Write(End, 0) == [] && Write(c, 0) == [line];
    RunWritten(c);
    var vars := AllVars(map[], [line]);
    assert NumberCode(End, vars) == Done && NumberTerm(Const(n), vars) == Num(n);
    ConstAccepted(Index(vars, x), op, n, Done, |vars|);
  }

  /** The one-line program `x = n`. */
  lemma SetLineRuns(x: string, n: nat)
    ensures OneResult([[Name(x), Eqv, Number(n), NewLine]], x, n % 0x1_0000_0000_0000_0000)
  {
    OneChange(x, n, Set, [Name(x), Eqv, Number(n), NewLine]);
    AssignmentsMean(x, Const(n), map[]);
  }

  /** The one-line program `x += n`. */
  lemma PlusLineRuns(x: string, n: nat)
    ensures OneResult([[Name(x), Symbol('+'), Eqv, Number(n), NewLine]], x, n % 0x1_0000_0000_0000_0000)
  {
    OneChange(x, n, PlusEq, [Name(x), Symbol('+'), Eqv, Number(n), NewLine]);
    AssignmentsMean(x, Const(n), map[]);
  }

  /** The one-line program `x -= n`. */
  lemma MinusLineRuns(x: string, n: int)
    requires n >= 0
    ensures OneResult([[Name(x), Symbol('-'), Eqv, Number(n), NewLine]], x, (0 - n) % 0x1_0000_0000_0000_0000)
  {
    OneChange(x, n, MinusEq, [Name(x), Symbol('-'), Eqv, Number(n), NewLine]);
    AssignmentsMean(x, Const(n), map[]);
  }

  lemma TimesLine(x: string, m: nat, n: nat, lines: seq<TokenLine>)
    requires lines == [[Name(x), Eqv, Number(m), NewLine], [Name(x), Symbol('*'), Eqv, Number(n), NewLine]]
    ensures Write(Change(x, Set, Const(m), Change(x, TimesEq, Const(n), End)), 0) == lines
  {
    AssignmentTokens(x, Set, Const(m));
    AssignmentTokens(x, TimesEq, Const(n));
    ConstWritten(m);
    ConstWritten(n);
    assert [Name(x)] + Mark(TimesEq) + [Number(n)] + [NewLine] == lines[1];
    assert [Name(x)] + Mark(Set) + [Number(m)] + [NewLine] == lines[0];
    assert Write(End, 0) == [] && Write(Change(x, TimesEq, Const(n), End), 0) == [lines[1]];
  }

  /** The program `x = m`, `x *= n`. */
  lemma TimesLineRuns(x: string, m: nat, n: nat)
    ensures OneResult([[Name(x), Eqv, Number(m), NewLine], [Name(x), Symbol('*'), Eqv, Number(n), NewLine]], x,
                      (m % 0x1_0000_0000_0000_0000) * n % 0x1_0000_0000_0000_0000)
  {
    var lines := [[Name(x), Eqv, Number(m), NewLine], [Name(x), Symbol('*'), Eqv, Number(n), NewLine]];
    var c := Change(x, Set, Const(m), Change(x, TimesEq, Const(n), End));
    TimesLine(x, m, n, lines);
    RunWritten(c);
    var vars := AllVars(map[], lines);
    assert NumberCode(End, vars) == Done && NumberTerm(Const(n), vars) == Num(n) && NumberTerm(Const(m), vars) == Num(m);
    ConstAccepted(Index(vars, x), TimesEq, n, Done, |vars|);
    ConstAccepted(Index(vars, x), Set, m, NumberCode(c.rest, vars), |vars|);
    AssignmentsMean(x, Const(m), map[]);
    AssignmentsMean(x, Const(n), map[x := m % 0x1_0000_0000_0000_0000]);
  }

  // ---------------------------------------------------------------------------
  // Exactly which lines form a program
  // ---------------------------------------------------------------------------

  /** The operator stands at this position. */
  ghost predicate Marked(line: TokenLine, pos: nat, op: Op) {
    TokenAt(line, pos) == Mark(op)[0] && (op != Set ==> TokenAt(line, pos + 1) == Mark(op)[1])
  }

  /** A name, an operator, an expression and the end of the line. */
  ghost predicate IsChange(line: TokenLine, pos: nat, vars: map<string, nat>, x: string, op: Op, e: Expr, end: nat) {
    && TokenAt(line, pos) == Name(x) && x in vars && Marked(line, pos + 1, op)
    && ParseSum(line, pos + 1 + |Mark(op)|, vars) == Some(Parsed(e, end)) && TokenAt(line, end) == NewLine
  }

  /** Exactly which lines are assignments, loops and blank; any other line is rejected. */
  lemma LineExact(line: TokenLine, pos: nat, vars: map<string, nat>, s: Statement)
    ensures ParseLine(line, pos, vars) == Some(s) <==>
            match s
            case SetLine(i, op, e) => exists x, end :: IsChange(line, pos, vars, x, op, e, end) && vars[x] == i
            case ForLine(count) =>
              TokenAt(line, pos) == Token.For && TokenAt(line, pos + 1) == Number(count) && TokenAt(line, pos + 2) == NewLine
            case Blank => TokenAt(line, pos) == NewLine
  {
    if ParseLine(line, pos, vars) == Some(s) && s.SetLine? {
      var x := TokenAt(line, pos).name;
      var r := ParseSum(line, pos + 1 + |Mark(s.op)|, vars).value;
      assert IsChange(line, pos, vars, x, s.op, s.e, r.pos);
    }
    if s.SetLine? {
      if x, end :| IsChange(line, pos, vars, x, s.op, s.e, end) && vars[x] == s.x {
        ChangeRead(line, pos, vars, x, s.op, s.e, end);
      }
    }
  }

  lemma ChangeRead(line: TokenLine, pos: nat, vars: map<string, nat>, x: string, op: Op, e: Expr, end: nat)
    requires IsChange(line, pos, vars, x, op, e, end)
    ensures ParseLine(line, pos, vars) == Some(SetLine(vars[x], op, e))
  {
  }

  /** The line is a loop head, at whatever depth it stands. */
  predicate Opens(line: TokenLine, vars: map<string, nat>) {
    var s := ParseLine(line, Tabs(line), vars);
    s.Some? && s.value.ForLine?
  }

  /** What may follow the line at i: behind a loop head one level deeper, else no deeper. */
  predicate FollowOk(lines: seq<TokenLine>, i: nat, vars: map<string, nat>)
    requires i < |lines|
  {
    if Opens(lines[i], vars) then i + 1 < |lines| && Tabs(lines[i + 1]) == Tabs(lines[i]) + 1
    else i + 1 < |lines| ==> Tabs(lines[i + 1]) <= Tabs(lines[i])
  }

  predicate LineOk(lines: seq<TokenLine>, i: nat, depth: nat, vars: map<string, nat>)
    requires i < |lines|
  {
    Tabs(lines[i]) >= depth && ParseLine(lines[i], Tabs(lines[i]), vars).Some? && FollowOk(lines, i, vars)
  }

  /** Every line is a statement where it stands, and indentation follows the loops. */
  ghost predicate Layout(lines: seq<TokenLine>, depth: nat, vars: map<string, nat>) {
    && (lines != [] ==> Tabs(lines[0]) == depth)
    && forall i :: 0 <= i < |lines| ==> LineOk(lines, i, depth, vars)
  }

  lemma LayoutTail(lines: seq<TokenLine>, depth: nat, vars: map<string, nat>)
    requires Layout(lines, depth, vars) && lines != [] && !Opens(lines[0], vars)
    ensures Layout(lines[1..], depth, vars)
  {
    assert LineOk(lines, 0, depth, vars);
    forall i | 0 <= i < |lines| - 1 ensures LineOk(lines[1..], i, depth, vars) {
      assert LineOk(lines, i + 1, depth, vars);
    }
    if |lines| > 1 {
      assert LineOk(lines, 1, depth, vars);
    }
  }

  lemma LayoutCons(lines: seq<TokenLine>, depth: nat, vars: map<string, nat>)
    requires lines != [] && Tabs(lines[0]) == depth && ParseLine(lines[0], depth, vars).Some? && !Opens(lines[0], vars)
    requires Layout(lines[1..], depth, vars)
    ensures Layout(lines, depth, vars)
  {
    forall i | 0 <= i < |lines| ensures LineOk(lines, i, depth, vars) {
      if i > 0 {
        assert LineOk(lines[1..], i - 1, depth, vars);
      }
    }
  }

  /** The lines of a loop's body are all deeper, and the first line behind it is not. */
  lemma {:induction false} BodyLengthFacts(lines: seq<TokenLine>, depth: nat, k: nat)
    requires k == BodyLength(lines, depth)
    ensures forall i :: 0 <= i < k ==> Tabs(lines[i]) > depth
    ensures k < |lines| ==> Tabs(lines[k]) <= depth
  {
    if k > 0 {
      BodyLengthFacts(lines[1..], depth, k - 1);
    }
  }

  lemma BodyLayout(lines: seq<TokenLine>, depth: nat, vars: map<string, nat>, k: nat)
    requires Layout(lines, depth, vars) && lines != [] && Opens(lines[0], vars) && k == BodyLength(lines[1..], depth)
    ensures k > 0 && Layout(lines[1..][..k], depth + 1, vars)
  {
    var rest := lines[1..];
    assert LineOk(lines, 0, depth, vars);
    BodyLengthFacts(rest, depth, k);
    assert lines[1] == rest[0];
    var body, inner := rest[..k], depth + 1;
    forall i | 0 <= i < k ensures LineOk(body, i, inner, vars) {
      assert LineOk(lines, i + 1, depth, vars);
      assert rest[i] == lines[i + 1] && (i + 1 < |rest| ==> rest[i + 1] == lines[i + 2]);
    }
  }

  lemma RestLayout(lines: seq<TokenLine>, depth: nat, vars: map<string, nat>, k: nat)
    requires Layout(lines, depth, vars) && lines != [] && k == BodyLength(lines[1..], depth)
    ensures Layout(lines[1..][k..], depth, vars)
  {
    var rest := lines[1..];
    BodyLengthFacts(rest, depth, k);
    forall i | 0 <= i < |rest| - k ensures LineOk(rest[k..], i, depth, vars) {
      assert LineOk(lines, k + i + 1, depth, vars);
      assert rest[k..][i] == lines[k + i + 1];
    }
    if k < |rest| {
      assert LineOk(lines, k + 1, depth, vars);
      assert rest[k] == lines[k + 1];
    }
  }

  lemma LoopLayout(lines: seq<TokenLine>, depth: nat, vars: map<string, nat>, k: nat)
    requires lines != [] && Tabs(lines[0]) == depth && Opens(lines[0], vars) && k == BodyLength(lines[1..], depth) && k > 0
    requires Layout(lines[1..][..k], depth + 1, vars) && Layout(lines[1..][k..], depth, vars)
    ensures Layout(lines, depth, vars)
  {
    var body, rest := lines[1..][..k], lines[1..][k..];
    assert body[0] == lines[1];
    forall i | 0 <= i < |lines| ensures LineOk(lines, i, depth, vars) {
      if 0 < i <= k {
        assert LineOk(body, i - 1, depth + 1, vars) && body[i - 1] == lines[i];
        if i < k {
          assert body[i] == lines[i + 1];
        } else if i + 1 < |lines| {
          assert rest[0] == lines[i + 1];
        }
      } else if i > k {
        assert LineOk(rest, i - k - 1, depth, vars) && rest[i - k - 1] == lines[i];
      }
    }
  }

  lemma {:induction false} ParsedLayout(lines: seq<TokenLine>, depth: nat, vars: map<string, nat>)
    requires ParseProgram(lines, depth, vars).Some?
    ensures Layout(lines, depth, vars)
    decreases |lines|
  {
    if lines != [] {
      if Opens(lines[0], vars) {
        var k := BodyLength(lines[1..], depth);
        ParsedLayout(lines[1..][..k], depth + 1, vars);
        ParsedLayout(lines[1..][k..], depth, vars);
        LoopLayout(lines, depth, vars, k);
      } else {
        ParsedLayout(lines[1..], depth, vars);
        LayoutCons(lines, depth, vars);
      }
    }
  }

  lemma {:induction false} LayoutParses(lines: seq<TokenLine>, depth: nat, vars: map<string, nat>)
    requires Layout(lines, depth, vars)
    ensures ParseProgram(lines, depth, vars).Some?
    decreases |lines|
  {
    if lines != [] {
      assert LineOk(lines, 0, depth, vars);
      if Opens(lines[0], vars) {
        var k := BodyLength(lines[1..], depth);
        BodyLayout(lines, depth, vars, k);
        RestLayout(lines, depth, vars, k);
        LayoutParses(lines[1..][..k], depth + 1, vars);
        LayoutParses(lines[1..][k..], depth, vars);
      } else {
        LayoutTail(lines, depth, vars);
        LayoutParses(lines[1..], depth, vars);
      }
    }
  }

  /** Lines form a program exactly when each is a statement and the indentation follows the loops. */
  lemma ProgramExact(lines: seq<TokenLine>, depth: nat, vars: map<string, nat>)
    ensures ParseProgram(lines, depth, vars).Some? <==> Layout(lines, depth, vars)
  {
    if ParseProgram(lines, depth, vars).Some? {
      ParsedLayout(lines, depth, vars);
    }
    if Layout(lines, depth, vars) {
      LayoutParses(lines, depth, vars);
    }
  }
}
