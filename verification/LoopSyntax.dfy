/**
  Tokens, the line cursor and the recursive-descent expression parser of the loop language.

  A line always ends in NewLine, which no parser consumes, so the cursor stays inside it.
*/
module LoopSyntax {
  import opened Common

  /** A token; kEnd never reaches a line. */
  datatype Token =
    | Number(value: nat)
    | Symbol(symbol: char)
    | Name(name: string)
    | For
    | Eqv
    | Tab
    | BadToken
    | NewLine

  type TokenLine = seq<Token>

  ghost predicate Ends(line: TokenLine) {
    line != [] && line[|line| - 1] == NewLine
  }

  /** The number of tabs in front of a line. */
  function Tabs(line: TokenLine): (k: nat)
    ensures k <= |line| && (Ends(line) ==> k < |line|)
  {
    if line != [] && line[0] == Tab then 1 + Tabs(line[1..]) else 0
  }

  /** The token at pos; past the end a line reads as ended. */
  function TokenAt(line: TokenLine, pos: nat): Token {
    if pos < |line| then line[pos] else NewLine
  }

  function Left(line: TokenLine, pos: nat): nat {
    if pos < |line| then |line| - pos else 0
  }

  /** Expressions; Missing is what the parser makes of an absent operand. */
  datatype Expr =
    | Num(value: nat)
    | Var(index: nat)
    | Missing
    | Neg(arg: Expr)
    | Mul(left: Expr, right: Expr)
    | Sum(left: Expr, minus: bool, right: Expr)

  datatype Parsed = Parsed(expr: Expr, pos: nat)

  // ---------------------------------------------------------------------------
  // The grammar as functions on positions
  // ---------------------------------------------------------------------------

  function ParseConstant(line: TokenLine, pos: nat, vars: map<string, nat>): (r: Option<Parsed>)
    ensures r.Some? ==> pos <= r.value.pos && (pos < |line| && Ends(line) ==> r.value.pos < |line|)
    decreases Left(line, pos), 0
  {
    match TokenAt(line, pos)
    case Number(n) => Some(Parsed(Num(n), pos + 1))
    case Name(x) => if x in vars then Some(Parsed(Var(vars[x]), pos + 1)) else None
    case Symbol(c) =>
      if c == '-' then
        var r := ParseConstant(line, pos + 1, vars);
        if r.None? then None else Some(Parsed(Neg(r.value.expr), r.value.pos))
      else if c == '(' then
        var r := ParseSum(line, pos + 1, vars);
        if r.None? || TokenAt(line, r.value.pos) != Symbol(')') then None
        else Some(Parsed(r.value.expr, r.value.pos + 1))
      else Some(Parsed(Missing, pos))
    case _ => Some(Parsed(Missing, pos))
  }

  function ParseMul(line: TokenLine, pos: nat, vars: map<string, nat>): (r: Option<Parsed>)
    ensures r.Some? ==> pos <= r.value.pos && (pos < |line| && Ends(line) ==> r.value.pos < |line|)
    decreases Left(line, pos), 2
  {
    var r := ParseConstant(line, pos, vars);
    if r.None? then None else MulRest(line, r.value, vars)
  }

  function MulRest(line: TokenLine, acc: Parsed, vars: map<string, nat>): (r: Option<Parsed>)
    ensures r.Some? ==> acc.pos <= r.value.pos && (acc.pos < |line| && Ends(line) ==> r.value.pos < |line|)
    decreases Left(line, acc.pos), 1
  {
    if TokenAt(line, acc.pos) != Symbol('*') then Some(acc)
    else
      var r := ParseConstant(line, acc.pos + 1, vars);
      if r.None? then None else MulRest(line, Parsed(Mul(acc.expr, r.value.expr), r.value.pos), vars)
  }

  function ParseSum(line: TokenLine, pos: nat, vars: map<string, nat>): (r: Option<Parsed>)
    ensures r.Some? ==> pos <= r.value.pos && (pos < |line| && Ends(line) ==> r.value.pos < |line|)
    decreases Left(line, pos), 4
  {
    var r := ParseMul(line, pos, vars);
    if r.None? then None else SumRest(line, r.value, vars)
  }

  function SumRest(line: TokenLine, acc: Parsed, vars: map<string, nat>): (r: Option<Parsed>)
    ensures r.Some? ==> acc.pos <= r.value.pos && (acc.pos < |line| && Ends(line) ==> r.value.pos < |line|)
    decreases Left(line, acc.pos), 3
  {
    if TokenAt(line, acc.pos) != Symbol('+') && TokenAt(line, acc.pos) != Symbol('-') then Some(acc)
    else
      var r := ParseMul(line, acc.pos + 1, vars);
      if r.None? then None
      else
        var e := Sum(acc.expr, TokenAt(line, acc.pos) == Symbol('-'), r.value.expr);
        SumRest(line, Parsed(e, r.value.pos), vars)
  }

  // ---------------------------------------------------------------------------
  // The cursor and the constructors that advance it
  // ---------------------------------------------------------------------------

  class Line {
    const tokens: TokenLine
    var pos: nat

    constructor (tokens: TokenLine)
      ensures this.tokens == tokens && pos == 0
    {
      this.tokens := tokens;
      pos := 0;
    }

    /** Dereferences the iterator, which must not be at the end. */
    method Get() returns (t: Token)
      requires pos < |tokens|
      ensures t == tokens[pos]
    {
      t := tokens[pos];
    }

    /** Advances, or reports that the source would throw "End line". */
    method Next() returns (ok: bool)
      modifies this
      ensures ok <==> old(pos) < |tokens|
      ensures pos == if ok then old(pos) + 1 else old(pos)
    {
      ok := pos < |tokens|;
      if ok {
        pos := pos + 1;
      }
    }
  }

  /** What a constructor leaves behind agrees with the grammar function it implements. */
  ghost predicate Agrees(line: Line, built: Option<Expr>, spec: Option<Parsed>)
    reads line
  {
    if spec.None? then built.None?
    else built == Some(spec.value.expr) && line.pos == spec.value.pos
  }

  method BuildConstant(line: Line, vars: map<string, nat>) returns (e: Option<Expr>)
    requires Ends(line.tokens) && line.pos < |line.tokens|
    modifies line
    ensures Agrees(line, e, ParseConstant(line.tokens, old(line.pos), vars))
    decreases |line.tokens| - line.pos, 0
  {
    var token := line.Get();
    if token.Number? {
      var ok := line.Next();
      e := Some(Num(token.value));
    } else if token.Name? {
      if token.name !in vars {
        return None;
      }
      var ok := line.Next();
      e := Some(Var(vars[token.name]));
    } else if token == Symbol('-') {
      var ok := line.Next();
      var arg := BuildConstant(line, vars);
      e := if arg.None? then None else Some(Neg(arg.value));
    } else if token == Symbol('(') {
      var ok := line.Next();
      var sum := BuildSum(line, vars);
      if sum.None? {
        return None;
      }
      token := line.Get();
      if token != Symbol(')') {
        return None;
      }
      ok := line.Next();
      e := sum;
    } else {
      e := Some(Missing);
    }
  }

  method BuildMul(line: Line, vars: map<string, nat>) returns (e: Option<Expr>)
    requires Ends(line.tokens) && line.pos < |line.tokens|
    modifies line
    ensures Agrees(line, e, ParseMul(line.tokens, old(line.pos), vars))
    decreases |line.tokens| - line.pos, 2
  {
    ghost var start := line.pos;
    e := BuildConstant(line, vars);
    if e.None? {
      return;
    }
    var token := line.Get();
    while token == Symbol('*')
      invariant e.Some? && start <= line.pos < |line.tokens| && token == line.tokens[line.pos]
      invariant ParseMul(line.tokens, start, vars) == MulRest(line.tokens, Parsed(e.value, line.pos), vars)
      decreases |line.tokens| - line.pos
    {
      var ok := line.Next();
      var right := BuildConstant(line, vars);
      if right.None? {
        return None;
      }
      e := Some(Mul(e.value, right.value));
      token := line.Get();
    }
  }

  method BuildSum(line: Line, vars: map<string, nat>) returns (e: Option<Expr>)
    requires Ends(line.tokens) && line.pos < |line.tokens|
    modifies line
    ensures Agrees(line, e, ParseSum(line.tokens, old(line.pos), vars))
    decreases |line.tokens| - line.pos, 4
  {
    ghost var start := line.pos;
    e := BuildMul(line, vars);
    if e.None? {
      return;
    }
    var token := line.Get();
    while token == Symbol('+') || token == Symbol('-')
      invariant e.Some? && start <= line.pos < |line.tokens| && token == line.tokens[line.pos]
      invariant ParseSum(line.tokens, start, vars) == SumRest(line.tokens, Parsed(e.value, line.pos), vars)
      decreases |line.tokens| - line.pos
    {
      var ok := line.Next();
      var right := BuildMul(line, vars);
      if right.None? {
        return None;
      }
      e := Some(Sum(e.value, token == Symbol('-'), right.value));
      token := line.Get();
    }
  }

  // ---------------------------------------------------------------------------
  // Standard precedence and left associativity: parsing undoes printing
  // ---------------------------------------------------------------------------

  /** Every operand is present and every variable has a name. */
  ghost predicate Printable(e: Expr, names: seq<string>, vars: map<string, nat>) {
    match e
    case Num(_) => true
    case Var(i) => i < |names| && names[i] in vars && vars[names[i]] == i
    case Missing => false
    case Neg(x) => Printable(x, names, vars)
    case Mul(l, r) => Printable(l, names, vars) && Printable(r, names, vars)
    case Sum(l, _, r) => Printable(l, names, vars) && Printable(r, names, vars)
  }

  function Sign(minus: bool): Token {
    Symbol(if minus then '-' else '+')
  }

  function PrintConstant(e: Expr, names: seq<string>): seq<Token>
    decreases e, 0
  {
    match e
    case Num(n) => [Number(n)]
    case Var(i) => [if i < |names| then Name(names[i]) else BadToken]
    case Missing => []
    case Neg(x) => [Symbol('-')] + PrintConstant(x, names)
    case Mul(l, r) => [Symbol('(')] + (PrintMul(l, names) + ([Symbol('*')] + PrintConstant(r, names))) + [Symbol(')')]
    case Sum(l, m, r) => [Symbol('(')] + (PrintSum(l, names) + ([Sign(m)] + PrintMul(r, names))) + [Symbol(')')]
  }

  function PrintMul(e: Expr, names: seq<string>): seq<Token>
    decreases e, 1
  {
    if e.Mul? then PrintMul(e.left, names) + ([Symbol('*')] + PrintConstant(e.right, names))
    else PrintConstant(e, names)
  }

  /** Parentheses appear only where precedence or left associativity asks for them. */
  function PrintSum(e: Expr, names: seq<string>): seq<Token>
    decreases e, 2
  {
    if e.Sum? then PrintSum(e.left, names) + ([Sign(e.minus)] + PrintMul(e.right, names))
    else PrintMul(e, names)
  }

  /** The tokens s stand in line from position p, with at least one token after them. */
  ghost predicate Stands(line: TokenLine, p: nat, s: seq<Token>) {
    p + |s| < |line| && forall i :: 0 <= i < |s| ==> line[p + i] == s[i]
  }

  lemma StandsSplit(line: TokenLine, p: nat, s: seq<Token>, t: seq<Token>)
    requires Stands(line, p, s + t)
    ensures t != [] ==> Stands(line, p, s)
    ensures Stands(line, p + |s|, t)
    ensures p + |s| < |line| && (t != [] ==> line[p + |s|] == t[0])
  {
    forall i | 0 <= i < |s| ensures line[p + i] == s[i] {
      assert (s + t)[i] == s[i];
    }
    forall i | 0 <= i < |t| ensures line[p + |s| + i] == t[i] {
      assert (s + t)[|s| + i] == t[i];
    }
  }

  lemma NegStep(line: TokenLine, p: nat, r: Parsed, vars: map<string, nat>)
    requires TokenAt(line, p) == Symbol('-')
    requires ParseConstant(line, p + 1, vars) == Some(r)
    ensures ParseConstant(line, p, vars) == Some(Parsed(Neg(r.expr), r.pos))
  {
  }

  lemma ParenthesisStep(line: TokenLine, p: nat, r: Parsed, vars: map<string, nat>)
    requires TokenAt(line, p) == Symbol('(')
    requires ParseSum(line, p + 1, vars) == Some(r) && TokenAt(line, r.pos) == Symbol(')')
    ensures ParseConstant(line, p, vars) == Some(Parsed(r.expr, r.pos + 1))
  {
  }

  lemma MulStep(line: TokenLine, acc: Parsed, r: Parsed, vars: map<string, nat>)
    requires TokenAt(line, acc.pos) == Symbol('*')
    requires ParseConstant(line, acc.pos + 1, vars) == Some(r)
    ensures MulRest(line, acc, vars) == MulRest(line, Parsed(Mul(acc.expr, r.expr), r.pos), vars)
  {
  }

  lemma MulStops(line: TokenLine, acc: Parsed, vars: map<string, nat>)
    requires TokenAt(line, acc.pos) != Symbol('*')
    ensures MulRest(line, acc, vars) == Some(acc)
  {
  }

  lemma SumStep(line: TokenLine, acc: Parsed, r: Parsed, minus: bool, vars: map<string, nat>)
    requires TokenAt(line, acc.pos) == Sign(minus)
    requires ParseMul(line, acc.pos + 1, vars) == Some(r)
    ensures SumRest(line, acc, vars) == SumRest(line, Parsed(Sum(acc.expr, minus, r.expr), r.pos), vars)
  {
  }

  /** Standing around an infix sign: both pieces stand. */
  lemma StandsInfix(line: TokenLine, p: nat, whole: seq<Token>, l: seq<Token>, c: Token, r: seq<Token>)
    requires whole == l + ([c] + r) && Stands(line, p, whole)
    ensures Stands(line, p, l) && TokenAt(line, p + |l|) == c && Stands(line, p + |l| + 1, r)
    ensures |whole| == |l| + 1 + |r|
  {
    StandsSplit(line, p, l, [c] + r);
    StandsSplit(line, p + |l|, [c], r);
  }

  lemma ParenthesisJoin(line: TokenLine, p: nat, inner: seq<Token>)
    requires Stands(line, p, [Symbol('(')] + inner + [Symbol(')')])
    ensures p + 2 + |inner| < |line| && line[p] == Symbol('(')
    ensures Stands(line, p + 1, inner) && line[p + 1 + |inner|] == Symbol(')')
  {
    assert [Symbol('(')] + inner + [Symbol(')')] == [Symbol('(')] + (inner + [Symbol(')')]);
    StandsSplit(line, p, [], [Symbol('(')] + (inner + [Symbol(')')]));
    StandsSplit(line, p, [Symbol('(')], inner + [Symbol(')')]);
    StandsSplit(line, p + 1, inner, [Symbol(')')]);
  }

  lemma ParenthesisParse(line: TokenLine, p: nat, inner: seq<Token>, e: Expr, vars: map<string, nat>)
    requires Stands(line, p, [Symbol('(')] + inner + [Symbol(')')])
    requires ParseSum(line, p + 1, vars) == SumRest(line, Parsed(e, p + 1 + |inner|), vars)
    ensures ParseConstant(line, p, vars) == Some(Parsed(e, p + |[Symbol('(')] + inner + [Symbol(')')]|))
  {
    ParenthesisJoin(line, p, inner);
    ParenthesisStep(line, p, Parsed(e, p + 1 + |inner|), vars);
  }

  lemma NegStands(line: TokenLine, p: nat, inner: seq<Token>)
    requires Stands(line, p, [Symbol('-')] + inner)
    ensures line[p] == Symbol('-') && Stands(line, p + 1, inner)
  {
    StandsSplit(line, p, [], [Symbol('-')] + inner);
    StandsSplit(line, p, [Symbol('-')], inner);
  }

  datatype Level = ConstantLevel | MulLevel | SumLevel

  /** Which printing level is tried first at one expression. */
  function Rank(level: Level, e: Expr): nat {
    if e.Mul? then (match level case ConstantLevel => 2 case SumLevel => 1 case MulLevel => 0)
    else if e.Sum? then (match level case MulLevel => 2 case ConstantLevel => 1 case SumLevel => 0)
    else match level case SumLevel => 2 case MulLevel => 1 case ConstantLevel => 0
  }

  lemma {:induction false} ConstantPrinted(line: TokenLine, p: nat, e: Expr, names: seq<string>, vars: map<string, nat>)
    requires Printable(e, names, vars) && Stands(line, p, PrintConstant(e, names))
    ensures ParseConstant(line, p, vars) == Some(Parsed(e, p + |PrintConstant(e, names)|))
    decreases e, Rank(ConstantLevel, e), 1
  {
    if e.Mul? || e.Sum? {
      var inner := PrintSum(e, names);
      CompoundParenthesised(e, names);
      ParenthesisJoin(line, p, inner);
      SumPrinted(line, p + 1, e, names, vars);
      ParenthesisParse(line, p, inner, e, vars);
    } else if e.Neg? {
      NegStands(line, p, PrintConstant(e.arg, names));
      ConstantPrinted(line, p + 1, e.arg, names, vars);
      NegStep(line, p, Parsed(e.arg, p + 1 + |PrintConstant(e.arg, names)|), vars);
    } else {
      StandsSplit(line, p, [], PrintConstant(e, names));
    }
  }

  lemma CompoundParenthesised(e: Expr, names: seq<string>)
    requires e.Mul? || e.Sum?
    ensures PrintConstant(e, names) == [Symbol('(')] + PrintSum(e, names) + [Symbol(')')]
  {
    if e.Mul? {
      assert PrintSum(e, names) == PrintMul(e, names);
      assert PrintMul(e, names) == PrintMul(e.left, names) + ([Symbol('*')] + PrintConstant(e.right, names));
    }
  }

  /** How an infix expression prints. */
  lemma InfixPrinted(e: Expr, names: seq<string>)
    ensures e.Mul? ==> PrintMul(e, names) == PrintMul(e.left, names) + ([Symbol('*')] + PrintConstant(e.right, names))
    ensures e.Sum? ==> PrintSum(e, names) == PrintSum(e.left, names) + ([Sign(e.minus)] + PrintMul(e.right, names))
    ensures !e.Mul? ==> PrintMul(e, names) == PrintConstant(e, names)
    ensures !e.Sum? ==> PrintSum(e, names) == PrintMul(e, names)
  {
  }

  lemma {:induction false} ProductPrinted(line: TokenLine, p: nat, whole: seq<Token>, le: Expr, re: Expr,
                                          names: seq<string>, vars: map<string, nat>)
    requires Printable(le, names, vars) && Printable(re, names, vars) && Stands(line, p, whole)
    requires whole == PrintMul(le, names) + ([Symbol('*')] + PrintConstant(re, names))
    ensures ParseMul(line, p, vars) == MulRest(line, Parsed(Mul(le, re), p + |whole|), vars)
    decreases Mul(le, re), 0, 0
  {
    var l, r := PrintMul(le, names), PrintConstant(re, names);
    var q, end := p + |l|, p + |whole|;
    assert TokenAt(line, q) == Symbol('*') && Stands(line, p, l) && Stands(line, q + 1, r) && end == q + 1 + |r| by {
      StandsInfix(line, p, whole, l, Symbol('*'), r);
    }
    assert ParseMul(line, p, vars) == MulRest(line, Parsed(le, q), vars) by {
      MulPrinted(line, p, le, names, vars);
    }
    assert ParseConstant(line, q + 1, vars) == Some(Parsed(re, end)) by {
      ConstantPrinted(line, q + 1, re, names, vars);
    }
    MulStep(line, Parsed(le, q), Parsed(re, end), vars);
  }

  lemma {:induction false} InfixSumPrinted(line: TokenLine, p: nat, whole: seq<Token>, le: Expr, minus: bool, re: Expr,
                                           names: seq<string>, vars: map<string, nat>)
    requires Printable(le, names, vars) && Printable(re, names, vars) && Stands(line, p, whole)
    requires whole == PrintSum(le, names) + ([Sign(minus)] + PrintMul(re, names))
    requires line[p + |whole|] != Symbol('*')
    ensures ParseSum(line, p, vars) == SumRest(line, Parsed(Sum(le, minus, re), p + |whole|), vars)
    decreases Sum(le, minus, re), 0, 0
  {
    var l, r := PrintSum(le, names), PrintMul(re, names);
    var q, end := p + |l|, p + |whole|;
    assert TokenAt(line, q) == Sign(minus) && Stands(line, p, l) && Stands(line, q + 1, r) && end == q + 1 + |r| by {
      StandsInfix(line, p, whole, l, Sign(minus), r);
    }
    assert ParseSum(line, p, vars) == SumRest(line, Parsed(le, q), vars) by {
      SumPrinted(line, p, le, names, vars);
    }
    assert ParseMul(line, q + 1, vars) == Some(Parsed(re, end)) by {
      MulPrinted(line, q + 1, re, names, vars);
      MulStops(line, Parsed(re, end), vars);
    }
    SumStep(line, Parsed(le, q), Parsed(re, end), minus, vars);
  }

  /** Parsing a printed product from its start is the same as continuing after it. */
  lemma {:induction false} MulPrinted(line: TokenLine, p: nat, e: Expr, names: seq<string>, vars: map<string, nat>)
    requires Printable(e, names, vars) && Stands(line, p, PrintMul(e, names))
    ensures ParseMul(line, p, vars) == MulRest(line, Parsed(e, p + |PrintMul(e, names)|), vars)
    decreases e, Rank(MulLevel, e), 1
  {
    InfixPrinted(e, names);
    if e.Mul? {
      ProductPrinted(line, p, PrintMul(e, names), e.left, e.right, names, vars);
    } else {
      ConstantPrinted(line, p, e, names, vars);
    }
  }

  /** The same for sums, when no product sign follows. */
  lemma {:induction false} SumPrinted(line: TokenLine, p: nat, e: Expr, names: seq<string>, vars: map<string, nat>)
    requires Printable(e, names, vars) && Stands(line, p, PrintSum(e, names))
    requires line[p + |PrintSum(e, names)|] != Symbol('*')
    ensures ParseSum(line, p, vars) == SumRest(line, Parsed(e, p + |PrintSum(e, names)|), vars)
    decreases e, Rank(SumLevel, e), 1
  {
    InfixPrinted(e, names);
    if e.Sum? {
      InfixSumPrinted(line, p, PrintSum(e, names), e.left, e.minus, e.right, names, vars);
    } else {
      MulPrinted(line, p, e, names, vars);
    }
  }

  /** Any tree, printed with the fewest parentheses and closed by the end of the line, parses to itself. */
  lemma ParsePrinted(e: Expr, names: seq<string>, vars: map<string, nat>, prefix: seq<Token>)
    requires Printable(e, names, vars)
    ensures ParseSum(prefix + PrintSum(e, names) + [NewLine], |prefix|, vars)
            == Some(Parsed(e, |prefix| + |PrintSum(e, names)|))
  {
    var line := prefix + PrintSum(e, names) + [NewLine];
    assert Stands(line, |prefix|, PrintSum(e, names));
    SumPrinted(line, |prefix|, e, names, vars);
  }

  /** An absent operand is not rejected: an empty right-hand side parses. */
  lemma EmptyExpressionParses(prefix: seq<Token>, vars: map<string, nat>)
    ensures ParseSum(prefix + [NewLine], |prefix|, vars) == Some(Parsed(Missing, |prefix|))
  {
    var line := prefix + [NewLine];
    assert line[|prefix|] == NewLine;
    assert ParseConstant(line, |prefix|, vars) == Some(Parsed(Missing, |prefix|));
    assert ParseMul(line, |prefix|, vars) == Some(Parsed(Missing, |prefix|));
  }

  /** A dangling operator is not rejected either: `1 +` parses as a sum with an absent operand. */
  lemma DanglingOperatorParses(n: nat, vars: map<string, nat>)
    ensures ParseSum([Number(n), Symbol('+'), NewLine], 0, vars) == Some(Parsed(Sum(Num(n), false, Missing), 2))
  {
    var line := [Number(n), Symbol('+'), NewLine];
    assert ParseConstant(line, 0, vars) == Some(Parsed(Num(n), 1));
    assert ParseMul(line, 0, vars) == Some(Parsed(Num(n), 1));
    assert ParseConstant(line, 2, vars) == Some(Parsed(Missing, 2));
    assert ParseMul(line, 2, vars) == Some(Parsed(Missing, 2));
    assert SumRest(line, Parsed(Sum(Num(n), false, Missing), 2), vars) == Some(Parsed(Sum(Num(n), false, Missing), 2));
  }

  /** Nor are empty parentheses. */
  lemma EmptyParenthesesParse(vars: map<string, nat>)
    ensures ParseSum([Symbol('('), Symbol(')'), NewLine], 0, vars) == Some(Parsed(Missing, 2))
  {
    var line := [Symbol('('), Symbol(')'), NewLine];
    assert ParseConstant(line, 1, vars) == Some(Parsed(Missing, 1));
    assert ParseMul(line, 1, vars) == Some(Parsed(Missing, 1));
    assert ParseSum(line, 1, vars) == Some(Parsed(Missing, 1));
    assert ParseConstant(line, 0, vars) == Some(Parsed(Missing, 2));
    assert ParseMul(line, 0, vars) == Some(Parsed(Missing, 2));
  }

  // ---------------------------------------------------------------------------
  // When an operand is missing
  // ---------------------------------------------------------------------------

  predicate HasMissing(e: Expr) {
    match e
    case Missing => true
    case Neg(x) => HasMissing(x)
    case Mul(l, r) => HasMissing(l) || HasMissing(r)
    case Sum(l, _, r) => HasMissing(l) || HasMissing(r)
    case _ => false
  }

  predicate StartsOperand(t: Token) {
    t.Number? || t.Name? || t == Symbol('-') || t == Symbol('(')
  }

  /** After this token an operand is due. */
  predicate Opens(t: Token) {
    t == Symbol('-') || t == Symbol('+') || t == Symbol('*') || t == Symbol('(')
  }

  /** An operand is due at p because of the token before, and none starts there. */
  predicate GapAt(line: TokenLine, p: nat) {
    p > 0 && Opens(TokenAt(line, p - 1)) && !StartsOperand(TokenAt(line, p))
  }

  ghost predicate GapAfter(line: TokenLine, a: nat, b: nat) {
    exists p :: a < p <= b && GapAt(line, p)
  }

  /** From a on, where an operand is due, up to b: some due operand does not start. */
  ghost predicate Gap(line: TokenLine, a: nat, b: nat) {
    !StartsOperand(TokenAt(line, a)) || GapAfter(line, a, b)
  }

  lemma GapSplit(line: TokenLine, a: nat, b: nat, c: nat)
    requires a <= b <= c
    ensures GapAfter(line, a, c) <==> GapAfter(line, a, b) || GapAfter(line, b, c)
  {
    if GapAfter(line, a, c) {
      var p :| a < p <= c && GapAt(line, p);
      assert p <= b || b < p;
    }
    if GapAfter(line, a, b) {
      var p :| a < p <= b && GapAt(line, p);
      assert a < p <= c;
    }
    if GapAfter(line, b, c) {
      var p :| b < p <= c && GapAt(line, p);
      assert a < p <= c;
    }
  }

  /** After a token that asks for an operand, a gap is a gap from the next token on. */
  lemma GapOpened(line: TokenLine, a: nat, b: nat)
    requires a < b && Opens(TokenAt(line, a))
    ensures GapAfter(line, a, b) <==> Gap(line, a + 1, b)
  {
    GapSplit(line, a, a + 1, b);
    assert GapAt(line, a + 1) <==> !StartsOperand(TokenAt(line, a + 1));
  }

  lemma GapPlain(line: TokenLine, a: nat)
    requires !Opens(TokenAt(line, a))
    ensures !GapAfter(line, a, a + 1)
  {
    assert !GapAt(line, a + 1);
  }

  lemma {:induction false} ConstantMissing(line: TokenLine, pos: nat, vars: map<string, nat>, r: Parsed)
    requires ParseConstant(line, pos, vars) == Some(r)
    ensures HasMissing(r.expr) <==> Gap(line, pos, r.pos)
    decreases Left(line, pos), 0
  {
    var t := TokenAt(line, pos);
    if t == Symbol('-') {
      var x := ParseConstant(line, pos + 1, vars).value;
      ConstantMissing(line, pos + 1, vars, x);
      GapOpened(line, pos, r.pos);
    } else if t == Symbol('(') {
      var x := ParseSum(line, pos + 1, vars).value;
      SumMissing(line, pos + 1, vars, x);
      GapOpened(line, pos, x.pos);
      GapSplit(line, pos, x.pos, r.pos);
      GapPlain(line, x.pos);
    } else if StartsOperand(t) {
      GapPlain(line, pos);
    }
  }

  lemma {:induction false} MulMissing(line: TokenLine, pos: nat, vars: map<string, nat>, r: Parsed)
    requires ParseMul(line, pos, vars) == Some(r)
    ensures HasMissing(r.expr) <==> Gap(line, pos, r.pos)
    decreases Left(line, pos), 2
  {
    var x := ParseConstant(line, pos, vars).value;
    ConstantMissing(line, pos, vars, x);
    MulRestMissing(line, x, vars, r);
    GapSplit(line, pos, x.pos, r.pos);
  }

  lemma {:induction false} MulRestMissing(line: TokenLine, acc: Parsed, vars: map<string, nat>, r: Parsed)
    requires MulRest(line, acc, vars) == Some(r)
    ensures HasMissing(r.expr) <==> HasMissing(acc.expr) || GapAfter(line, acc.pos, r.pos)
    decreases Left(line, acc.pos), 1
  {
    if TokenAt(line, acc.pos) == Symbol('*') {
      var x := ParseConstant(line, acc.pos + 1, vars).value;
      ConstantMissing(line, acc.pos + 1, vars, x);
      MulRestMissing(line, Parsed(Mul(acc.expr, x.expr), x.pos), vars, r);
      GapOpened(line, acc.pos, x.pos);
      GapSplit(line, acc.pos, x.pos, r.pos);
    }
  }

  lemma {:induction false} SumRestMissing(line: TokenLine, acc: Parsed, vars: map<string, nat>, r: Parsed)
    requires SumRest(line, acc, vars) == Some(r)
    ensures HasMissing(r.expr) <==> HasMissing(acc.expr) || GapAfter(line, acc.pos, r.pos)
    decreases Left(line, acc.pos), 3
  {
    var t := TokenAt(line, acc.pos);
    if t == Symbol('+') || t == Symbol('-') {
      var x := ParseMul(line, acc.pos + 1, vars).value;
      MulMissing(line, acc.pos + 1, vars, x);
      SumRestMissing(line, Parsed(Sum(acc.expr, t == Symbol('-'), x.expr), x.pos), vars, r);
      GapOpened(line, acc.pos, x.pos);
      GapSplit(line, acc.pos, x.pos, r.pos);
    }
  }

  /** The tree has an absent operand exactly when somewhere an operand is due and none starts. */
  lemma {:induction false} SumMissing(line: TokenLine, pos: nat, vars: map<string, nat>, r: Parsed)
    requires ParseSum(line, pos, vars) == Some(r)
    ensures HasMissing(r.expr) <==> Gap(line, pos, r.pos)
    decreases Left(line, pos), 4
  {
    var x := ParseMul(line, pos, vars).value;
    MulMissing(line, pos, vars, x);
    SumRestMissing(line, x, vars, r);
    GapSplit(line, pos, x.pos, r.pos);
  }

  /** On a whole right-hand side, up to the end of its line, the condition concerns the line alone. */
  lemma MissingOnLine(line: TokenLine, pos: nat, vars: map<string, nat>, r: Parsed)
    requires Ends(line) && pos < |line| && (forall i :: 0 <= i < |line| - 1 ==> line[i] != NewLine)
    requires ParseSum(line, pos, vars) == Some(r) && TokenAt(line, r.pos) == NewLine
    ensures HasMissing(r.expr) <==> Gap(line, pos, |line| - 1)
  {
    SumMissing(line, pos, vars, r);
    assert r.pos == |line| - 1;
  }
}
