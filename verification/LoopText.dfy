/** Program texts: every program over names, written as characters, runs to its meaning. */
module LoopText {
  import opened Common
  import opened LoopSyntax
  import opened LoopPrinter
  import LoopProgram
  import LoopInterpreter
  import LinearForm
  import WordMatrix
  import T = LoopTokenizer

  // ---------------------------------------------------------------------------
  // Spelling
  // ---------------------------------------------------------------------------

  predicate Alphabetic(c: char) {
    'a' <= c <= 'z' || 'A' <= c <= 'Z'
  }

  /** A letter, then letters, digits and underscores, but not the keyword. */
  predicate Identifier(x: string) {
    && x != "" && x != "for" && Alphabetic(x[0])
    && forall i :: 0 <= i < |x| ==> Alphabetic(x[i]) || '0' <= x[i] <= '9' || x[i] == '_'
  }

  function Decimal(n: nat): string {
    if n < 10 then [('0' as int + n) as char] else Decimal(n / 10) + [('0' as int + n % 10) as char]
  }

  function Spell(t: Token): string {
    match t
    case Number(n) => Decimal(n)
    case Symbol(c) => [c]
    case Name(x) => x
    case For => "for"
    case Eqv => "="
    case Tab => "    "
    case NewLine => "\n"
    case BadToken => "?"
  }

  /** The tokens that programs are written with. */
  predicate Plain(t: Token) {
    match t
    case Number(n) => n < 0x1_0000_0000_0000_0000
    case Symbol(c) => c == '(' || c == ')' || c == '+' || c == '-' || c == '*'
    case Name(x) => Identifier(x)
    case BadToken => false
    case _ => true
  }

  /** Words and symbols are followed by a space. */
  function Space(t: Token): string {
    if t.Tab? || t.NewLine? then "" else " "
  }

  function Text(tokens: seq<Token>): string {
    if tokens == [] then "" else Spell(tokens[0]) + Space(tokens[0]) + Text(tokens[1..])
  }

  lemma {:induction false} DecimalSpells(n: nat)
    requires n < 0x1_0000_0000_0000_0000
    ensures Decimal(n) != [] && T.AllDigits(Decimal(n)) && T.NumberValue(Decimal(n)) == n
  {
    var s := Decimal(n);
    if n < 10 {
      assert s[..0] == [];
    } else {
      DecimalSpells(n / 10);
      assert s[..|s| - 1] == Decimal(n / 10);
    }
  }

  lemma Spelled(t: Token)
    requires Plain(t)
    ensures T.Spells(t, Spell(t))
  {
    if t.Number? {
      DecimalSpells(t.value);
    }
  }

  // ---------------------------------------------------------------------------
  // The tokenizer reads the tokens back
  // ---------------------------------------------------------------------------

  /** Tabs stand only at the beginning of a line. */
  predicate TabsFirst(tokens: seq<Token>, start: bool) {
    tokens == [] || ((tokens[0].Tab? ==> start) && TabsFirst(tokens[1..], tokens[0].Tab? || tokens[0].NewLine?))
  }

  /** What is left of the text before each token. */
  function Cuts(tokens: seq<Token>, lead: string): (cuts: seq<string>)
    ensures |cuts| == |tokens| + 1 && cuts[0] == lead + Text(tokens)
  {
    [lead + Text(tokens)] + if tokens == [] then [] else Cuts(tokens[1..], Space(tokens[0]))
  }

  lemma Followed(t: Token, rest: string)
    ensures T.Maximal(t, Space(t) + rest)
  {
  }

  lemma Regroup(lead: string, a: string, b: string, c: string)
    ensures lead + (a + b + c) == lead + a + (b + c)
  {
  }

  lemma LeadIsSpaces(lead: string)
    requires lead == "" || lead == " "
    ensures T.Spaces(|lead|) == lead
  {
  }

  lemma FirstRead(t: Token, tail: string, lead: string)
    requires Plain(t) && (lead == "" || lead == " ") && (t.Tab? ==> lead == "")
    ensures T.OneToken(lead + (Spell(t) + Space(t) + tail), t, Space(t) + tail)
  {
    Spelled(t);
    Followed(t, tail);
    LeadIsSpaces(lead);
    Regroup(lead, Spell(t), Space(t), tail);
    T.TokenAfter(|lead|, Spell(t), t, Space(t) + tail, lead + (Spell(t) + Space(t) + tail));
  }

  lemma {:induction false} TextLexed(tokens: seq<Token>, lead: string)
    requires (forall i :: 0 <= i < |tokens| ==> Plain(tokens[i])) && (lead == "" || lead == " ")
    requires TabsFirst(tokens, lead == "")
    ensures T.Lexed(lead + Text(tokens), tokens, Cuts(tokens, lead))
    decreases |tokens|
  {
    var cuts := Cuts(tokens, lead);
    if tokens == [] {
      assert lead + Text(tokens) == lead && T.Spaces(|lead|) == lead;
    } else {
      var rest := Cuts(tokens[1..], Space(tokens[0]));
      assert cuts == [lead + Text(tokens)] + rest;
      TextLexed(tokens[1..], Space(tokens[0]));
      FirstRead(tokens[0], Text(tokens[1..]), lead);
      forall i | 0 <= i < |tokens| ensures T.CutOk(tokens, cuts, i) {
        if i > 0 {
          assert T.CutOk(tokens[1..], rest, i - 1);
        }
      }
    }
  }

  // ---------------------------------------------------------------------------
  // Lines
  // ---------------------------------------------------------------------------

  function Concat(lines: seq<TokenLine>): seq<Token> {
    if lines == [] then [] else lines[0] + Concat(lines[1..])
  }

  lemma {:induction false} WordsOnly(s: seq<Token>)
    requires forall i :: 0 <= i < |s| ==> !T.Blank(s[i])
    ensures T.Words(s) == s
  {
    if s != [] {
      WordsOnly(s[1..]);
    }
  }

  lemma {:induction false} TrimKeeps(s: seq<Token>)
    requires T.Open(s)
    ensures T.Trim(s) == s
  {
    if s != [] && s[0].Tab? {
      TrimKeeps(s[1..]);
    } else {
      WordsOnly(s);
    }
  }

  lemma OneShaped(line: TokenLine)
    requires T.LineShape(line)
    ensures T.Lines(line) == [line] && T.Whole(line)
  {
    var body := line[..|line| - 1];
    assert line == body + [NewLine];
    TrimKeeps(body);
    T.LastLine(body);
  }

  lemma {:induction false} LinesConcat(lines: seq<TokenLine>)
    requires T.AllShaped(lines)
    ensures T.Lines(Concat(lines)) == lines
  {
    if lines != [] {
      OneShaped(lines[0]);
      LinesConcat(lines[1..]);
      T.LinesJoin(lines[0], Concat(lines[1..]));
      assert lines == [lines[0]] + lines[1..];
    }
  }

  lemma {:induction false} TabsFirstLine(body: seq<Token>, rest: seq<Token>, start: bool)
    requires T.Open(body) && TabsFirst(rest, true) && (start || (body != [] ==> body[0] != Tab))
    ensures TabsFirst(body + ([NewLine] + rest), start)
    decreases |body|
  {
    var all := body + ([NewLine] + rest);
    if body == [] {
      assert all[1..] == rest;
    } else {
      assert all[1..] == body[1..] + ([NewLine] + rest);
      TabsFirstLine(body[1..], rest, body[0].Tab?);
    }
  }

  lemma {:induction false} TabsFirstConcat(lines: seq<TokenLine>)
    requires T.AllShaped(lines)
    ensures TabsFirst(Concat(lines), true)
  {
    if lines != [] {
      var line, rest := lines[0], Concat(lines[1..]);
      assert T.LineShape(line);
      TabsFirstConcat(lines[1..]);
      TabsFirstLine(line[..|line| - 1], rest, true);
      assert line + rest == line[..|line| - 1] + ([NewLine] + rest);
    }
  }

  ghost predicate AllPlain(s: seq<Token>) {
    forall i :: 0 <= i < |s| ==> Plain(s[i])
  }

  lemma {:induction false} PlainConcat(lines: seq<TokenLine>)
    requires forall i :: 0 <= i < |lines| ==> AllPlain(lines[i])
    ensures AllPlain(Concat(lines))
  {
    if lines != [] {
      PlainConcat(lines[1..]);
    }
  }

  /** Lines of the right shape, written as text, are what the text is split into. */
  lemma TextLines(lines: seq<TokenLine>)
    requires T.AllShaped(lines) && forall i :: 0 <= i < |lines| ==> AllPlain(lines[i])
    ensures T.LinesOf(Text(Concat(lines)), lines)
  {
    var stream := Concat(lines);
    PlainConcat(lines);
    TabsFirstConcat(lines);
    TextLexed(stream, "");
    assert "" + Text(stream) == Text(stream);
    LinesConcat(lines);
    assert T.Lexed(Text(stream), stream, Cuts(stream, ""));
  }

  // ---------------------------------------------------------------------------
  // Programs
  // ---------------------------------------------------------------------------

  predicate TermPlain(t: Term) {
    match t
    case Const(n) => n < 0x1_0000_0000_0000_0000
    case Use(x) => Identifier(x)
    case Minus(a) => TermPlain(a)
    case Times(l, r) => TermPlain(l) && TermPlain(r)
    case Plus(l, r) => TermPlain(l) && TermPlain(r)
    case Less(l, r) => TermPlain(l) && TermPlain(r)
  }

  /** Numbers fit 64 bits and names are identifiers. */
  predicate CodePlain(c: Code) {
    match c
    case End => true
    case Change(x, _, e, rest) => Identifier(x) && TermPlain(e) && CodePlain(rest)
    case For(count, body, rest) => count < 0x1_0000_0000_0000_0000 && CodePlain(body) && CodePlain(rest)
  }

  ghost predicate Ordinary(s: seq<Token>) {
    forall i :: 0 <= i < |s| ==> Plain(s[i]) && s[i] != Tab && s[i] != NewLine
  }

  lemma {:induction false} OperandOrdinary(t: Term)
    requires TermPlain(t)
    ensures Ordinary(WriteOperand(t))
    decreases t, 0
  {
    match t {
      case Const(_) =>
      case Use(_) =>
      case Minus(a) => OperandOrdinary(a);
      case Times(l, r) =>
        ProductOrdinary(l);
        OperandOrdinary(r);
      case Plus(l, r) =>
        SumOrdinary(l);
        ProductOrdinary(r);
      case Less(l, r) =>
        SumOrdinary(l);
        ProductOrdinary(r);
    }
  }

  lemma {:induction false} ProductOrdinary(t: Term)
    requires TermPlain(t)
    ensures Ordinary(WriteProduct(t))
    decreases t, 1
  {
    if t.Times? {
      ProductOrdinary(t.left);
      OperandOrdinary(t.right);
    } else {
      OperandOrdinary(t);
    }
  }

  lemma {:induction false} SumOrdinary(t: Term)
    requires TermPlain(t)
    ensures Ordinary(WriteSum(t))
    decreases t, 2
  {
    if t.Plus? || t.Less? {
      SumOrdinary(t.left);
      ProductOrdinary(t.right);
    } else {
      ProductOrdinary(t);
    }
  }

  lemma IndentedShape(depth: nat, s: seq<Token>, line: TokenLine)
    requires s != [] && Ordinary(s) && line == Indent(depth) + s + [NewLine]
    ensures T.LineShape(line) && AllPlain(line)
  {
    assert line[..|line| - 1] == Indent(depth) + s;
  }

  lemma {:induction false} WrittenShaped(c: Code, depth: nat)
    requires CodePlain(c)
    ensures T.AllShaped(Write(c, depth)) && forall i :: 0 <= i < |Write(c, depth)| ==> AllPlain(Write(c, depth)[i])
  {
    match c {
      case End =>
      case Change(x, op, e, rest) =>
        WrittenShaped(rest, depth);
        SumOrdinary(e);
        ChangeShaped(x, op, e, depth, WriteChange(x, op, e, depth));
      case For(count, body, rest) =>
        WrittenShaped(body, depth + 1);
        WrittenShaped(rest, depth);
        IndentedShape(depth, [Token.For, Number(count)], WriteFor(count, depth));
    }
  }

  lemma ChangeShaped(x: string, op: LoopProgram.Op, e: Term, depth: nat, line: TokenLine)
    requires Identifier(x) && Ordinary(WriteSum(e)) && line == WriteChange(x, op, e, depth)
    ensures T.LineShape(line) && AllPlain(line)
  {
    var s := [Name(x)] + Mark(op) + WriteSum(e);
    assert line == Indent(depth) + s + [NewLine];
    IndentedShape(depth, s, line);
  }

  /** The text of a program: four spaces per level, one line per statement. */
  function Source(c: Code): string {
    Text(Concat(Write(c, 0)))
  }

  /**
    From text to values: running the text of any program with identifiers, 64-bit numbers and
    loop bodies succeeds exactly if the program is linear, and then every variable has the value
    that executing the program on names gives.
  */
  method RunText(c: Code) returns (values: Option<map<string, int>>)
    requires Proper(c) && CodePlain(c)
    ensures var vars := LoopInterpreter.AllVars(map[], Write(c, 0));
            && (values.Some? <==> LoopProgram.Accepted(NumberCode(c, vars), |vars|))
            && (values.Some? ==> values.value.Keys == vars.Keys
                                 && forall x :: x in vars ==> values.value[x] == Look(RunCode(c, map[]), x))
  {
    var lines;
    values, lines := T.RunProgram(Source(c));
    WrittenShaped(c, 0);
    TextLines(Write(c, 0));
    T.LinesDetermined(Source(c), lines, Write(c, 0));
    RunWritten(c);
  }

  lemma OneMoreToken(t: Token, rest: seq<Token>)
    ensures Text([t] + rest) == Spell(t) + Space(t) + Text(rest)
  {
    assert ([t] + rest)[1..] == rest;
  }

  lemma SomeSpelling(line: TokenLine)
    requires line == [Name("x"), Symbol('+'), Eqv, Number(3), NewLine]
    ensures Text(line) == "x + = 3 \n"
  {
    OneMoreToken(NewLine, []);
    OneMoreToken(Number(3), [NewLine]);
    OneMoreToken(Eqv, [Number(3), NewLine]);
    OneMoreToken(Symbol('+'), [Eqv, Number(3), NewLine]);
    OneMoreToken(Name("x"), [Symbol('+'), Eqv, Number(3), NewLine]);
    assert [NewLine] + [] == [NewLine] && Decimal(3) == "3";
  }

  lemma ConcatOne(line: TokenLine)
    ensures Concat([line]) == line
  {
    assert [line][1..] == [] && Concat([]) == [] && line + Concat([]) == line;
  }

  /** The text `x + = 3`, character by character. */
  lemma SomeText()
    ensures T.LinesOf("x + = 3 \n", [[Name("x"), Symbol('+'), Eqv, Number(3), NewLine]])
  {
    var line := [Name("x"), Symbol('+'), Eqv, Number(3), NewLine];
    SomeSpelling(line);
    ConcatOne(line);
    assert line == Indent(0) + line[..4] + [NewLine];
    IndentedShape(0, line[..4], line);
    TextLines([line]);
  }
}
