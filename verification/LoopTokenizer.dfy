/** From program text to token lines: the tokenizer that feeds the loop-language interpreter. */
module LoopTokenizer {
  import opened Common
  import opened LoopSyntax
  import WordMatrix
  import LinearForm
  import LoopInterpreter

  // ---------------------------------------------------------------------------
  // How tokens are spelled
  // ---------------------------------------------------------------------------

  predicate Digit(c: char) { '0' <= c <= '9' }

  predicate Letter(c: char) { 'A' <= c <= 'Z' || 'a' <= c <= 'z' }

  predicate WordChar(c: char) { Letter(c) || c == '_' || Digit(c) }

  predicate Operation(c: char) { c == '(' || c == ')' || c == '+' || c == '-' || c == '*' }

  ghost predicate AllDigits(s: string) { forall i :: 0 <= i < |s| ==> Digit(s[i]) }

  ghost predicate AllWord(s: string) { forall i :: 0 <= i < |s| ==> WordChar(s[i]) }

  /** The value of a digit string in 64-bit arithmetic. */
  function NumberValue(s: string): nat {
    if s == [] then 0 else WordMatrix.Wrap(10 * NumberValue(s[..|s| - 1]) + (s[|s| - 1] as int - '0' as int))
  }

  ghost predicate Spells(t: Token, s: string) {
    match t
    case NewLine => s == "\n"
    case Tab => s == "    "
    case Symbol(c) => s == [c] && Operation(c)
    case Eqv => s == "="
    case Number(n) => s != [] && AllDigits(s) && n == NumberValue(s)
    case For => s == "for"
    case Name(x) => s == x && s != [] && Letter(s[0]) && AllWord(s) && s != "for"
    case BadToken => |s| == 1 && s != "\n" && s != " " && s != "=" && !Operation(s[0]) && !Digit(s[0]) && !Letter(s[0])
  }

  /** Numbers and words extend as far as they can. */
  predicate Maximal(t: Token, rest: string) {
    && (t.Number? && rest != [] ==> !Digit(rest[0]))
    && ((t.Name? || t.For?) && rest != [] ==> !WordChar(rest[0]))
  }

  function Spaces(k: nat): string {
    seq(k, _ => ' ')
  }

  /** The spaces before a token and its spelling. */
  ghost predicate Starts(text: string, k: nat, s: string, t: Token, rest: string) {
    k < 4 && Spells(t, s) && Maximal(t, rest) && text == Spaces(k) + s + rest && (t.Tab? ==> k == 0)
  }

  /** The text starts with fewer than four spaces and the token, and goes on with rest. */
  ghost predicate OneToken(text: string, t: Token, rest: string) {
    exists k: nat, s :: Starts(text, k, s, t, rest)
  }

  /** cuts[i] is what is left of the text before token i; the last cut holds only a few spaces. */
  ghost predicate Lexed(text: string, stream: seq<Token>, cuts: seq<string>) {
    Reads(text, stream, cuts) && Trailing(cuts[|stream|])
  }

  ghost predicate Reads(text: string, stream: seq<Token>, cuts: seq<string>) {
    |cuts| == |stream| + 1 && cuts[0] == text && forall i :: 0 <= i < |stream| ==> CutOk(stream, cuts, i)
  }

  ghost predicate CutOk(stream: seq<Token>, cuts: seq<string>, i: nat) {
    i < |stream| && i + 1 < |cuts| && OneToken(cuts[i], stream[i], cuts[i + 1])
  }

  /** Fewer than four spaces and nothing else. */
  ghost predicate Trailing(s: string) {
    |s| < 4 && s == Spaces(|s|)
  }

  lemma ReadsOneMore(text: string, stream: seq<Token>, cuts: seq<string>, t: Token, rest: string)
    requires Reads(text, stream, cuts) && OneToken(cuts[|stream|], t, rest)
    ensures Reads(text, stream + [t], cuts + [rest])
  {
    forall i | 0 <= i < |stream| + 1 ensures CutOk(stream + [t], cuts + [rest], i) {
      if i < |stream| {
        assert CutOk(stream, cuts, i);
      }
    }
  }

  lemma TokenAfter(k: nat, s: string, t: Token, rest: string, text: string)
    requires Starts(text, k, s, t, rest)
    ensures OneToken(text, t, rest)
  {
  }

  // ---------------------------------------------------------------------------
  // Lines
  // ---------------------------------------------------------------------------

  predicate Blank(t: Token) { t.Tab? || t.NewLine? }

  /** The tokens that carry content. */
  function Words(s: seq<Token>): seq<Token> {
    if s == [] then [] else if Blank(s[0]) then Words(s[1..]) else [s[0]] + Words(s[1..])
  }

  /** A line keeps the tabs in front of it and loses the later ones. */
  function Trim(s: seq<Token>): TokenLine {
    if s != [] && s[0].Tab? then [Tab] + Trim(s[1..]) else Words(s)
  }

  /** Where the first line ends. */
  function LineEnd(s: seq<Token>): (k: nat)
    ensures k <= |s|
  {
    if s == [] || s[0].NewLine? then 0 else 1 + LineEnd(s[1..])
  }

  ghost predicate NoEnd(s: seq<Token>) {
    forall i :: 0 <= i < |s| ==> s[i] != NewLine
  }

  /** The line of the tokens between two ends of line, unless there are none. */
  function OneLine(s: seq<Token>): seq<TokenLine> {
    if s == [] then [] else [Trim(s) + [NewLine]]
  }

  /** The stream split at the ends of line; the last line may lack its own. */
  function Lines(s: seq<Token>): seq<TokenLine>
    decreases |s|
  {
    if s == [] then []
    else
      var k := LineEnd(s);
      OneLine(s[..k]) + if k < |s| then Lines(s[k + 1..]) else []
  }

  lemma {:induction false} WordsJoin(s: seq<Token>, t: seq<Token>)
    ensures Words(s + t) == Words(s) + Words(t)
  {
    if s == [] {
      assert s + t == t;
    } else {
      assert (s + t)[1..] == s[1..] + t;
      WordsJoin(s[1..], t);
    }
  }

  lemma WordsOne(t: Token)
    ensures Words([t]) == if Blank(t) then [] else [t]
  {
    assert [t][1..] == [];
  }

  lemma {:induction false} WordsPlain(s: seq<Token>)
    ensures forall i :: 0 <= i < |Words(s)| ==> !Blank(Words(s)[i])
    ensures Words(Words(s)) == Words(s)
  {
    if s != [] {
      WordsPlain(s[1..]);
      if !Blank(s[0]) {
        assert Words(s)[1..] == Words(s[1..]);
      }
    }
  }

  /** The line being collected, after one more token: a tab counts only behind tabs. */
  function Grown(line: TokenLine, t: Token): TokenLine {
    if t == Tab && line != [] && line[|line| - 1] != Tab then line else line + [t]
  }

  lemma {:induction false} TrimAppend(s: seq<Token>, t: Token)
    requires NoEnd(s) && t != NewLine
    ensures Trim(s + [t]) == Grown(Trim(s), t)
  {
    if s == [] {
      assert s + [t] == [t] && [t][1..] == [];
      WordsOne(t);
    } else {
      assert (s + [t])[1..] == s[1..] + [t];
      if s[0].Tab? {
        TrimAppend(s[1..], t);
        GrownBehindTab(Trim(s[1..]), t);
      } else {
        WordsJoin(s, [t]);
        WordsOne(t);
        WordsPlain(s);
        assert Words(s) != [];
      }
    }
  }

  lemma GrownBehindTab(line: TokenLine, t: Token)
    ensures [Tab] + Grown(line, t) == Grown([Tab] + line, t)
  {
    if line == [] {
      assert [Tab] + line == [Tab];
    } else {
      assert ([Tab] + line)[|line|] == line[|line| - 1];
    }
    assert [Tab] + (line + [t]) == [Tab] + line + [t];
  }

  lemma TrimEmpty(s: seq<Token>)
    requires NoEnd(s)
    ensures Trim(s) == [] <==> s == []
  {
  }

  /** A stream that stops at an end of line. */
  ghost predicate Whole(s: seq<Token>) {
    s == [] || s[|s| - 1] == NewLine
  }

  /** The first line ends at k. */
  ghost predicate EndsAt(s: seq<Token>, k: nat) {
    k <= |s| && (forall i :: 0 <= i < k ==> s[i] != NewLine) && (k < |s| ==> s[k] == NewLine)
  }

  lemma {:induction false} LineEndIs(s: seq<Token>, k: nat)
    requires EndsAt(s, k)
    ensures LineEnd(s) == k
  {
    if k > 0 {
      LineEndIs(s[1..], k - 1);
    }
  }

  lemma {:induction false} LineEndFacts(s: seq<Token>, k: nat)
    requires k == LineEnd(s)
    ensures EndsAt(s, k)
  {
    if k > 0 {
      LineEndFacts(s[1..], k - 1);
      assert forall i :: 1 <= i < k ==> s[i] == s[1..][i - 1];
    }
  }

  lemma LastLine(s: seq<Token>)
    requires NoEnd(s)
    ensures Lines(s) == OneLine(s) && Lines(s + [NewLine]) == OneLine(s)
  {
    var t := s + [NewLine];
    assert s[..|s|] == s && t[..|s|] == s && t[|s| + 1..] == [];
    LineEndIs(s, |s|);
    LineEndIs(t, |s|);
  }

  lemma CutJoin(s: seq<Token>, t: seq<Token>, k: nat)
    requires EndsAt(s, k) && k < |s|
    ensures EndsAt(s + t, k) && (s + t)[..k] == s[..k] && (s + t)[k + 1..] == s[k + 1..] + t
  {
  }

  /** Behind the first line, the rest of a stream. */
  lemma LineCut(s: seq<Token>, k: nat, first: seq<Token>, rest: seq<Token>)
    requires EndsAt(s, k) && k < |s| && first == s[..k] && rest == s[k + 1..]
    ensures Lines(s) == OneLine(first) + Lines(rest)
  {
    LineEndIs(s, k);
  }

  lemma Regroup<T>(a: seq<T>, b: seq<T>, c: seq<T>)
    ensures a + (b + c) == a + b + c
  {
  }

  lemma {:induction false} LinesJoin(s: seq<Token>, t: seq<Token>)
    requires Whole(s)
    ensures Lines(s + t) == Lines(s) + Lines(t)
    decreases |s|
  {
    if s == [] {
      assert s + t == t;
    } else {
      var k := LineEnd(s);
      LineEndFacts(s, k);
      var first, rest := s[..k], s[k + 1..];
      CutJoin(s, t, k);
      LineCut(s, k, first, rest);
      LineCut(s + t, k, first, rest + t);
      LinesJoin(rest, t);
      Regroup(OneLine(first), Lines(rest), Lines(t));
    }
  }

  /** Tabs, then other tokens, then the end of line; never an empty line. */
  ghost predicate LineShape(line: TokenLine) {
    |line| >= 2 && line[|line| - 1] == NewLine && Open(line[..|line| - 1])
  }

  ghost predicate Open(line: TokenLine) {
    NoEnd(line) && forall i, j :: 0 <= i < j < |line| && line[j] == Tab ==> line[i] == Tab
  }

  lemma {:induction false} TrimOpen(s: seq<Token>)
    requires NoEnd(s)
    ensures Open(Trim(s)) && Words(Trim(s)) == Words(s)
  {
    if s != [] && s[0].Tab? {
      TrimOpen(s[1..]);
      OpenBehindTab(Trim(s[1..]));
    } else {
      WordsPlain(s);
    }
  }

  lemma OpenBehindTab(line: TokenLine)
    requires Open(line)
    ensures Open([Tab] + line) && Words([Tab] + line) == Words(line)
  {
    var longer := [Tab] + line;
    assert longer[1..] == line;
    assert forall i :: 1 <= i < |longer| ==> longer[i] == line[i - 1];
  }

  function AllWords(lines: seq<TokenLine>): seq<Token> {
    if lines == [] then [] else Words(lines[0]) + AllWords(lines[1..])
  }

  ghost predicate AllShaped(lines: seq<TokenLine>) {
    forall l :: l in lines ==> LineShape(l)
  }

  lemma ClosedShape(line: TokenLine)
    requires Open(line) && line != []
    ensures LineShape(line + [NewLine]) && Words(line + [NewLine]) == Words(line)
  {
    var closed := line + [NewLine];
    assert closed[..|closed| - 1] == line;
    WordsJoin(line, [NewLine]);
    WordsOne(NewLine);
  }

  lemma AllWordsCons(line: TokenLine, more: seq<TokenLine>)
    requires LineShape(line) && AllShaped(more)
    ensures AllShaped([line] + more) && AllWords([line] + more) == Words(line) + AllWords(more)
  {
    assert ([line] + more)[1..] == more;
  }

  /** One more line in front. */
  lemma LineShaped(s: seq<Token>, more: seq<TokenLine>)
    requires NoEnd(s) && AllShaped(more)
    ensures AllShaped(OneLine(s) + more) && AllWords(OneLine(s) + more) == Words(s) + AllWords(more)
  {
    if s == [] {
      assert OneLine(s) + more == more;
    } else {
      TrimEmpty(s);
      TrimOpen(s);
      ClosedShape(Trim(s));
      AllWordsCons(Trim(s) + [NewLine], more);
    }
  }

  lemma WordsSplit(s: seq<Token>, k: nat)
    requires k < |s| && s[k] == NewLine
    ensures Words(s) == Words(s[..k]) + Words(s[k + 1..])
  {
    var rest := s[k + 1..];
    assert s == s[..k] + [NewLine] + rest;
    WordsJoin(s[..k], [NewLine]);
    WordsOne(NewLine);
    WordsJoin(s[..k] + [NewLine], rest);
  }

  /** Every line has its tabs in front and its end of line at the end, and no content is lost or reordered. */
  lemma {:induction false} LinesShaped(s: seq<Token>)
    ensures AllShaped(Lines(s)) && AllWords(Lines(s)) == Words(s)
    decreases |s|
  {
    var k := LineEnd(s);
    LineEndFacts(s, k);
    if k < |s| {
      LinesShaped(s[k + 1..]);
      LineCut(s, k, s[..k], s[k + 1..]);
      LineShaped(s[..k], Lines(s[k + 1..]));
      WordsSplit(s, k);
    } else {
      LastLine(s);
      LineShaped(s, []);
      assert OneLine(s) + [] == OneLine(s);
    }
  }

  // ---------------------------------------------------------------------------
  // The tokenizer
  // ---------------------------------------------------------------------------

  class Tokenizer {
    var input: string
    var program: seq<TokenLine>

    constructor (text: string)
      ensures input == text && program == []
    {
      input, program := text, [];
    }

    method ReadNumber() returns (n: nat, ghost s: string)
      requires input != [] && Digit(input[0])
      modifies this`input
      ensures old(input) == s + input && Spells(Number(n), s) && Maximal(Number(n), input)
    {
      n, s := 0, [];
      while |input| > 0 && Digit(input[0])
        invariant old(input) == s + input && AllDigits(s) && n == NumberValue(s)
        invariant s == [] ==> input == old(input)
        decreases |input|
      {
        var c := input[0];
        n := WordMatrix.Wrap(10 * n + (c as int - '0' as int));
        assert (s + [c])[..|s|] == s;
        s := s + [c];
        input := input[1..];
      }
    }

    method ReadWord() returns (s: string)
      requires input != [] && Letter(input[0])
      modifies this`input
      ensures old(input) == s + input && s != [] && Letter(s[0]) && AllWord(s)
      ensures input != [] ==> !WordChar(input[0])
    {
      s := [];
      while |input| > 0 && WordChar(input[0])
        invariant old(input) == s + input && AllWord(s)
        invariant s == [] ==> input == old(input)
        decreases |input|
      {
        s := s + [input[0]];
        input := input[1..];
      }
    }

    /** Up to four spaces. */
    method ReadSpaces() returns (k: nat)
      requires input != [] && input[0] == ' '
      modifies this`input
      ensures 1 <= k <= 4 && old(input) == Spaces(k) + input
      ensures k < 4 && input != [] ==> input[0] != ' '
    {
      k := 0;
      while |input| > 0 && input[0] == ' ' && k < 4
        invariant k <= 4 && old(input) == Spaces(k) + input
        invariant k == 0 ==> input == old(input)
        decreases |input|
      {
        assert Spaces(k + 1) == Spaces(k) + [' '];
        input := input[1..];
        k := k + 1;
      }
    }

    /** A token that begins right here, not with a space. */
    method ReadToken() returns (t: Token, ghost s: string)
      requires input != [] && input[0] != ' '
      modifies this`input
      ensures old(input) == s + input && Spells(t, s) && s != [] && Maximal(t, input) && !t.Tab?
    {
      var c := input[0];
      if Digit(c) {
        var n;
        n, s := ReadNumber();
        t := Number(n);
      } else if Letter(c) {
        var w := ReadWord();
        s := w;
        t := if w == "for" then For else Name(w);
      } else {
        s := [c];
        t := if c == '\n' then NewLine else if Operation(c) then Symbol(c) else if c == '=' then Eqv else BadToken;
        input := input[1..];
      }
    }

    /** The next token, after fewer than four spaces; None at the end of the input. */
    method Consume() returns (t: Option<Token>)
      modifies this`input
      ensures t.None? ==> Trailing(old(input))
      ensures t.Some? ==> OneToken(old(input), t.value, input) && |input| < |old(input)|
    {
      var k := 0;
      if |input| > 0 && input[0] == ' ' {
        k := ReadSpaces();
        if k == 4 {
          assert Spaces(4) == "    " && Spaces(0) == [];
          TokenAfter(0, "    ", Tab, input, old(input));
          return Some(Tab);
        }
      }
      if |input| == 0 {
        return None;
      }
      var token, s := ReadToken();
      TokenAfter(k, s, token, input, old(input));
      t := Some(token);
    }

    /** Adds a token to the line being collected, or closes the line. */
    method Take(token: Token, line: TokenLine, ghost done: seq<Token>, ghost rest: seq<Token>)
      returns (line': TokenLine, ghost done': seq<Token>, ghost rest': seq<Token>)
      requires Collected(program, line, done, rest)
      modifies this`program
      ensures Collected(program, line', done', rest') && done' + rest' == done + rest + [token]
    {
      assert done + (rest + [token]) + [] == done + rest + [token];
      line', done', rest' := line, done, rest + [token];
      if token == NewLine {
        Closed(program, line, done, rest);
        done', rest' := done + rest', [];
        if |line| > 0 {
          program := program + [line + [NewLine]];
          line' := [];
        }
      } else {
        Extended(program, line, done, rest, token);
        if token != Tab || |line| == 0 || line[|line| - 1] == Tab {
          line' := line + [token];
        }
      }
    }

    /** The lines of the program are exactly the lines of the text's tokens. */
    method Tokenize() returns (ghost stream: seq<Token>, ghost cuts: seq<string>)
      requires program == []
      modifies this
      ensures Lexed(old(input), stream, cuts) && program == Lines(stream)
    {
      var line: TokenLine := [];
      ghost var done: seq<Token>, rest: seq<Token> := [], [];
      stream, cuts := [], [input];
      while true
        invariant Collected(program, line, done, rest) && stream == done + rest
        invariant Reads(old(input), stream, cuts) && cuts[|stream|] == input
        decreases |input|
      {
        var t := Consume();
        if t.None? {
          break;
        }
        ReadsOneMore(old(input), stream, cuts, t.value, input);
        line, done, rest := Take(t.value, line, done, rest);
        stream, cuts := stream + [t.value], cuts + [input];
      }
      Closed(program, line, done, rest);
      if |line| > 0 {
        program := program + [line + [NewLine]];
      }
    }
  }

  /** The finished lines hold the tokens of done, the line being collected those of rest. */
  ghost predicate Collected(program: seq<TokenLine>, line: TokenLine, done: seq<Token>, rest: seq<Token>) {
    Whole(done) && NoEnd(rest) && program == Lines(done) && line == Trim(rest)
  }

  /** What an end of line, or the end of the text, makes of the lines collected so far. */
  lemma Closed(program: seq<TokenLine>, line: TokenLine, done: seq<Token>, rest: seq<Token>)
    requires Collected(program, line, done, rest)
    ensures var lines := if line == [] then program else program + [line + [NewLine]];
            && lines == Lines(done + rest) && Collected(lines, [], done + (rest + [NewLine]), [])
  {
    TrimEmpty(rest);
    LastLine(rest);
    LinesJoin(done, rest);
    LinesJoin(done, rest + [NewLine]);
  }

  lemma Extended(program: seq<TokenLine>, line: TokenLine, done: seq<Token>, rest: seq<Token>, token: Token)
    requires Collected(program, line, done, rest) && token != NewLine
    ensures Collected(program, Grown(line, token), done, rest + [token])
  {
    TrimAppend(rest, token);
  }

  lemma ShapedLinesEnd(lines: seq<TokenLine>)
    requires AllShaped(lines)
    ensures LoopInterpreter.AllEnd(lines)
  {
    forall i | 0 <= i < |lines| ensures Ends(lines[i]) {
      assert lines[i] in lines;
    }
  }

  // ---------------------------------------------------------------------------
  // The text determines the lines
  // ---------------------------------------------------------------------------

  ghost predicate LinesOf(text: string, lines: seq<TokenLine>) {
    exists stream, cuts :: Lexed(text, stream, cuts) && lines == Lines(stream)
  }

  lemma SpellingStarts(t: Token, s: string)
    requires Spells(t, s)
    ensures s != [] && (s[0] == ' ' <==> t.Tab?)
  {
  }

  /** What the text shows of its first token. */
  lemma FirstToken(text: string, k: nat, s: string, t: Token, rest: string)
    requires Starts(text, k, s, t, rest)
    ensures |text| > k && (forall i :: 0 <= i < k ==> text[i] == ' ') && text[k..] == s + rest
    ensures if t.Tab? then |text| >= 4 && (forall i :: 0 <= i < 4 ==> text[i] == ' ') else text[k] != ' '
  {
    SpellingStarts(t, s);
    assert text[k..] == s + rest && text[k] == s[0];
    assert forall i :: 0 <= i < k ==> text[i] == Spaces(k)[i];
    if t.Tab? {
      assert Spaces(0) == [] && text == s + rest;
    }
  }

  lemma CommonPrefix(s: string, rest: string, s': string, rest': string)
    requires s + rest == s' + rest' && |s| <= |s'|
    ensures forall i :: 0 <= i < |s| ==> s[i] == s'[i]
    ensures if |s| < |s'| then rest != [] && rest[0] == s'[|s|] else s == s' && rest == rest'
  {
    var whole := s + rest;
    assert forall i :: 0 <= i < |s| ==> s[i] == whole[i];
    assert forall i :: 0 <= i < |s'| ==> s'[i] == whole[i];
    assert rest == whole[|s|..] && rest' == whole[|s'|..];
  }

  lemma SpellingUnique(s: string, t: Token, rest: string, s': string, t': Token, rest': string)
    requires s + rest == s' + rest' && Spells(t, s) && Spells(t', s') && Maximal(t, rest)
    requires |s| <= |s'| && !t.Tab? && !t'.Tab?
    ensures t == t' && rest == rest'
  {
    SpellingStarts(t, s);
    CommonPrefix(s, rest, s', rest');
  }

  lemma TokenUnique(text: string, t: Token, rest: string, t': Token, rest': string)
    requires OneToken(text, t, rest) && OneToken(text, t', rest')
    ensures t == t' && rest == rest'
  {
    var k: nat, s :| Starts(text, k, s, t, rest);
    var k': nat, s' :| Starts(text, k', s', t', rest');
    FirstToken(text, k, s, t, rest);
    FirstToken(text, k', s', t', rest');
    assert k == k' && (t.Tab? <==> t'.Tab?);
    if t.Tab? {
      CommonPrefix(s, rest, s', rest');
    } else {
      if |s| <= |s'| {
        SpellingUnique(s, t, rest, s', t', rest');
      } else {
        SpellingUnique(s', t', rest', s, t, rest);
      }
    }
  }

  lemma TrailingHasNoToken(text: string, t: Token, rest: string)
    requires Trailing(text)
    ensures !OneToken(text, t, rest)
  {
    assert forall i :: 0 <= i < |text| ==> text[i] == Spaces(|text|)[i];
    if OneToken(text, t, rest) {
      var k: nat, s :| Starts(text, k, s, t, rest);
      FirstToken(text, k, s, t, rest);
      assert false;
    }
  }

  /** A text has one sequence of tokens. */
  lemma {:induction false} LexedUnique(text: string, stream: seq<Token>, cuts: seq<string>, stream': seq<Token>, cuts': seq<string>)
    requires Lexed(text, stream, cuts) && Lexed(text, stream', cuts')
    ensures stream == stream'
    decreases |stream|
  {
    if stream == [] || stream' == [] {
      if stream != [] {
        assert CutOk(stream, cuts, 0);
        TrailingHasNoToken(text, stream[0], cuts[1]);
      } else if stream' != [] {
        assert CutOk(stream', cuts', 0);
        TrailingHasNoToken(text, stream'[0], cuts'[1]);
      }
    } else {
      assert CutOk(stream, cuts, 0) && CutOk(stream', cuts', 0);
      TokenUnique(text, stream[0], cuts[1], stream'[0], cuts'[1]);
      LexedTail(text, stream, cuts);
      LexedTail(text, stream', cuts');
      LexedUnique(cuts[1], stream[1..], cuts[1..], stream'[1..], cuts'[1..]);
      assert stream == [stream[0]] + stream[1..] && stream' == [stream'[0]] + stream'[1..];
    }
  }

  lemma LexedTail(text: string, stream: seq<Token>, cuts: seq<string>)
    requires Lexed(text, stream, cuts) && stream != []
    ensures Lexed(cuts[1], stream[1..], cuts[1..])
  {
    forall i | 0 <= i < |stream| - 1 ensures CutOk(stream[1..], cuts[1..], i) {
      assert CutOk(stream, cuts, i + 1);
    }
  }

  /** The text determines the lines: their breaks, their indentation and their content. */
  lemma LinesDetermined(text: string, lines: seq<TokenLine>, lines': seq<TokenLine>)
    requires LinesOf(text, lines) && LinesOf(text, lines')
    ensures lines == lines'
  {
    var stream, cuts :| Lexed(text, stream, cuts) && lines == Lines(stream);
    var stream', cuts' :| Lexed(text, stream', cuts') && lines' == Lines(stream');
    LexedUnique(text, stream, cuts, stream', cuts');
  }

  /**
    From text to variable values: None where the source throws, otherwise what executing the
    program statement by statement and iteration by iteration gives.
  */
  method RunProgram(text: string) returns (values: Option<map<string, int>>, lines: seq<TokenLine>)
    ensures LinesOf(text, lines)
    ensures values.Some? <==> LoopInterpreter.Meaning(lines).Some?
    ensures values.Some? ==>
              var vars := LoopInterpreter.AllVars(map[], lines);
              && values.value.Keys == vars.Keys
              && forall x :: x in vars ==> values.value[x] == LinearForm.Nth(LoopInterpreter.Meaning(lines).value, vars[x])
  {
    var tokenizer := new Tokenizer(text);
    ghost var stream, cuts := tokenizer.Tokenize();
    lines := tokenizer.program;
    assert Lexed(text, stream, cuts);
    LinesShaped(stream);
    ShapedLinesEnd(lines);
    values := LoopInterpreter.Run(lines);
  }
}
