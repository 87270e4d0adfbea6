/** The bytes of the protocol written out: types, command names and terminators as text. */
module RespWire {
  import opened Common
  import opened RespNumbers
  import opened Resp
  import RC = RespConnection

  /** The bytes of a text. */
  function Ascii(s: string): Bytes {
    seq(|s|, i requires 0 <= i < |s| => if s[i] as int < 128 then s[i] as int else 0)
  }

  lemma Literals()
    ensures Ascii("*") == [42] && Ascii("$") == [36] && Ascii(":") == [58] && Ascii("\r\n") == [13, 10]
    ensures Ascii("GET") == [71, 69, 84] && Ascii("SET") == [83, 69, 84] && Ascii("OK") == [79, 75]
    ensures Ascii("INCR") == [73, 78, 67, 82] && Ascii("DECR") == [68, 69, 67, 82]
  {
  }

  // ---------------------------------------------------------------------------
  // Types and lengths
  // ---------------------------------------------------------------------------

  /** The character that announces a type. */
  function Mark(t: RespType): string {
    match t
    case SimpleString => "+"
    case Int => ":"
    case Error => "-"
    case BulkString => "$"
    case Array => "*"
  }

  lemma ParseTypeExact(input: Bytes, t: RespType, rest: Bytes)
    ensures ParseType(input) == Got(t, rest) <==> input == Ascii(Mark(t)) + rest
  {
    if input == Ascii(Mark(t)) + rest {
      assert input[0] == Ascii(Mark(t))[0] && input[1..] == rest;
    }
    if ParseType(input) == Got(t, rest) {
      assert input == [input[0]] + input[1..] && Ascii(Mark(t)) == [input[0]];
    }
  }

  /** The bytes of a length line: white space, a sign, digits, CR LF. */
  ghost predicate LengthLine(input: Bytes, white: Bytes, sign: Bytes, digits: Bytes, v: int, rest: Bytes) {
    && Spells(white, sign, digits, v) && Clean(white) && |white + sign + digits| <= MAX_LINE
    && input == white + sign + digits + Ascii("\r\n") + rest
  }

  ghost predicate IsLength(input: Bytes, v: int, rest: Bytes) {
    v >= -1 && exists white, sign, digits :: LengthLine(input, white, sign, digits, v, rest)
  }

  lemma LengthLineParses(input: Bytes, white: Bytes, sign: Bytes, digits: Bytes, v: int, rest: Bytes)
    requires LengthLine(input, white, sign, digits, v, rest) && v >= -1
    ensures ParseLength(input) == Got(v, rest)
  {
    var line := white + sign + digits;
    Literals();
    CleanNumber(white, sign, digits, v);
    TakeLineExact(input, line, rest);
    WholeNumberExact(line, v);
  }

  lemma ParseLengthExact(input: Bytes, v: int, rest: Bytes)
    ensures ParseLength(input) == Got(v, rest) <==> IsLength(input, v, rest)
  {
    if ParseLength(input) == Got(v, rest) {
      var line := TakeLine(input).value;
      TakeLineExact(input, line, rest);
      WholeNumberExact(line, v);
      var white, sign, digits :| Spells(white, sign, digits, v) && line == white + sign + digits;
      CleanNumber(white, sign, digits, v);
      Literals();
      assert LengthLine(input, white, sign, digits, v, rest);
    }
    if v >= -1 {
      if white, sign, digits :| LengthLine(input, white, sign, digits, v, rest) {
        LengthLineParses(input, white, sign, digits, v, rest);
      }
    }
  }

  // ---------------------------------------------------------------------------
  // Bulk strings
  // ---------------------------------------------------------------------------

  ghost predicate After(input: Bytes, mark: string, tail: Bytes) {
    input == Ascii(mark) + tail
  }

  ghost predicate IsBulk(input: Bytes, s: Bytes, rest: Bytes) {
    exists tail :: After(input, "$", tail) && IsLength(tail, |s|, s + Ascii("\r\n") + rest)
  }

  ghost predicate IsNull(input: Bytes, rest: Bytes) {
    exists tail :: After(input, "$", tail) && IsLength(tail, -1, rest)
  }

  lemma TakeBodyExact(n: nat, input: Bytes, s: Bytes, rest: Bytes)
    ensures TakeBody(n, input) == Got(Some(s), rest) <==> |s| == n && input == s + Ascii("\r\n") + rest
  {
    Literals();
    if |s| == n && input == s + Ascii("\r\n") + rest {
      ReadsBody(s, rest);
    }
    if TakeBody(n, input) == Got(Some(s), rest) {
      assert input == input[..n] + [input[n], input[n + 1]] + input[n + 2..];
    }
  }

  lemma TypedBulk(input: Bytes, tail: Bytes)
    requires After(input, "$", tail)
    ensures ParseTypedBulk(input) == ParseBulk(tail)
  {
    ParseTypeExact(input, BulkString, tail);
  }

  lemma BulkParses(input: Bytes, tail: Bytes, s: Bytes, rest: Bytes)
    requires After(input, "$", tail) && IsLength(tail, |s|, s + Ascii("\r\n") + rest)
    ensures ParseTypedBulk(input) == Got(Some(s), rest)
  {
    TypedBulk(input, tail);
    ParseLengthExact(tail, |s|, s + Ascii("\r\n") + rest);
    TakeBodyExact(|s|, s + Ascii("\r\n") + rest, s, rest);
  }

  lemma ParsedBulk(input: Bytes, s: Bytes, rest: Bytes)
    requires ParseTypedBulk(input) == Got(Some(s), rest)
    ensures IsBulk(input, s, rest)
  {
    var tail := ParseType(input).rest;
    ParseTypeExact(input, BulkString, tail);
    var n := ParseLength(tail);
    TakeBodyExact(n.value, n.rest, s, rest);
    ParseLengthExact(tail, |s|, s + Ascii("\r\n") + rest);
    assert After(input, "$", tail) && IsLength(tail, |s|, s + Ascii("\r\n") + rest);
  }

  lemma ParseBulkExact(input: Bytes, s: Bytes, rest: Bytes)
    ensures ParseTypedBulk(input) == Got(Some(s), rest) <==> IsBulk(input, s, rest)
  {
    if ParseTypedBulk(input) == Got(Some(s), rest) {
      ParsedBulk(input, s, rest);
    }
    if tail :| After(input, "$", tail) && IsLength(tail, |s|, s + Ascii("\r\n") + rest) {
      BulkParses(input, tail, s, rest);
    }
  }

  lemma ParseNullExact(input: Bytes, rest: Bytes)
    ensures ParseTypedBulk(input) == Got(None, rest) <==> IsNull(input, rest)
  {
    if ParseTypedBulk(input) == Got(None, rest) {
      var tail := ParseType(input).rest;
      ParseTypeExact(input, BulkString, tail);
      ParseLengthExact(tail, -1, rest);
      assert After(input, "$", tail) && IsLength(tail, -1, rest);
    }
    if tail :| After(input, "$", tail) && IsLength(tail, -1, rest) {
      TypedBulk(input, tail);
      ParseLengthExact(tail, -1, rest);
    }
  }

  // ---------------------------------------------------------------------------
  // Commands
  // ---------------------------------------------------------------------------

  ghost predicate IsHeader(input: Bytes, n: int, rest: Bytes) {
    exists tail :: After(input, "*", tail) && IsLength(tail, n, rest)
  }

  lemma ParseHeaderExact(input: Bytes, n: int, rest: Bytes)
    ensures RC.ParseHeader(input) == Got(n, rest) <==> (n == 2 || n == 3) && IsHeader(input, n, rest)
  {
    if RC.ParseHeader(input) == Got(n, rest) {
      var tail := ParseType(input).rest;
      ParseTypeExact(input, Array, tail);
      ParseLengthExact(tail, n, rest);
      assert After(input, "*", tail) && IsLength(tail, n, rest);
    }
    if n == 2 || n == 3 {
      if tail :| After(input, "*", tail) && IsLength(tail, n, rest) {
        ParseTypeExact(input, Array, tail);
        ParseLengthExact(tail, n, rest);
      }
    }
  }

  /** An array of two bulk strings: this name and a key. */
  ghost predicate IsPair(input: Bytes, name: string, key: Bytes, rest: Bytes) {
    exists a, b :: IsHeader(input, 2, a) && IsBulk(a, Ascii(name), b) && IsBulk(b, key, rest)
  }

  /** An array of three: this name, a key and a value. */
  ghost predicate IsTriple(input: Bytes, name: string, key: Bytes, value: Bytes, rest: Bytes) {
    exists a, b, d :: IsHeader(input, 3, a) && IsBulk(a, Ascii(name), b) && IsBulk(b, key, d) && IsBulk(d, value, rest)
  }

  ghost predicate IsCommand(input: Bytes, c: RC.Command, rest: Bytes) {
    match c
    case Get(key) => IsPair(input, "GET", key, rest)
    case Set(key, value) => IsTriple(input, "SET", key, value, rest)
    case Incr(key) => IsPair(input, "INCR", key, rest)
    case Decr(key) => IsPair(input, "DECR", key, rest)
  }

  /** What the names mean. */
  lemma NameMeaning(name: Bytes, key: Bytes, value: Bytes, c: RC.Command)
    ensures RC.CommandOf(name, key, value) == Some(c) <==>
            || (c == RC.Get(key) && name == Ascii("GET"))
            || (c == RC.Set(key, value) && name == Ascii("SET"))
            || (c == RC.Incr(key) && name == Ascii("INCR"))
            || (c == RC.Decr(key) && name == Ascii("DECR"))
    ensures RC.LengthFor(name) == if name == Ascii("SET") then 3 else 2
  {
    Literals();
  }

  lemma ParseArgumentExact(input: Bytes, s: Bytes, rest: Bytes)
    ensures RC.ParseArgument(input) == Got(s, rest) <==> IsBulk(input, s, rest)
  {
    ParseBulkExact(input, s, rest);
  }

  lemma PairParses(input: Bytes, name: string, key: Bytes, rest: Bytes, c: RC.Command)
    requires IsPair(input, name, key, rest) && Ascii(name) != Ascii("SET")
    requires RC.CommandOf(Ascii(name), key, []) == Some(c) && RC.CommandOf(Ascii(name), [], []).Some?
    ensures RC.ParseCommand(input) == Got(c, rest)
  {
    var a, b :| IsHeader(input, 2, a) && IsBulk(a, Ascii(name), b) && IsBulk(b, key, rest);
    ParseHeaderExact(input, 2, a);
    ParseArgumentExact(a, Ascii(name), b);
    ParseArgumentExact(b, key, rest);
    NameMeaning(Ascii(name), key, [], c);
  }

  lemma TripleParses(input: Bytes, key: Bytes, value: Bytes, rest: Bytes)
    requires IsTriple(input, "SET", key, value, rest)
    ensures RC.ParseCommand(input) == Got(RC.Set(key, value), rest)
  {
    var a, b, d :| IsHeader(input, 3, a) && IsBulk(a, Ascii("SET"), b) && IsBulk(b, key, d) && IsBulk(d, value, rest);
    ParseHeaderExact(input, 3, a);
    ParseArgumentExact(a, Ascii("SET"), b);
    ParseArgumentExact(b, key, d);
    ParseArgumentExact(d, value, rest);
    NameMeaning(Ascii("SET"), key, value, RC.Set(key, value));
    NameMeaning(Ascii("SET"), [], [], RC.Set([], []));
  }

  lemma CommandParses(input: Bytes, c: RC.Command, rest: Bytes)
    requires IsCommand(input, c, rest)
    ensures RC.ParseCommand(input) == Got(c, rest)
  {
    Literals();
    match c {
      case Get(key) => PairParses(input, "GET", key, rest, c);
      case Set(key, value) => TripleParses(input, key, value, rest);
      case Incr(key) => PairParses(input, "INCR", key, rest, c);
      case Decr(key) => PairParses(input, "DECR", key, rest, c);
    }
  }

  /** What a parsed command was read from. */
  lemma ParsedCommand(input: Bytes, c: RC.Command, rest: Bytes)
    requires RC.ParseCommand(input) == Got(c, rest)
    ensures IsCommand(input, c, rest)
  {
    var n := RC.ParseHeader(input);
    var name := RC.ParseName(n.value, n.rest);
    var key := RC.ParseArgument(name.rest);
    ParseHeaderExact(input, n.value, n.rest);
    ParseArgumentExact(n.rest, name.value, name.rest);
    ParseArgumentExact(name.rest, key.value, key.rest);
    Literals();
    if n.value == 2 {
      NameMeaning(name.value, key.value, [], c);
      PairRead(input, n.rest, name.rest, name.value, key.value, rest);
    } else {
      var value := RC.ParseArgument(key.rest);
      ParseArgumentExact(key.rest, value.value, value.rest);
      NameMeaning(name.value, key.value, value.value, c);
      assert name.value == Ascii("SET");
      assert IsTriple(input, "SET", key.value, value.value, rest);
    }
  }

  lemma PairRead(input: Bytes, a: Bytes, b: Bytes, name: Bytes, key: Bytes, rest: Bytes)
    requires IsHeader(input, 2, a) && IsBulk(a, name, b) && IsBulk(b, key, rest)
    ensures name == Ascii("GET") ==> IsPair(input, "GET", key, rest)
    ensures name == Ascii("INCR") ==> IsPair(input, "INCR", key, rest)
    ensures name == Ascii("DECR") ==> IsPair(input, "DECR", key, rest)
  {
  }

  /** The server understands exactly these bytes, as exactly these commands. */
  lemma ParseCommandExact(input: Bytes, c: RC.Command, rest: Bytes)
    ensures RC.ParseCommand(input) == Got(c, rest) <==> IsCommand(input, c, rest)
  {
    if RC.ParseCommand(input) == Got(c, rest) {
      ParsedCommand(input, c, rest);
    }
    if IsCommand(input, c, rest) {
      CommandParses(input, c, rest);
    }
  }

  // ---------------------------------------------------------------------------
  // What is written
  // ---------------------------------------------------------------------------

  /** A bulk string on the wire. */
  function Bulk(s: Bytes): Bytes {
    Ascii("$") + ToString(|s|) + Ascii("\r\n") + s + Ascii("\r\n")
  }

  lemma BulkWritten(s: Bytes)
    ensures BulkOf(s) == Bulk(s)
  {
    Literals();
  }

  lemma HeadWritten(c: RC.Command)
    ensures ArrayOf(if c.Set? then 3 else 2) + BulkOf(RC.NameOf(c)) ==
            Ascii(match c
                  case Get(_) => "*2\r\n$3\r\nGET\r\n"
                  case Set(_, _) => "*3\r\n$3\r\nSET\r\n"
                  case Incr(_) => "*2\r\n$4\r\nINCR\r\n"
                  case Decr(_) => "*2\r\n$4\r\nDECR\r\n")
  {
    SmallNumbers();
  }

  /** The request of each command, byte by byte. */
  lemma RequestWritten(c: RC.Command)
    ensures RC.Request(c) ==
            match c
            case Get(key) => Ascii("*2\r\n$3\r\nGET\r\n") + Bulk(key)
            case Set(key, value) => Ascii("*3\r\n$3\r\nSET\r\n") + Bulk(key) + Bulk(value)
            case Incr(key) => Ascii("*2\r\n$4\r\nINCR\r\n") + Bulk(key)
            case Decr(key) => Ascii("*2\r\n$4\r\nDECR\r\n") + Bulk(key)
  {
    HeadWritten(c);
    BulkWritten(c.key);
    if c.Set? {
      BulkWritten(c.value);
    }
  }

  lemma SmallNumbers()
    ensures ToString(2) == [50] && ToString(3) == [51] && ToString(4) == [52]
  {
  }

  /** The reply to each outcome, byte by byte. */
  lemma ReplyWritten(o: RC.Outcome)
    ensures RC.Reply(o) ==
            match o
            case Found(v) => if v.Some? then Bulk(v.value) else Ascii("$-1\r\n")
            case Stored => Ascii("$2\r\nOK\r\n")
            case Changed(n) => Ascii(":") + ToString(n) + Ascii("\r\n")
  {
    Literals();
    SmallNumbers();
    if o.Found? && o.value.Some? {
      BulkWritten(o.value.value);
    }
    BulkWritten(RC.OK);
  }

  ghost predicate IsReply(c: RC.Command, input: Bytes, o: RC.Outcome, rest: Bytes) {
    match c
    case Get(_) => o.Found? && if o.value.Some? then IsBulk(input, o.value.value, rest) else IsNull(input, rest)
    case Set(_, _) => o.Stored? && IsBulk(input, Ascii("OK"), rest)
    case _ => o.Changed? && exists tail :: After(input, ":", tail) && IsInt(tail, o.now, rest)
  }

  lemma ChangedExact(c: RC.Command, input: Bytes, n: int, rest: Bytes)
    requires c.Incr? || c.Decr?
    ensures RC.ParseReply(c, input) == Got(RC.Changed(n), rest) <==>
            exists tail :: After(input, ":", tail) && IsInt(tail, n, rest)
  {
    if RC.ParseReply(c, input) == Got(RC.Changed(n), rest) {
      var tail := ParseType(input).rest;
      ParseTypeExact(input, Int, tail);
      ParseIntExact(tail, n, rest);
      assert After(input, ":", tail) && IsInt(tail, n, rest);
    }
    if tail :| After(input, ":", tail) && IsInt(tail, n, rest) {
      ParseTypeExact(input, Int, tail);
      ParseIntExact(tail, n, rest);
    }
  }

  /** The client understands exactly these bytes as the reply to its command. */
  lemma ParseReplyExact(c: RC.Command, input: Bytes, o: RC.Outcome, rest: Bytes)
    ensures RC.ParseReply(c, input) == Got(o, rest) <==> IsReply(c, input, o, rest)
  {
    Literals();
    match c {
      case Get(_) =>
        if o.Found? && o.value.Some? {
          ParseBulkExact(input, o.value.value, rest);
        } else {
          ParseNullExact(input, rest);
        }
      case Set(_, _) => ParseBulkExact(input, Ascii("OK"), rest);
      case _ =>
        if o.Changed? {
          ChangedExact(c, input, o.now, rest);
        }
    }
  }
}
