/**
  The RESP reader and writer, and the request and reply framing of the redis client and server.
  The connection is a byte sequence that the reader consumes and the writer extends.
*/
module Resp {
  import opened Common
  import opened RespNumbers

  const CR: Byte := 13
  const LF: Byte := 10

  datatype RespType = SimpleString | Int | Error | BulkString | Array

  function TypeByte(t: RespType): Byte {
    match t
    case SimpleString => 43
    case Int => 58
    case Error => 45
    case BulkString => 36
    case Array => 42
  }

  /** A value read from the front of the input and what follows it, or an exception. */
  datatype Read<T> = Got(value: T, rest: Bytes) | Fail

  // ---------------------------------------------------------------------------
  // Lines
  // ---------------------------------------------------------------------------

  const FIRST_BUFFER: nat := 1023
  const BUFFER_LIMIT: nat := 65536

  /** The longest line the doubling buffer lets through. */
  const MAX_LINE: nat := 65471

  predicate Ends(b: Byte) {
    b == CR || b == LF
  }

  ghost predicate Clean(s: Bytes) {
    forall i :: 0 <= i < |s| ==> !Ends(s[i])
  }

  /** The input begins with this line and its terminator. */
  ghost predicate IsLine(input: Bytes, line: Bytes, rest: Bytes) {
    input == line + [CR, LF] + rest && Clean(line) && |line| <= MAX_LINE
  }

  /** The number of bytes before the first CR or LF. */
  function Run(s: Bytes): (k: nat)
    ensures k <= |s| && (k < |s| ==> Ends(s[k])) && Clean(s[..k])
  {
    if s == [] || Ends(s[0]) then 0
    else
      var k := Run(s[1..]);
      assert s[..1 + k] == [s[0]] + s[1..][..k];
      1 + k
  }

  function TakeLine(input: Bytes): Read<Bytes> {
    var k := Run(input);
    if k <= MAX_LINE && k + 1 < |input| && input[k] == CR && input[k + 1] == LF then Got(input[..k], input[k + 2..])
    else Fail
  }

  lemma RunUnique(s: Bytes, k: nat)
    requires k < |s| && Ends(s[k]) && Clean(s[..k])
    ensures Run(s) == k
  {
    var r := Run(s);
    forall i | 0 <= i < k ensures !Ends(s[i]) {
      assert s[..k][i] == s[i];
    }
    forall i | 0 <= i < r ensures !Ends(s[i]) {
      assert s[..r][i] == s[i];
    }
  }

  /** The line reader accepts exactly the lines that are clean, ended by CR LF and not too long. */
  lemma TakeLineExact(input: Bytes, line: Bytes, rest: Bytes)
    ensures TakeLine(input) == Got(line, rest) <==> IsLine(input, line, rest)
  {
    if IsLine(input, line, rest) {
      assert input[..|line|] == line && input[|line|] == CR && input[|line| + 1] == LF;
      RunUnique(input, |line|);
      assert input[|line| + 2..] == rest;
    }
    if TakeLine(input) == Got(line, rest) {
      var k := Run(input);
      assert input == input[..k] + [input[k], input[k + 1]] + input[k + 2..];
    }
  }

  // ---------------------------------------------------------------------------
  // What the reader makes of an input
  // ---------------------------------------------------------------------------

  function ParseType(input: Bytes): Read<RespType> {
    if input == [] then Fail
    else if input[0] == TypeByte(SimpleString) then Got(SimpleString, input[1..])
    else if input[0] == TypeByte(Int) then Got(Int, input[1..])
    else if input[0] == TypeByte(Error) then Got(Error, input[1..])
    else if input[0] == TypeByte(BulkString) then Got(BulkString, input[1..])
    else if input[0] == TypeByte(Array) then Got(Array, input[1..])
    else Fail
  }

  /** The whole line as a number. */
  function WholeNumber(line: Bytes): Option<int> {
    var p := Stoll(line);
    if p.Some? && p.value.end == |line| then Some(p.value.value) else None
  }

  function ParseInt(input: Bytes): Read<int> {
    var l := TakeLine(input);
    if l.Got? && WholeNumber(l.value).Some? && l.value != [] && l.value[0] != SPACE
    then Got(WholeNumber(l.value).value, l.rest) else Fail
  }

  function ParseLength(input: Bytes): Read<int> {
    var l := TakeLine(input);
    if l.Got? && WholeNumber(l.value).Some? && WholeNumber(l.value).value >= -1
    then Got(WholeNumber(l.value).value, l.rest) else Fail
  }

  /** The bytes of a bulk string of known length and its terminator. */
  function TakeBody(n: nat, input: Bytes): Read<Option<Bytes>> {
    if n + 2 <= |input| && input[n] == CR && input[n + 1] == LF then Got(Some(input[..n]), input[n + 2..]) else Fail
  }

  function ParseBulk(input: Bytes): Read<Option<Bytes>> {
    var n := ParseLength(input);
    if n.Fail? then Fail else if n.value == -1 then Got(None, n.rest) else if n.value < 0 then Fail else TakeBody(n.value, n.rest)
  }

  // ---------------------------------------------------------------------------
  // What the writer writes
  // ---------------------------------------------------------------------------

  const END: Bytes := [CR, LF]

  function LineOf(t: RespType, s: Bytes): Bytes {
    [TypeByte(t)] + s + END
  }

  function IntOf(n: int): Bytes {
    LineOf(Int, ToString(n))
  }

  function BulkOf(s: Bytes): Bytes {
    LineOf(BulkString, ToString(|s|)) + s + END
  }

  const NULL_BULK: Bytes := LineOf(BulkString, [MINUS, 49])

  function ArrayOf(n: nat): Bytes {
    LineOf(Array, ToString(n))
  }

  // ---------------------------------------------------------------------------
  // Round trips
  // ---------------------------------------------------------------------------

  lemma ReadsType(t: RespType, rest: Bytes)
    ensures ParseType([TypeByte(t)] + rest) == Got(t, rest)
  {
    assert ([TypeByte(t)] + rest)[1..] == rest;
  }

  lemma ReadsLine(s: Bytes, rest: Bytes)
    requires Clean(s) && |s| <= MAX_LINE
    ensures TakeLine(s + END + rest) == Got(s, rest)
  {
    TakeLineExact(s + END + rest, s, rest);
  }

  lemma ReadsNumber(n: int, rest: Bytes)
    requires Int64(n)
    ensures TakeLine(ToString(n) + END + rest) == Got(ToString(n), rest) && WholeNumber(ToString(n)) == Some(n)
    ensures ToString(n) != [] && ToString(n)[0] != SPACE
  {
    ToStringClean(n);
    ToStringShort(n);
    ReadsLine(ToString(n), rest);
    StollOfToString(n);
  }

  lemma ReadsInt(n: int, rest: Bytes)
    requires Int64(n)
    ensures ParseType(IntOf(n) + rest) == Got(Int, ToString(n) + END + rest)
    ensures ParseInt(ToString(n) + END + rest) == Got(n, rest)
  {
    assert IntOf(n) + rest == [TypeByte(Int)] + (ToString(n) + END + rest);
    ReadsType(Int, ToString(n) + END + rest);
    ReadsNumber(n, rest);
  }

  lemma ReadsLength(t: RespType, n: int, rest: Bytes)
    requires Int64(n) && n >= -1
    ensures ParseType(LineOf(t, ToString(n)) + rest) == Got(t, ToString(n) + END + rest)
    ensures ParseLength(ToString(n) + END + rest) == Got(n, rest)
  {
    assert LineOf(t, ToString(n)) + rest == [TypeByte(t)] + (ToString(n) + END + rest);
    ReadsType(t, ToString(n) + END + rest);
    ReadsNumber(n, rest);
  }

  /** Reading a type and then a bulk string. */
  function ParseTypedBulk(input: Bytes): Read<Option<Bytes>> {
    var t := ParseType(input);
    if t.Got? && t.value.BulkString? then ParseBulk(t.rest) else Fail
  }

  lemma ReadsBody(s: Bytes, rest: Bytes)
    ensures TakeBody(|s|, s + END + rest) == Got(Some(s), rest)
  {
    var input := s + END + rest;
    assert input[..|s|] == s && input[|s|] == CR && input[|s| + 1] == LF && input[|s| + 2..] == rest;
  }

  /** Any bytes survive as a bulk string, and exactly their encoding is consumed. */
  lemma ReadsBulk(s: Bytes, rest: Bytes)
    requires Int64(|s|)
    ensures ParseTypedBulk(BulkOf(s) + rest) == Got(Some(s), rest)
  {
    var tail := s + END + rest;
    assert BulkOf(s) + rest == LineOf(BulkString, ToString(|s|)) + tail;
    ReadsLength(BulkString, |s|, tail);
    ReadsBody(s, rest);
  }

  lemma ReadsNullBulk(rest: Bytes)
    ensures ParseTypedBulk(NULL_BULK + rest) == Got(None, rest)
  {
    assert Digits(1) == [49] && ToString(-1) == [MINUS, 49];
    ReadsLength(BulkString, -1, rest);
  }

  // ---------------------------------------------------------------------------
  // Exactly which integers are accepted
  // ---------------------------------------------------------------------------

  lemma WholeNumberExact(line: Bytes, v: int)
    ensures WholeNumber(line) == Some(v) <==>
            exists white, sign, digits :: Spells(white, sign, digits, v) && line == white + sign + digits
  {
    if WholeNumber(line) == Some(v) {
      var white, sign, digits := SpelledOfStoll(line, v);
    }
    if white, sign, digits :| Spells(white, sign, digits, v) && line == white + sign + digits {
      StollOfSpelled(white, sign, digits, v);
    }
  }

  /** The bytes of an integer line: white space that does not begin with a space, a sign, digits, CR LF. */
  ghost predicate IntLine(input: Bytes, white: Bytes, sign: Bytes, digits: Bytes, v: int, rest: Bytes) {
    && Spells(white, sign, digits, v) && Clean(white) && (white != [] ==> white[0] != SPACE)
    && |white + sign + digits| <= MAX_LINE && input == white + sign + digits + [CR, LF] + rest
  }

  ghost predicate IsInt(input: Bytes, v: int, rest: Bytes) {
    exists white, sign, digits :: IntLine(input, white, sign, digits, v, rest)
  }

  lemma CleanNumber(white: Bytes, sign: Bytes, digits: Bytes, v: int)
    requires Spells(white, sign, digits, v)
    ensures Clean(white + sign + digits) <==> Clean(white)
    ensures (white + sign + digits)[0] == (if white != [] then white[0] else if sign != [] then sign[0] else digits[0])
  {
    var line := white + sign + digits;
    forall i | 0 <= i < |white| ensures line[i] == white[i] { }
    forall i | |white| <= i < |line| ensures !Ends(line[i]) {
      assert i >= |white| + |sign| ==> line[i] == digits[i - |white| - |sign|] && Digit(line[i]);
    }
  }

  lemma IntLineParses(input: Bytes, white: Bytes, sign: Bytes, digits: Bytes, v: int, rest: Bytes)
    requires IntLine(input, white, sign, digits, v, rest)
    ensures ParseInt(input) == Got(v, rest)
  {
    var line := white + sign + digits;
    CleanNumber(white, sign, digits, v);
    assert Digit(digits[0]);
    TakeLineExact(input, line, rest);
    WholeNumberExact(line, v);
  }

  /** ReadInt accepts exactly these inputs: other white space and a plus sign included, a leading space not. */
  lemma ParseIntExact(input: Bytes, v: int, rest: Bytes)
    ensures ParseInt(input) == Got(v, rest) <==> IsInt(input, v, rest)
  {
    if ParseInt(input) == Got(v, rest) {
      var line := TakeLine(input).value;
      TakeLineExact(input, line, rest);
      WholeNumberExact(line, v);
      var white, sign, digits :| Spells(white, sign, digits, v) && line == white + sign + digits;
      CleanNumber(white, sign, digits, v);
      assert IntLine(input, white, sign, digits, v, rest);
    }
    if white, sign, digits :| IntLine(input, white, sign, digits, v, rest) {
      IntLineParses(input, white, sign, digits, v, rest);
    }
  }

  /** `+5` is accepted, which the protocol does not write. */
  lemma PlusAccepted()
    ensures ParseInt([43, 53, 13, 10]) == Got(5, [])
  {
    FiveDigit();
    assert [] + [PLUS] + [53] == [43, 53];
    IntLineParses([43, 53, 13, 10], [], [PLUS], [53], 5, []);
  }

  /** `-5` is a negative number. */
  lemma MinusAccepted()
    ensures ParseInt([45, 53, 13, 10]) == Got(-5, [])
  {
    FiveDigit();
    assert [] + [MINUS] + [53] == [45, 53];
    IntLineParses([45, 53, 13, 10], [], [MINUS], [53], -5, []);
  }

  /** A tab before the digits is accepted. */
  lemma TabAccepted()
    ensures ParseInt([9, 53, 13, 10]) == Got(5, [])
  {
    FiveDigit();
    assert [9] + [] + [53] == [9, 53];
    IntLineParses([9, 53, 13, 10], [9], [], [53], 5, []);
  }

  lemma FiveDigit()
    ensures Magnitude([53]) == 5
  {
    assert [53][..0] == [];
  }

  /** A leading space is not. */
  lemma SpaceRejected()
    ensures ParseInt([32, 53, 13, 10]).Fail?
  {
    assert [SPACE, 53] + END + [] == [32, 53, 13, 10];
    ReadsLine([SPACE, 53], []);
  }
}
