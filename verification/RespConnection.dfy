/** The reader and writer objects, the server's command reader and the client's calls. */
module RespConnection {
  import opened Common
  import opened RespNumbers
  import opened Resp

  // ---------------------------------------------------------------------------
  // Reader and writer
  // ---------------------------------------------------------------------------

  class RespReader {
    /** The bytes not yet consumed. */
    var input: Bytes
    var buf: Bytes

    constructor (bytes: Bytes)
      ensures input == bytes
    {
      input, buf := bytes, [];
    }

    /** One byte, or nothing at the end of the input. */
    method ReadByte() returns (b: Option<Byte>)
      modifies this`input
      ensures b == if old(input) == [] then None else Some(old(input)[0])
      ensures input == if old(input) == [] then [] else old(input)[1..]
    {
      if |input| == 0 {
        return None;
      }
      b := Some(input[0]);
      input := input[1..];
    }

    method ReadType() returns (r: Option<RespType>)
      modifies this`input
      ensures r.Some? <==> ParseType(old(input)).Got?
      ensures r.Some? ==> ParseType(old(input)) == Got(r.value, input)
    {
      var b := ReadByte();
      if b.None? {
        return None;
      }
      match b.value {
        case 43 => r := Some(SimpleString);
        case 58 => r := Some(Int);
        case 45 => r := Some(Error);
        case 36 => r := Some(BulkString);
        case 42 => r := Some(Array);
        case _ => r := None;
      }
    }

    /** Fills buf up to the first CR, doubling it as needed up to the limit. */
    method ReadUntilCr() returns (ok: bool, size: nat)
      modifies this
      ensures !ok ==> TakeLine(old(input)).Fail?
      ensures ok ==> size < |buf| && size <= MAX_LINE && size < |old(input)| && old(input)[size] == CR
                     && buf[..size] == old(input)[..size] && Clean(old(input)[..size]) && input == old(input)[size + 1..]
    {
      ghost var all := input;
      buf := seq(FIRST_BUFFER, _ => 0);
      size := 0;
      while true
        invariant size < |buf| && |buf| <= BUFFER_LIMIT && Doubled(|buf|)
        invariant size <= |all| && input == all[size..] && buf[..size] == all[..size] && Clean(all[..size])
        decreases |input|
      {
        var b := ReadByte();
        if b.None? {
          NoTerminator(all, size);
          return false, size;
        }
        assert all[size..][0] == all[size];
        buf := buf[size := b.value];
        if buf[size] == CR {
          InBounds(|buf|, size);
          return true, size;
        }
        if buf[size] == LF {
          RunUnique(all, size);
          return false, size;
        }
        size := size + 1;
        assert all[..size] == all[..size - 1] + [all[size - 1]];
        if |buf| == size {
          if size * 2 > BUFFER_LIMIT {
            TooLong(all, size);
            return false, size;
          }
          buf := buf + seq(size, _ => 0);
        }
      }
    }

    /** Fills buf with the bytes before the terminator. */
    method ReadBasicStringToBuf() returns (ok: bool)
      modifies this
      ensures ok <==> TakeLine(old(input)).Got?
      ensures ok ==> TakeLine(old(input)) == Got(buf, input)
    {
      var size;
      ok, size := ReadUntilCr();
      if !ok {
        return false;
      }
      RunUnique(old(input), size);
      var b := ReadByte();
      if b.None? {
        return false;
      }
      buf := buf[size := b.value];
      if buf[size] != LF {
        return false;
      }
      buf := buf[..size];
      return true;
    }

    /** ReadSimpleString and ReadError. */
    method ReadString() returns (r: Option<Bytes>)
      modifies this
      ensures r.Some? <==> TakeLine(old(input)).Got?
      ensures r.Some? ==> TakeLine(old(input)) == Got(r.value, input)
    {
      var ok := ReadBasicStringToBuf();
      r := if ok then Some(buf) else None;
    }

    method ReadInt() returns (r: Option<int>)
      modifies this
      ensures r.Some? <==> ParseInt(old(input)).Got?
      ensures r.Some? ==> ParseInt(old(input)) == Got(r.value, input)
    {
      var ok := ReadBasicStringToBuf();
      if !ok {
        return None;
      }
      var p := Stoll(buf);
      if p.None? || p.value.end != |buf| || |buf| == 0 || buf[0] == SPACE {
        return None;
      }
      r := Some(p.value.value);
    }

    method ReadArrayLength() returns (r: Option<int>)
      modifies this
      ensures r.Some? <==> ParseLength(old(input)).Got?
      ensures r.Some? ==> ParseLength(old(input)) == Got(r.value, input)
    {
      var ok := ReadBasicStringToBuf();
      if !ok {
        return None;
      }
      var p := Stoll(buf);
      if p.None? || p.value.end != |buf| || p.value.value < -1 {
        return None;
      }
      r := Some(p.value.value);
    }

    method ReadFull(n: nat) returns (ok: bool)
      modifies this
      ensures ok <==> n <= |old(input)|
      ensures ok ==> buf == old(input)[..n] && input == old(input)[n..]
    {
      if n > |input| {
        return false;
      }
      buf, input := input[..n], input[n..];
      return true;
    }

    /** None: an exception; Some(None): the null string. */
    method ReadBulkString() returns (r: Option<Option<Bytes>>)
      modifies this
      ensures r.Some? <==> ParseBulk(old(input)).Got?
      ensures r.Some? ==> ParseBulk(old(input)) == Got(r.value, input)
    {
      var length := ReadArrayLength();
      if length.None? {
        return None;
      }
      if length.value == -1 {
        return Some(None);
      }
      var n := length.value;
      ghost var body := input;
      var ok := ReadFull(n + 2);
      if !ok {
        return None;
      }
      assert buf[n] == body[n] && buf[n + 1] == body[n + 1] && buf[..n] == body[..n];
      if buf[n] != CR || buf[n + 1] != LF {
        return None;
      }
      buf := buf[..n];
      return Some(Some(buf));
    }
  }

  class RespWriter {
    var output: Bytes

    constructor ()
      ensures output == []
    {
      output := [];
    }

    method Write(s: Bytes)
      modifies this
      ensures output == old(output) + s
    {
      output := output + s;
    }

    method FinishMessageField()
      modifies this
      ensures output == old(output) + END
    {
      Write(END);
    }

    /** A type byte, a text and the terminator: simple strings, errors, integers, array headers, the nulls. */
    method WriteLine(t: RespType, s: Bytes)
      modifies this
      ensures output == old(output) + LineOf(t, s)
    {
      Write([TypeByte(t)]);
      Write(s);
      FinishMessageField();
    }

    method WriteInt(n: int)
      modifies this
      ensures output == old(output) + IntOf(n)
    {
      WriteLine(Int, ToString(n));
    }

    method WriteBulkString(s: Bytes)
      modifies this
      ensures output == old(output) + BulkOf(s)
    {
      WriteLine(BulkString, ToString(|s|));
      Write(s);
      FinishMessageField();
    }

    method WriteNullBulkString()
      modifies this
      ensures output == old(output) + NULL_BULK
    {
      WriteLine(BulkString, [MINUS, 49]);
    }

    method StartArray(n: nat)
      modifies this
      ensures output == old(output) + ArrayOf(n)
    {
      WriteLine(Array, ToString(n));
    }
  }

  /** The sizes the buffer can have. */
  predicate Doubled(n: nat) {
    n == 1023 || n == 2046 || n == 4092 || n == 8184 || n == 16368 || n == 32736 || n == 65472
  }

  lemma InBounds(n: nat, size: nat)
    requires Doubled(n) && size < n
    ensures size <= MAX_LINE
  {
  }

  lemma CleanAt(all: Bytes, size: nat)
    requires size <= |all| && Clean(all[..size])
    ensures forall i :: 0 <= i < size ==> !Ends(all[i])
  {
    forall i | 0 <= i < size ensures !Ends(all[i]) {
      assert all[..size][i] == all[i];
    }
  }

  lemma NoTerminator(all: Bytes, size: nat)
    requires size == |all| && Clean(all[..size])
    ensures TakeLine(all).Fail?
  {
    CleanAt(all, size);
  }

  lemma TooLong(all: Bytes, size: nat)
    requires size <= |all| && Clean(all[..size]) && size > MAX_LINE
    ensures TakeLine(all).Fail?
  {
    CleanAt(all, size);
  }

  // ---------------------------------------------------------------------------
  // Commands
  // ---------------------------------------------------------------------------

  datatype Command = Get(key: Bytes) | Set(key: Bytes, value: Bytes) | Incr(key: Bytes) | Decr(key: Bytes)

  function NameOf(c: Command): Bytes {
    match c
    case Get(_) => [71, 69, 84]
    case Set(_, _) => [83, 69, 84]
    case Incr(_) => [73, 78, 67, 82]
    case Decr(_) => [68, 69, 67, 82]
  }

  /** The request the client writes. */
  function Request(c: Command): Bytes {
    if c.Set? then ArrayOf(3) + BulkOf(NameOf(c)) + BulkOf(c.key) + BulkOf(c.value)
    else ArrayOf(2) + BulkOf(NameOf(c)) + BulkOf(c.key)
  }

  /** The command of a name, if there is one, and the array length it needs. */
  function CommandOf(name: Bytes, key: Bytes, value: Bytes): Option<Command> {
    if name == NameOf(Get(key)) then Some(Get(key))
    else if name == NameOf(Set(key, value)) then Some(Set(key, value))
    else if name == NameOf(Incr(key)) then Some(Incr(key))
    else if name == NameOf(Decr(key)) then Some(Decr(key))
    else None
  }

  function LengthFor(name: Bytes): int {
    if name == NameOf(Set([], [])) then 3 else 2
  }

  function ParseHeader(input: Bytes): Read<int> {
    var t := ParseType(input);
    if t.Fail? || !t.value.Array? then Fail
    else
      var n := ParseLength(t.rest);
      if n.Fail? || n.value < 2 || n.value > 3 then Fail else n
  }

  /** A bulk string that is not null. */
  function ParseArgument(input: Bytes): Read<Bytes> {
    var b := ParseTypedBulk(input);
    if b.Fail? || b.value.None? then Fail else Got(b.value.value, b.rest)
  }

  function ParseName(n: int, input: Bytes): Read<Bytes> {
    var b := ParseArgument(input);
    if b.Fail? || CommandOf(b.value, [], []).None? || n != LengthFor(b.value) then Fail else b
  }

  function ParseArguments(name: Bytes, n: int, input: Bytes): Read<Command> {
    var key := ParseArgument(input);
    if key.Fail? then Fail
    else if n == 2 then
      var c := CommandOf(name, key.value, []);
      if c.Some? then Got(c.value, key.rest) else Fail
    else
      var value := ParseArgument(key.rest);
      if value.Fail? then Fail
      else
        var c := CommandOf(name, key.value, value.value);
        if c.Some? then Got(c.value, value.rest) else Fail
  }

  /** What ReadCommand accepts. */
  function ParseCommand(input: Bytes): Read<Command> {
    var n := ParseHeader(input);
    if n.Fail? then Fail
    else
      var name := ParseName(n.value, n.rest);
      if name.Fail? then Fail else ParseArguments(name.value, n.value, name.rest)
  }

  predicate Sized(c: Command) {
    Int64(|c.key|) && (c.Set? ==> Int64(|c.value|))
  }

  lemma ReadsHeader(n: nat, rest: Bytes)
    requires n == 2 || n == 3
    ensures ParseHeader(ArrayOf(n) + rest) == Got(n, rest)
  {
    ReadsLength(Array, n, rest);
  }

  lemma ReadsArgument(s: Bytes, rest: Bytes)
    requires Int64(|s|)
    ensures ParseArgument(BulkOf(s) + rest) == Got(s, rest)
  {
    ReadsBulk(s, rest);
  }

  lemma NamesKnown(c: Command)
    ensures CommandOf(NameOf(c), c.key, if c.Set? then c.value else []) == Some(c)
    ensures CommandOf(NameOf(c), [], []).Some? && LengthFor(NameOf(c)) == if c.Set? then 3 else 2
  {
  }

  lemma ReadsName(c: Command, rest: Bytes)
    ensures ParseName(if c.Set? then 3 else 2, BulkOf(NameOf(c)) + rest) == Got(NameOf(c), rest)
  {
    ReadsArgument(NameOf(c), rest);
    NamesKnown(c);
  }

  /** The server reads every request of the client back, and exactly its bytes. */
  lemma CommandRoundTrip(c: Command, rest: Bytes)
    requires Sized(c)
    ensures ParseCommand(Request(c) + rest) == Got(c, rest)
  {
    var n := if c.Set? then 3 else 2;
    var afterKey := if c.Set? then BulkOf(c.value) + rest else rest;
    var afterName := BulkOf(c.key) + afterKey;
    assert Request(c) + rest == ArrayOf(n) + (BulkOf(NameOf(c)) + afterName);
    ReadsHeader(n, BulkOf(NameOf(c)) + afterName);
    ReadsName(c, afterName);
    ReadsArgument(c.key, afterKey);
    if c.Set? {
      ReadsArgument(c.value, rest);
    }
    NamesKnown(c);
  }

  // ---------------------------------------------------------------------------
  // The server's side
  // ---------------------------------------------------------------------------

  method ReadArgument(reader: RespReader) returns (r: Option<Bytes>)
    modifies reader
    ensures r.Some? <==> ParseArgument(old(reader.input)).Got?
    ensures r.Some? ==> ParseArgument(old(reader.input)) == Got(r.value, reader.input)
  {
    var t := reader.ReadType();
    if t.None? || t.value != BulkString {
      return None;
    }
    var b := reader.ReadBulkString();
    if b.None? || b.value.None? {
      return None;
    }
    r := Some(b.value.value);
  }

  method ReadHeader(reader: RespReader) returns (r: Option<int>)
    modifies reader
    ensures r.Some? <==> ParseHeader(old(reader.input)).Got?
    ensures r.Some? ==> ParseHeader(old(reader.input)) == Got(r.value, reader.input)
  {
    var t := reader.ReadType();
    if t.None? || t.value != Array {
      return None;
    }
    var n := reader.ReadArrayLength();
    if n.None? || n.value < 2 || n.value > 3 {
      return None;
    }
    r := n;
  }

  method ReadCommand(reader: RespReader) returns (r: Option<Command>)
    modifies reader
    ensures r.Some? <==> ParseCommand(old(reader.input)).Got?
    ensures r.Some? ==> ParseCommand(old(reader.input)) == Got(r.value, reader.input)
  {
    var n := ReadHeader(reader);
    if n.None? {
      return None;
    }
    var name, key, value: Bytes := [], [], [];
    ghost var start := reader.input;
    ghost var body := start;
    var i := 0;
    while i < n.value
      invariant 0 <= i <= n.value && (n.value == 2 || n.value == 3)
      invariant i == 0 ==> reader.input == start && key == [] && value == []
      invariant i >= 1 ==> ParseName(n.value, start) == Got(name, body)
      invariant i == 1 ==> reader.input == body && value == []
      invariant i >= 2 ==> ParseArgument(body).Got? && ParseArgument(body).value == key
      invariant i == 2 ==> ParseArgument(body).rest == reader.input && value == []
      invariant i == 3 ==> ParseArgument(ParseArgument(body).rest) == Got(value, reader.input)
    {
      var argument := ReadArgument(reader);
      if argument.None? {
        return None;
      }
      if i == 0 {
        name := argument.value;
        if CommandOf(name, [], []).None? || n.value != LengthFor(name) {
          return None;
        }
        body := reader.input;
      } else if i == 1 {
        key := argument.value;
      } else {
        value := argument.value;
      }
      i := i + 1;
    }
    r := CommandOf(name, key, value);
  }

  /** What the storage answered. */
  datatype Outcome = Found(value: Option<Bytes>) | Stored | Changed(now: int)

  const OK: Bytes := [79, 75]

  const WORD: int := 2 * INT64_LIMIT

  /** The detour of the new value through an unsigned 64-bit variable. */
  function Unsigned(n: int): int {
    n % WORD
  }

  function Signed(n: int): int {
    if n < INT64_LIMIT then n else n - WORD
  }

  lemma UnsignedDetour(n: int)
    requires Int64(n)
    ensures Signed(Unsigned(n)) == n
  {
  }

  function Reply(o: Outcome): Bytes {
    match o
    case Found(v) => if v.Some? then BulkOf(v.value) else NULL_BULK
    case Stored => BulkOf(OK)
    case Changed(n) => IntOf(n)
  }

  method WriteReply(writer: RespWriter, o: Outcome)
    requires o.Changed? ==> Int64(o.now)
    modifies writer
    ensures writer.output == old(writer.output) + Reply(o)
  {
    match o {
      case Found(v) =>
        if v.Some? { writer.WriteBulkString(v.value); } else { writer.WriteNullBulkString(); }
      case Stored => writer.WriteBulkString(OK);
      case Changed(n) =>
        UnsignedDetour(n);
        writer.WriteInt(Signed(Unsigned(n)));
    }
  }

  // ---------------------------------------------------------------------------
  // The client's side
  // ---------------------------------------------------------------------------

  method SendRequest(writer: RespWriter, c: Command)
    modifies writer
    ensures writer.output == old(writer.output) + Request(c)
  {
    writer.StartArray(if c.Set? then 3 else 2);
    writer.WriteBulkString(NameOf(c));
    writer.WriteBulkString(c.key);
    Regroup(old(writer.output), ArrayOf(if c.Set? then 3 else 2), BulkOf(NameOf(c)), BulkOf(c.key));
    if c.Set? {
      ghost var sent := ArrayOf(3) + BulkOf(NameOf(c)) + BulkOf(c.key);
      writer.WriteBulkString(c.value);
      assert old(writer.output) + sent + BulkOf(c.value) == old(writer.output) + (sent + BulkOf(c.value));
    }
  }

  lemma Regroup(w: Bytes, a: Bytes, b: Bytes, c: Bytes)
    ensures ((w + a) + b) + c == w + (a + b + c)
  {
  }

  /** How the client reads the reply to a command; Fail also for an error reply. */
  function ParseReply(c: Command, input: Bytes): Read<Outcome> {
    if c.Get? then
      var b := ParseTypedBulk(input);
      if b.Fail? then Fail else Got(Found(b.value), b.rest)
    else if c.Set? then
      var b := ParseTypedBulk(input);
      if b.Fail? || b.value != Some(OK) then Fail else Got(Stored, b.rest)
    else
      var t := ParseType(input);
      if t.Fail? || !t.value.Int? then Fail
      else
        var n := ParseInt(t.rest);
        if n.Fail? then Fail else Got(Changed(n.value), n.rest)
  }

  method ReceiveReply(reader: RespReader, c: Command) returns (r: Option<Outcome>)
    modifies reader
    ensures r.Some? <==> ParseReply(c, old(reader.input)).Got?
    ensures r.Some? ==> ParseReply(c, old(reader.input)) == Got(r.value, reader.input)
  {
    var t := reader.ReadType();
    if t.None? {
      return None;
    }
    if t.value == Error {
      var _ := reader.ReadString();
      return None;
    }
    if c.Get? || c.Set? {
      if t.value != BulkString {
        return None;
      }
      var b := reader.ReadBulkString();
      if b.None? || (c.Set? && b.value != Some(OK)) {
        return None;
      }
      r := Some(if c.Get? then Found(b.value) else Stored);
    } else {
      if t.value != Int {
        return None;
      }
      var n := reader.ReadInt();
      r := if n.Some? then Some(Changed(n.value)) else None;
    }
  }

  /** The outcome fits the command and what the wire can carry. */
  predicate Fits(c: Command, o: Outcome) {
    match o
    case Found(v) => c.Get? && (v.Some? ==> Int64(|v.value|))
    case Stored => c.Set?
    case Changed(n) => (c.Incr? || c.Decr?) && Int64(n)
  }

  /** The client decodes every reply of the server to the same outcome, and consumes exactly its bytes. */
  lemma ReplyRoundTrip(c: Command, o: Outcome, rest: Bytes)
    requires Fits(c, o)
    ensures ParseReply(c, Reply(o) + rest) == Got(o, rest)
  {
    match o {
      case Found(v) =>
        if v.Some? { ReadsBulk(v.value, rest); } else { ReadsNullBulk(rest); }
      case Stored => ReadsBulk(OK, rest);
      case Changed(n) => ReadsInt(n, rest);
    }
  }
}
