/** Decimal numbers as the RESP reader and writer handle them: std::to_string and std::stoll. */
module RespNumbers {
  import opened Common

  type Byte = x: int | 0 <= x < 256
  type Bytes = seq<Byte>

  const MINUS: Byte := 45
  const PLUS: Byte := 43
  const ZERO: Byte := 48
  const SPACE: Byte := 32

  const INT64_LIMIT: int := 0x8000_0000_0000_0000

  predicate Int64(n: int) {
    -INT64_LIMIT <= n < INT64_LIMIT
  }

  predicate Digit(b: Byte) {
    ZERO <= b < ZERO + 10
  }

  predicate White(b: Byte) {
    b == SPACE || 9 <= b <= 13
  }

  // ---------------------------------------------------------------------------
  // Writing
  // ---------------------------------------------------------------------------

  function Digits(n: nat): (s: Bytes)
    ensures s != [] && forall i :: 0 <= i < |s| ==> Digit(s[i])
  {
    if n < 10 then [ZERO + n] else Digits(n / 10) + [ZERO + n % 10]
  }

  function ToString(n: int): Bytes {
    if n < 0 then [MINUS] + Digits(-n) else Digits(n)
  }

  /** A 64-bit number has at most twenty characters. */
  lemma {:induction false} DigitsShort(n: nat, k: nat)
    requires k >= 1 && n < Power10(k)
    ensures |Digits(n)| <= k
  {
    if n >= 10 {
      DigitsShort(n / 10, k - 1);
    }
  }

  function Power10(k: nat): nat {
    if k == 0 then 1 else 10 * Power10(k - 1)
  }

  lemma ToStringShort(n: int)
    requires -INT64_LIMIT <= n <= INT64_LIMIT
    ensures 1 <= |ToString(n)| <= 20
  {
    PowerNineteen();
    DigitsShort(if n < 0 then -n else n, 19);
  }

  lemma PowerNineteen()
    ensures Power10(19) > INT64_LIMIT
  {
    assert Power10(5) == 100000;
    assert Power10(10) == 10000000000 by { PowerFive(5); }
    assert Power10(15) == 1000000000000000 by { PowerFive(10); }
    assert Power10(19) == 10000 * Power10(15);
  }

  lemma PowerFive(k: nat)
    ensures Power10(k + 5) == 100000 * Power10(k)
  {
    assert Power10(k + 1) == 10 * Power10(k) && Power10(k + 2) == 10 * Power10(k + 1);
    assert Power10(k + 3) == 10 * Power10(k + 2) && Power10(k + 4) == 10 * Power10(k + 3);
  }

  // ---------------------------------------------------------------------------
  // Reading
  // ---------------------------------------------------------------------------

  /** The number of leading bytes that are white space, or digits. */
  function SkipWhite(s: Bytes): (k: nat)
    ensures k <= |s|
  {
    if s != [] && White(s[0]) then 1 + SkipWhite(s[1..]) else 0
  }

  function DigitRun(s: Bytes): (k: nat)
    ensures k <= |s|
  {
    if s != [] && Digit(s[0]) then 1 + DigitRun(s[1..]) else 0
  }

  function Magnitude(s: Bytes): int {
    if s == [] then 0 else 10 * Magnitude(s[..|s| - 1]) + (s[|s| - 1] - ZERO)
  }

  datatype Parsed = Parsed(value: int, end: nat)

  /** k digits of magnitude m that begin at offset; None without digits or outside 64 bits. */
  function Checked(k: nat, m: int, negative: bool, offset: nat): Option<Parsed> {
    var value := if negative then -m else m;
    if k == 0 || !Int64(value) then None else Some(Parsed(value, offset + k))
  }

  function Number(t: Bytes, negative: bool, offset: nat): Option<Parsed> {
    Checked(DigitRun(t), Magnitude(t[..DigitRun(t)]), negative, offset)
  }

  /** Leading white space, a sign, digits. */
  function Stoll(s: Bytes): Option<Parsed> {
    var w := SkipWhite(s);
    if w < |s| && s[w] == MINUS then Number(s[w + 1..], true, w + 1)
    else if w < |s| && s[w] == PLUS then Number(s[w + 1..], false, w + 1)
    else Number(s[w..], false, w)
  }

  lemma {:induction false} DigitRunAll(s: Bytes)
    requires forall i :: 0 <= i < |s| ==> Digit(s[i])
    ensures DigitRun(s) == |s|
  {
    if s != [] {
      DigitRunAll(s[1..]);
    }
  }

  lemma {:induction false} MagnitudeOfDigits(n: nat)
    ensures Magnitude(Digits(n)) == n
  {
    var s := Digits(n);
    if n < 10 {
      assert s[..0] == [];
    } else {
      MagnitudeOfDigits(n / 10);
      assert s[..|s| - 1] == Digits(n / 10);
    }
  }

  lemma NumberAll(d: Bytes, negative: bool, offset: nat)
    requires forall i :: 0 <= i < |d| ==> Digit(d[i])
    ensures Number(d, negative, offset) == Checked(|d|, Magnitude(d), negative, offset)
  {
    DigitRunAll(d);
    assert d[..|d|] == d;
  }

  lemma StollPlain(d: Bytes)
    requires d != [] && Digit(d[0])
    ensures Stoll(d) == Number(d, false, 0)
  {
    assert d[0..] == d;
  }

  lemma StollMinus(d: Bytes)
    ensures Stoll([MINUS] + d) == Number(d, true, 1)
  {
    var s := [MINUS] + d;
    assert s[0] == MINUS && SkipWhite(s) == 0 && s[1..] == d;
  }

  lemma ReadsDigits(n: nat, d: Bytes)
    requires d == Digits(n) && Int64(n)
    ensures Stoll(d) == Some(Parsed(n, |d|))
  {
    MagnitudeOfDigits(n);
    StollPlain(d);
    NumberAll(d, false, 0);
  }

  lemma ReadsMinus(n: nat, d: Bytes)
    requires d == Digits(n) && Int64(0 - n)
    ensures Stoll([MINUS] + d) == Some(Parsed(0 - n, 1 + |d|))
  {
    MagnitudeOfDigits(n);
    StollMinus(d);
    NumberAll(d, true, 1);
  }

  /** What to_string writes, stoll reads back, to the last character. */
  lemma StollOfToString(n: int)
    requires Int64(n)
    ensures Stoll(ToString(n)) == Some(Parsed(n, |ToString(n)|))
  {
    if n < 0 { ReadsMinus(-n, Digits(-n)); } else { ReadsDigits(n, Digits(n)); }
  }

  lemma ToStringClean(n: int)
    ensures forall i :: 0 <= i < |ToString(n)| ==> ToString(n)[i] == MINUS || Digit(ToString(n)[i])
    ensures ToString(n)[0] != SPACE
  {
  }

  // ---------------------------------------------------------------------------
  // Which texts are numbers
  // ---------------------------------------------------------------------------

  ghost predicate AllWhite(s: Bytes) {
    forall i :: 0 <= i < |s| ==> White(s[i])
  }

  ghost predicate AllDigits(s: Bytes) {
    forall i :: 0 <= i < |s| ==> Digit(s[i])
  }

  predicate Sign(s: Bytes) {
    s == [] || s == [MINUS] || s == [PLUS]
  }

  function WithSign(sign: Bytes, m: int): int {
    if sign == [MINUS] then -m else m
  }

  /** White space, a sign and digits spell v. */
  ghost predicate Spells(white: Bytes, sign: Bytes, digits: Bytes, v: int) {
    AllWhite(white) && Sign(sign) && digits != [] && AllDigits(digits) && v == WithSign(sign, Magnitude(digits)) && Int64(v)
  }

  lemma {:induction false} SkipWhiteFacts(s: Bytes)
    ensures AllWhite(s[..SkipWhite(s)]) && (SkipWhite(s) < |s| ==> !White(s[SkipWhite(s)]))
  {
    if s != [] && White(s[0]) {
      SkipWhiteFacts(s[1..]);
      var k := SkipWhite(s[1..]);
      assert s[..1 + k] == [s[0]] + s[1..][..k];
    }
  }

  lemma {:induction false} SkipWhiteOf(white: Bytes, rest: Bytes)
    requires AllWhite(white) && rest != [] && !White(rest[0])
    ensures SkipWhite(white + rest) == |white|
  {
    if white == [] {
      assert white + rest == rest;
    } else {
      assert (white + rest)[1..] == white[1..] + rest;
      SkipWhiteOf(white[1..], rest);
    }
  }

  lemma {:induction false} DigitRunFacts(s: Bytes)
    ensures AllDigits(s[..DigitRun(s)])
  {
    if s != [] && Digit(s[0]) {
      DigitRunFacts(s[1..]);
      var k := DigitRun(s[1..]);
      assert s[..1 + k] == [s[0]] + s[1..][..k];
    }
  }

  /** How Stoll goes on after the white space. */
  lemma StollAfterWhite(white: Bytes, rest: Bytes)
    requires AllWhite(white) && rest != [] && !White(rest[0])
    ensures Stoll(white + rest) ==
            if rest[0] == MINUS then Number(rest[1..], true, |white| + 1)
            else if rest[0] == PLUS then Number(rest[1..], false, |white| + 1)
            else Number(rest, false, |white|)
  {
    var s := white + rest;
    SkipWhiteOf(white, rest);
    assert s[|white|] == rest[0] && s[|white| + 1..] == rest[1..] && s[|white|..] == rest;
  }

  lemma StollOfSpelled(white: Bytes, sign: Bytes, digits: Bytes, v: int)
    requires Spells(white, sign, digits, v)
    ensures Stoll(white + sign + digits) == Some(Parsed(v, |white| + |sign| + |digits|))
  {
    assert white + sign + digits == white + (sign + digits);
    AfterWhite(white, sign, digits);
    NumberAll(digits, sign == [MINUS], |white| + |sign|);
  }

  lemma AfterWhite(white: Bytes, sign: Bytes, digits: Bytes)
    requires AllWhite(white) && Sign(sign) && digits != [] && Digit(digits[0])
    ensures Stoll(white + (sign + digits)) == Number(digits, sign == [MINUS], |white| + |sign|)
  {
    var rest := sign + digits;
    if sign == [] {
      assert rest == digits;
    } else {
      assert rest[1..] == digits && rest[0] == sign[0];
    }
    StollAfterWhite(white, rest);
  }

  /** A number that Number reads to the last byte is all digits. */
  lemma NumberWhole(t: Bytes, negative: bool, offset: nat, p: Parsed)
    requires Number(t, negative, offset) == Some(p) && p.end == offset + |t|
    ensures t != [] && AllDigits(t) && Int64(p.value) && p.value == (if negative then -Magnitude(t) else Magnitude(t))
  {
    var k := DigitRun(t);
    CheckedFacts(k, Magnitude(t[..k]), negative, offset, p);
    DigitRunFacts(t);
    TakeAll(t, k);
  }

  lemma CheckedFacts(k: nat, m: int, negative: bool, offset: nat, p: Parsed)
    requires Checked(k, m, negative, offset) == Some(p)
    ensures k > 0 && p.end == offset + k && Int64(p.value) && p.value == (if negative then -m else m)
  {
  }

  lemma TakeAll(t: Bytes, k: nat)
    requires k == |t|
    ensures t[..k] == t
  {
  }

  lemma SpelledOfStoll(s: Bytes, v: int) returns (white: Bytes, sign: Bytes, digits: Bytes)
    requires Stoll(s) == Some(Parsed(v, |s|))
    ensures s == white + sign + digits && Spells(white, sign, digits, v)
  {
    var w := SkipWhite(s);
    SkipWhiteFacts(s);
    white := s[..w];
    if w < |s| && (s[w] == MINUS || s[w] == PLUS) {
      sign, digits := [s[w]], s[w + 1..];
      NumberWhole(digits, s[w] == MINUS, w + 1, Parsed(v, |s|));
    } else {
      sign, digits := [], s[w..];
      NumberWhole(digits, false, w, Parsed(v, |s|));
    }
  }
}
