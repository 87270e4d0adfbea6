/**
  Meet-in-the-middle search for two disjoint non-empty index sets with equal sums.

  A choice is a nat whose bits select positions, a variant is an int whose low bits
  give the sign of each selected position; `comb & 1` is `comb % 2`, `comb >> 1` is
  `comb / 2` and `~i` is `Inverted(i)`, as in two's complement of unlimited width.
*/
module SubsetSum {
  import opened Common

  datatype Combination = Combination(choice: nat, variant: int, hasTwoGroups: bool)
  datatype Subsets = Subsets(first: seq<nat>, second: seq<nat>, found: bool)

  type SumMap = map<int, Combination>

  const THREAD_COUNT: nat := 8

  // ---------------------------------------------------------------------------
  // What a caller asks for: two disjoint non-empty index lists with equal sums
  // ---------------------------------------------------------------------------

  /** s lists positions of lo..hi in strictly increasing order. */
  ghost predicate Ascending(s: seq<nat>, lo: nat, hi: nat)
    decreases |s|
  {
    s == [] || (lo <= s[0] < hi && Ascending(s[1..], s[0] + 1, hi))
  }

  ghost predicate Disjoint(a: seq<nat>, b: seq<nat>) {
    forall x :: x in a ==> x !in b
  }

  ghost predicate InRange(data: seq<int>, indices: seq<nat>) {
    forall i :: 0 <= i < |indices| ==> indices[i] < |data|
  }

  ghost function At(data: seq<int>, i: nat): int {
    if i < |data| then data[i] else 0
  }

  ghost function SumAt(data: seq<int>, s: seq<nat>): int
  {
    if s == [] then 0 else At(data, s[0]) + SumAt(data, s[1..])
  }

  ghost predicate EqualSumPair(data: seq<int>, a: seq<nat>, b: seq<nat>) {
    && Ascending(a, 0, |data|) && Ascending(b, 0, |data|)
    && Disjoint(a, b) && a != [] && b != []
    && SumAt(data, a) == SumAt(data, b)
  }

  // ---------------------------------------------------------------------------
  // Meaning of choices and variants
  // ---------------------------------------------------------------------------

  function Indices(choice: nat, start: nat): (r: seq<nat>) {
    if choice == 0 then []
    else (if choice % 2 == 1 then [start] else []) + Indices(choice / 2, start + 1)
  }

  ghost function SignedSum(data: seq<int>, indices: seq<nat>, variant: int): int
    decreases |indices|
  {
    if indices == [] then 0
    else (if variant % 2 == 1 then At(data, indices[0]) else -At(data, indices[0]))
         + SignedSum(data, indices[1..], variant / 2)
  }

  /** Both signs occur among the first n bits of variant. */
  ghost predicate Mixed(n: nat, variant: int) {
    n >= 2 && (variant % 2 != (variant / 2) % 2 || Mixed(n - 1, variant / 2))
  }

  /** The indices whose bit in variant is bit. */
  ghost function Group(indices: seq<nat>, variant: int, bit: int): seq<nat> {
    if indices == [] then []
    else (if variant % 2 == bit then [indices[0]] else []) + Group(indices[1..], variant / 2, bit)
  }

  lemma {:induction false} IndicesAscending(choice: nat, start: nat, width: nat)
    requires choice < Pow2(width)
    ensures Ascending(Indices(choice, start), start, start + width)
    ensures choice != 0 ==> Indices(choice, start) != []
    decreases choice
  {
    if choice != 0 {
      IndicesAscending(choice / 2, start + 1, width - 1);
      var rest := Indices(choice / 2, start + 1);
      if choice % 2 == 1 {
        assert Indices(choice, start) == [start] + rest;
        AscendingCons(start, rest, start, start + width);
      } else {
        assert Indices(choice, start) == rest;
        AscendingWiden(rest, start + 1, start + width, start, start + width);
      }
    }
  }

  lemma {:induction false} AscendingWiden(s: seq<nat>, lo: nat, hi: nat, lo': nat, hi': nat)
    requires Ascending(s, lo, hi) && lo' <= lo && hi <= hi'
    ensures Ascending(s, lo', hi')
    decreases |s|
  {
    if s != [] {
      AscendingWiden(s[1..], s[0] + 1, hi, s[0] + 1, hi');
    }
  }

  lemma {:induction false} AscendingMember(s: seq<nat>, lo: nat, hi: nat, x: nat)
    requires Ascending(s, lo, hi) && x in s
    ensures lo <= x < hi
    decreases |s|
  {
    if x != s[0] {
      AscendingMember(s[1..], s[0] + 1, hi, x);
    }
  }

  lemma {:induction false} AscendingInRange(s: seq<nat>, lo: nat, hi: nat)
    requires Ascending(s, lo, hi)
    ensures forall i :: 0 <= i < |s| ==> lo <= s[i] < hi
  {
    forall i | 0 <= i < |s| ensures lo <= s[i] < hi {
      AscendingMember(s, lo, hi, s[i]);
    }
  }

  lemma AscendingCons(x: nat, s: seq<nat>, lo: nat, hi: nat)
    requires lo <= x < hi && Ascending(s, x + 1, hi)
    ensures Ascending([x] + s, lo, hi)
  {
    assert ([x] + s)[1..] == s;
  }

  lemma SumAtCons(data: seq<int>, x: nat, s: seq<nat>)
    ensures SumAt(data, [x] + s) == At(data, x) + SumAt(data, s)
  {
    assert ([x] + s)[1..] == s;
  }

  lemma {:induction false} GroupAscending(indices: seq<nat>, variant: int, bit: int, lo: nat, hi: nat)
    requires Ascending(indices, lo, hi)
    ensures Ascending(Group(indices, variant, bit), lo, hi)
    decreases |indices|
  {
    if indices != [] {
      var x, rest := indices[0], indices[1..];
      GroupAscending(rest, variant / 2, bit, x + 1, hi);
      var tail := Group(rest, variant / 2, bit);
      AscendingCons(x, tail, lo, hi);
      AscendingWiden(tail, x + 1, hi, lo, hi);
      assert Group(indices, variant, bit) == (if variant % 2 == bit then [x] + tail else tail);
    }
  }

  lemma {:induction false} GroupsDisjoint(indices: seq<nat>, variant: int, lo: nat, hi: nat)
    requires Ascending(indices, lo, hi)
    ensures Disjoint(Group(indices, variant, 1), Group(indices, variant, 0))
    decreases |indices|
  {
    if indices != [] {
      var x, rest := indices[0], indices[1..];
      GroupsDisjoint(rest, variant / 2, x + 1, hi);
      GroupAscending(rest, variant / 2, 1, x + 1, hi);
      GroupAscending(rest, variant / 2, 0, x + 1, hi);
      AscendingInRange(Group(rest, variant / 2, 1), x + 1, hi);
      AscendingInRange(Group(rest, variant / 2, 0), x + 1, hi);
    }
  }

  /** The sums of the two groups differ by the signed sum. */
  lemma {:induction false} GroupsSum(data: seq<int>, indices: seq<nat>, variant: int)
    ensures SumAt(data, Group(indices, variant, 1)) - SumAt(data, Group(indices, variant, 0))
            == SignedSum(data, indices, variant)
    decreases |indices|
  {
    if indices != [] {
      var x, rest := indices[0], indices[1..];
      GroupsSum(data, rest, variant / 2);
      var a, b := Group(rest, variant / 2, 1), Group(rest, variant / 2, 0);
      if variant % 2 == 1 {
        assert Group(indices, variant, 1) == [x] + a && Group(indices, variant, 0) == b;
        SumAtCons(data, x, a);
      } else {
        assert Group(indices, variant, 0) == [x] + b && Group(indices, variant, 1) == a;
        SumAtCons(data, x, b);
      }
    }
  }

  /** Mixed says exactly that neither group is empty. */
  lemma {:induction false} MixedGroups(indices: seq<nat>, variant: int)
    ensures Mixed(|indices|, variant) <==> Group(indices, variant, 1) != [] && Group(indices, variant, 0) != []
    decreases |indices|
  {
    if |indices| >= 2 {
      MixedGroups(indices[1..], variant / 2);
      assert indices[1..] != [];
    }
  }

  /** A one-group pattern puts everything where its lowest bit says. */
  lemma {:induction false} UnmixedGroups(indices: seq<nat>, variant: int)
    requires !Mixed(|indices|, variant) && indices != []
    ensures Group(indices, variant, variant % 2) == indices
    decreases |indices|
  {
    if |indices| >= 2 {
      UnmixedGroups(indices[1..], variant / 2);
      assert indices == [indices[0]] + indices[1..];
    }
  }

  /** `~v`: every bit of v inverted. */
  function Inverted(v: int): int {
    -v - 1
  }

  lemma {:induction false} Complement(data: seq<int>, indices: seq<nat>, variant: int)
    ensures SignedSum(data, indices, Inverted(variant)) == -SignedSum(data, indices, variant)
    ensures Mixed(|indices|, Inverted(variant)) == Mixed(|indices|, variant)
    decreases |indices|
  {
    if indices != [] {
      assert Inverted(variant) / 2 == Inverted(variant / 2);
      assert Inverted(variant) % 2 == 1 - variant % 2;
      Complement(data, indices[1..], variant / 2);
      assert Inverted(variant / 2) % 2 == 1 - (variant / 2) % 2;
    }
  }

  /** Only the all-zero pattern below 2^(n-1) has a single group. */
  lemma {:induction false} UnmixedIsZero(n: nat, variant: nat)
    requires n >= 1 && variant < Pow2(n - 1) && !Mixed(n, variant)
    ensures variant == 0
  {
    if n >= 2 {
      UnmixedIsZero(n - 1, variant / 2);
    }
  }

  // ---------------------------------------------------------------------------
  // Encoding a sign assignment as choice and variant
  // ---------------------------------------------------------------------------

  ghost predicate Signs(signs: seq<int>) {
    forall i :: 0 <= i < |signs| ==> signs[i] in {-1, 0, 1}
  }

  ghost function Weighted(data: seq<int>, start: nat, signs: seq<int>): int
    decreases |signs|
  {
    if signs == [] then 0
    else (if signs[0] == 1 then At(data, start) else if signs[0] == -1 then -At(data, start) else 0)
         + Weighted(data, start + 1, signs[1..])
  }

  ghost function ChoiceOf(signs: seq<int>): nat {
    if signs == [] then 0 else (if signs[0] != 0 then 1 else 0) + 2 * ChoiceOf(signs[1..])
  }

  ghost function VariantOf(signs: seq<int>): nat {
    if signs == [] then 0
    else if signs[0] == 0 then VariantOf(signs[1..])
    else (if signs[0] == 1 then 1 else 0) + 2 * VariantOf(signs[1..])
  }

  ghost function LastSign(signs: seq<int>): int {
    if signs == [] then 0
    else if LastSign(signs[1..]) != 0 then LastSign(signs[1..]) else signs[0]
  }

  ghost function Negated(signs: seq<int>): seq<int> {
    seq(|signs|, i requires 0 <= i < |signs| => -signs[i])
  }

  /** Prepending a sign prepends an index exactly when the sign is not zero. */
  lemma EncodedStep(signs: seq<int>, start: nat)
    requires Signs(signs) && signs != []
    ensures ChoiceOf(signs) / 2 == ChoiceOf(signs[1..])
    ensures signs[0] == 0 ==> Indices(ChoiceOf(signs), start) == Indices(ChoiceOf(signs[1..]), start + 1)
    ensures signs[0] != 0 ==> Indices(ChoiceOf(signs), start) == [start] + Indices(ChoiceOf(signs[1..]), start + 1)
    ensures signs[0] != 0 ==> VariantOf(signs) / 2 == VariantOf(signs[1..])
                              && VariantOf(signs) % 2 == (if signs[0] == 1 then 1 else 0)
  {
  }

  lemma {:induction false} EncodedIndices(data: seq<int>, start: nat, signs: seq<int>)
    requires Signs(signs)
    ensures ChoiceOf(signs) < Pow2(|signs|)
    ensures SignedSum(data, Indices(ChoiceOf(signs), start), VariantOf(signs)) == Weighted(data, start, signs)
    decreases |signs|
  {
    if signs != [] {
      EncodedIndices(data, start + 1, signs[1..]);
      EncodedStep(signs, start);
      var indices := Indices(ChoiceOf(signs[1..]), start + 1);
      if signs[0] != 0 {
        assert ([start] + indices)[1..] == indices;
      }
    }
  }

  lemma {:induction false} EncodedVariantBound(signs: seq<int>, start: nat)
    requires Signs(signs)
    ensures VariantOf(signs) < Pow2(|Indices(ChoiceOf(signs), start)|)
    ensures LastSign(signs) == 0 <==> ChoiceOf(signs) == 0
    ensures LastSign(signs) == 0 ==> VariantOf(signs) == 0
    ensures LastSign(signs) == -1 ==>
              Indices(ChoiceOf(signs), start) != []
              && VariantOf(signs) < Pow2(|Indices(ChoiceOf(signs), start)| - 1)
    decreases |signs|
  {
    if signs != [] {
      EncodedVariantBound(signs[1..], start + 1);
      EncodedStep(signs, start);
    }
  }

  lemma {:induction false} NegatedEncoding(data: seq<int>, start: nat, signs: seq<int>)
    requires Signs(signs)
    ensures Signs(Negated(signs)) && |Negated(signs)| == |signs|
    ensures ChoiceOf(Negated(signs)) == ChoiceOf(signs)
    ensures Weighted(data, start, Negated(signs)) == -Weighted(data, start, signs)
    ensures LastSign(Negated(signs)) == -LastSign(signs)
    decreases |signs|
  {
    if signs != [] {
      NegatedEncoding(data, start + 1, signs[1..]);
      assert Negated(signs)[1..] == Negated(signs[1..]);
    }
  }

  /** With two signs present the encoded pattern is mixed, and conversely. */
  lemma {:induction false} EncodedMixed(signs: seq<int>, start: nat)
    requires Signs(signs)
    ensures Group(Indices(ChoiceOf(signs), start), VariantOf(signs), 1) != [] <==> 1 in signs
    ensures Group(Indices(ChoiceOf(signs), start), VariantOf(signs), 0) != [] <==> -1 in signs
    decreases |signs|
  {
    if signs != [] {
      var rest := signs[1..];
      EncodedMixed(rest, start + 1);
      EncodedStep(signs, start);
      var indices := Indices(ChoiceOf(rest), start + 1);
      assert signs == [signs[0]] + rest;
      if signs[0] != 0 {
        assert ([start] + indices)[1..] == indices;
      }
    }
  }

  /** The sign assignment of the pair (a, b) on positions lo..hi. */
  ghost function SignsOf(a: seq<nat>, b: seq<nat>, lo: nat, hi: nat): seq<int>
    requires lo <= hi
  {
    seq(hi - lo, i requires 0 <= i < hi - lo =>
      if lo + i in a then 1 else if lo + i in b then -1 else 0)
  }

  ghost function Indicator(a: seq<nat>, lo: nat, hi: nat, data: seq<int>): int
    requires lo <= hi
    decreases hi - lo
  {
    if lo == hi then 0 else (if lo in a then At(data, lo) else 0) + Indicator(a, lo + 1, hi, data)
  }

  lemma {:induction false} IndicatorIgnores(a: seq<nat>, tail: seq<nat>, lo: nat, hi: nat, data: seq<int>)
    requires lo <= hi
    requires forall p :: lo <= p < hi ==> (p in a <==> p in tail)
    ensures Indicator(a, lo, hi, data) == Indicator(tail, lo, hi, data)
    decreases hi - lo
  {
    if lo < hi {
      IndicatorIgnores(a, tail, lo + 1, hi, data);
    }
  }

  lemma {:induction false} SumIsIndicator(a: seq<nat>, lo: nat, hi: nat, data: seq<int>)
    requires lo <= hi && Ascending(a, lo, hi)
    ensures SumAt(data, a) == Indicator(a, lo, hi, data)
    decreases hi - lo
  {
    if lo < hi {
      if a != [] && a[0] == lo {
        SumIsIndicator(a[1..], lo + 1, hi, data);
        assert a == [a[0]] + a[1..];
        IndicatorIgnores(a, a[1..], lo + 1, hi, data);
      } else {
        assert Ascending(a, lo + 1, hi);
        SumIsIndicator(a, lo + 1, hi, data);
        AscendingInRange(a, lo + 1, hi);
      }
    }
  }

  lemma {:induction false} WeightedIsDifference(a: seq<nat>, b: seq<nat>, lo: nat, hi: nat, data: seq<int>)
    requires lo <= hi && Disjoint(a, b)
    ensures Weighted(data, lo, SignsOf(a, b, lo, hi)) == Indicator(a, lo, hi, data) - Indicator(b, lo, hi, data)
    decreases hi - lo
  {
    if lo < hi {
      WeightedIsDifference(a, b, lo + 1, hi, data);
      assert SignsOf(a, b, lo, hi)[1..] == SignsOf(a, b, lo + 1, hi);
    }
  }

  lemma {:induction false} IndicatorSplit(a: seq<nat>, lo: nat, k: nat, hi: nat, data: seq<int>)
    requires lo <= k <= hi
    ensures Indicator(a, lo, hi, data) == Indicator(a, lo, k, data) + Indicator(a, k, hi, data)
    decreases k - lo
  {
    if lo < k {
      IndicatorSplit(a, lo + 1, k, hi, data);
    }
  }

  lemma SignsSplit(data: seq<int>, a: seq<nat>, b: seq<nat>, k: nat)
    requires EqualSumPair(data, a, b) && k <= |data|
    ensures Weighted(data, 0, SignsOf(a, b, 0, k)) + Weighted(data, k, SignsOf(a, b, k, |data|)) == 0
  {
    var n := |data|;
    SumIsIndicator(a, 0, n, data);
    SumIsIndicator(b, 0, n, data);
    IndicatorSplit(a, 0, k, n, data);
    IndicatorSplit(b, 0, k, n, data);
    WeightedIsDifference(a, b, 0, k, data);
    WeightedIsDifference(a, b, k, n, data);
  }

  lemma SignPresent(a: seq<nat>, b: seq<nat>, lo: nat, hi: nat, p: nat)
    requires lo <= p < hi && Disjoint(a, b)
    ensures p in a ==> 1 in SignsOf(a, b, lo, hi)
    ensures p in b ==> -1 in SignsOf(a, b, lo, hi)
  {
    var signs := SignsOf(a, b, lo, hi);
    assert signs[p - lo] in signs;
  }

  /** Any solution splits at k into two sign assignments with opposite weights. */
  lemma PairToSigns(data: seq<int>, a: seq<nat>, b: seq<nat>, k: nat)
    requires EqualSumPair(data, a, b) && k <= |data|
    ensures var l, r := SignsOf(a, b, 0, k), SignsOf(a, b, k, |data|);
            && Weighted(data, 0, l) + Weighted(data, k, r) == 0
            && (1 in l || 1 in r) && (-1 in l || -1 in r)
  {
    SignsSplit(data, a, b, k);
    AscendingMember(a, 0, |data|, a[0]);
    AscendingMember(b, 0, |data|, b[0]);
    if a[0] < k { SignPresent(a, b, 0, k, a[0]); } else { SignPresent(a, b, k, |data|, a[0]); }
    if b[0] < k { SignPresent(a, b, 0, k, b[0]); } else { SignPresent(a, b, k, |data|, b[0]); }
  }

  // ---------------------------------------------------------------------------
  // The loops over bits
  // ---------------------------------------------------------------------------

  method ComputeSum(data: seq<int>, indices: seq<nat>, variant: int) returns (res: int, hasTwoGroups: bool)
    requires InRange(data, indices)
    ensures res == SignedSum(data, indices, variant)
    ensures hasTwoGroups == Mixed(|indices|, variant)
  {
    res, hasTwoGroups := 0, false;
    var comb := variant;
    var prevBit := comb % 2;
    var i := 0;
    while i < |indices|
      invariant 0 <= i <= |indices|
      invariant SignedSum(data, indices, variant) == res + SignedSum(data, indices[i..], comb)
      invariant i == 0 ==> !hasTwoGroups && prevBit == comb % 2 && comb == variant
      invariant i > 0 ==> Mixed(|indices|, variant) ==
                          (hasTwoGroups || (i < |indices| && (prevBit != comb % 2 || Mixed(|indices| - i, comb))))
    {
      if comb % 2 == 1 {
        res := res + data[indices[i]];
      } else {
        res := res - data[indices[i]];
      }
      hasTwoGroups := hasTwoGroups || prevBit != comb % 2;
      prevBit := comb % 2;
      comb := comb / 2;
      assert indices[i..][1..] == indices[i + 1..];
      i := i + 1;
    }
  }

  method MakeIndicesFromChoice(choice: nat, start: nat) returns (r: seq<nat>)
    ensures r == Indices(choice, start)
  {
    r := [];
    var comb, idx := choice, 0;
    while comb != 0
      invariant Indices(choice, start) == r + Indices(comb, start + idx)
    {
      if comb % 2 == 1 {
        r := r + [idx + start];
      }
      comb := comb / 2;
      idx := idx + 1;
    }
  }

  method SplitIndicesIntoTwoGroups(indices: seq<nat>, variant: int) returns (first: seq<nat>, second: seq<nat>)
    ensures first == Group(indices, variant, 1) && second == Group(indices, variant, 0)
  {
    first, second := [], [];
    var comb, i := variant, 0;
    while i < |indices|
      invariant 0 <= i <= |indices|
      invariant Group(indices, variant, 1) == first + Group(indices[i..], comb, 1)
      invariant Group(indices, variant, 0) == second + Group(indices[i..], comb, 0)
    {
      assert indices[i..][1..] == indices[i + 1..];
      if comb % 2 == 1 {
        first := first + [indices[i]];
      } else {
        second := second + [indices[i]];
      }
      comb := comb / 2;
      i := i + 1;
    }
  }

  method MakeSubsets(comb: Combination, start: nat) returns (first: seq<nat>, second: seq<nat>)
    ensures first == Group(Indices(comb.choice, start), comb.variant, 1)
    ensures second == Group(Indices(comb.choice, start), comb.variant, 0)
  {
    var indices := MakeIndicesFromChoice(comb.choice, start);
    first, second := SplitIndicesIntoTwoGroups(indices, comb.variant);
  }

  // ---------------------------------------------------------------------------
  // The map of left-half sums
  // ---------------------------------------------------------------------------

  /** The patterns enumerated for a choice: every sign but the last is free, the last is minus. */
  ghost predicate Enumerated(data: seq<int>, start: nat, width: nat, choice: nat, variant: int) {
    && start + width <= |data|
    && 0 < choice < Pow2(width)
    && Indices(choice, start) != []
    && 0 <= variant < Pow2(|Indices(choice, start)| - 1)
  }

  lemma ChoiceIndices(data: seq<int>, start: nat, width: nat, choice: nat)
    requires start + width <= |data| && 0 < choice < Pow2(width)
    ensures InRange(data, Indices(choice, start)) && Indices(choice, start) != []
  {
    IndicesAscending(choice, start, width);
    AscendingInRange(Indices(choice, start), start, start + width);
  }

  ghost function PatternSum(data: seq<int>, start: nat, width: nat, choice: nat, variant: int): int
    requires Enumerated(data, start, width, choice, variant)
  {
    SignedSum(data, Indices(choice, start), variant)
  }

  ghost predicate PatternMixed(start: nat, choice: nat, variant: int) {
    Mixed(|Indices(choice, start)|, variant)
  }

  ghost predicate EntrySound(data: seq<int>, k: nat, s: int, c: Combination) {
    && Enumerated(data, 0, k, c.choice, c.variant)
    && PatternSum(data, 0, k, c.choice, c.variant) == s
    && c.hasTwoGroups == PatternMixed(0, c.choice, c.variant)
  }

  ghost predicate SumsSound(data: seq<int>, k: nat, sums: SumMap) {
    forall s :: s in sums ==> EntrySound(data, k, s, sums[s])
  }

  /** The map knows the sum of this pattern, as a two-group one if the pattern is. */
  ghost predicate Recorded(data: seq<int>, k: nat, sums: SumMap, choice: nat, variant: nat) {
    Enumerated(data, 0, k, choice, variant) ==>
      var s := PatternSum(data, 0, k, choice, variant);
      s in sums && (PatternMixed(0, choice, variant) ==> sums[s].hasTwoGroups)
  }

  ghost predicate ChoiceRecorded(data: seq<int>, k: nat, sums: SumMap, choice: nat, upto: nat) {
    forall v: nat :: v < upto ==> Recorded(data, k, sums, choice, v)
  }

  ghost predicate SumsComplete(data: seq<int>, k: nat, sums: SumMap) {
    forall c: nat, v: nat :: Recorded(data, k, sums, c, v)
  }

  /** Later maps know at least what earlier ones do. */
  ghost predicate Extends(sums: SumMap, sums': SumMap) {
    forall s :: s in sums ==> s in sums' && (sums[s].hasTwoGroups ==> sums'[s].hasTwoGroups)
  }

  predicate HasZeroPair(sums: SumMap) {
    0 in sums && sums[0].hasTwoGroups
  }

  /** One update of the map: keep the entry unless the new one is the first with two groups. */
  function Record(sums: SumMap, sum: int, c: Combination): SumMap {
    if sum in sums && !(c.hasTwoGroups && !sums[sum].hasTwoGroups) then sums else sums[sum := c]
  }

  lemma RecordStep(data: seq<int>, k: nat, sums: SumMap, choice: nat, i: nat, two: bool)
    requires SumsSound(data, k, sums) && ChoiceRecorded(data, k, sums, choice, i)
    requires Enumerated(data, 0, k, choice, i) && two == PatternMixed(0, choice, i)
    ensures var sums' := Record(sums, PatternSum(data, 0, k, choice, i), Combination(choice, i, two));
            && SumsSound(data, k, sums') && Extends(sums, sums')
            && ChoiceRecorded(data, k, sums', choice, i + 1)
  {
    var sums' := Record(sums, PatternSum(data, 0, k, choice, i), Combination(choice, i, two));
    RecordedGrows(data, k, sums, sums', choice, i);
  }

  lemma RecordedGrows(data: seq<int>, k: nat, sums: SumMap, sums': SumMap, choice: nat, upto: nat)
    requires Extends(sums, sums') && ChoiceRecorded(data, k, sums, choice, upto)
    ensures ChoiceRecorded(data, k, sums', choice, upto)
  {
    forall v: nat | v < upto ensures Recorded(data, k, sums', choice, v) {
      assert Recorded(data, k, sums, choice, v);
    }
  }

  method ComputeChoice(data: seq<int>, choice: nat, sums: SumMap, ghost k: nat) returns (sums': SumMap)
    requires k <= |data| && 0 < choice < Pow2(k)
    requires SumsSound(data, k, sums)
    ensures SumsSound(data, k, sums') && Extends(sums, sums')
    ensures Indices(choice, 0) != []
    ensures HasZeroPair(sums') || ChoiceRecorded(data, k, sums', choice, Pow2(|Indices(choice, 0)| - 1))
  {
    ChoiceIndices(data, 0, k, choice);
    var indices := MakeIndicesFromChoice(choice, 0);
    var count := Pow2(|indices| - 1);
    sums' := sums;
    var i: nat := 0;
    while i < count
      invariant i <= count
      invariant SumsSound(data, k, sums') && Extends(sums, sums')
      invariant ChoiceRecorded(data, k, sums', choice, i)
    {
      var sum, hasTwoGroups := ComputeSum(data, indices, i);
      assert Enumerated(data, 0, k, choice, i) && PatternSum(data, 0, k, choice, i) == sum;
      RecordStep(data, k, sums', choice, i, hasTwoGroups);
      if sum in sums' {
        if hasTwoGroups && !sums'[sum].hasTwoGroups {
          sums' := sums'[sum := Combination(choice, i, hasTwoGroups)];
        }
      } else {
        sums' := sums'[sum := Combination(choice, i, hasTwoGroups)];
      }
      if sum == 0 && hasTwoGroups {
        return;
      }
      i := i + 1;
    }
  }

  method ComputeSumMap(data: seq<int>, k: nat) returns (sums: SumMap)
    requires k <= |data|
    ensures SumsSound(data, k, sums)
    ensures HasZeroPair(sums) || SumsComplete(data, k, sums)
  {
    var choices := Pow2(k);
    sums := map[];
    var i: nat := 1;
    while i < choices
      invariant 1 <= i <= choices
      invariant SumsSound(data, k, sums)
      invariant forall c: nat, v: nat :: c < i ==> Recorded(data, k, sums, c, v)
    {
      var sums' := ComputeChoice(data, i, sums, k);
      if HasZeroPair(sums') {
        return sums';
      }
      forall c: nat, v: nat | c < i + 1 ensures Recorded(data, k, sums', c, v) {
        if c < i {
          assert Recorded(data, k, sums, c, v);
        }
      }
      sums := sums';
      i := i + 1;
    }
  }

  // ---------------------------------------------------------------------------
  // Joining a left and a right combination
  // ---------------------------------------------------------------------------

  ghost function Merged(l: Combination, r: Combination, k: nat, bit: int): seq<nat> {
    Group(Indices(l.choice, 0), l.variant, bit) + Group(Indices(r.choice, k), r.variant, bit)
  }

  lemma {:induction false} SumAtAppend(data: seq<int>, a: seq<nat>, b: seq<nat>)
    ensures SumAt(data, a + b) == SumAt(data, a) + SumAt(data, b)
    decreases |a|
  {
    if a == [] {
      assert a + b == b;
    } else {
      SumAtAppend(data, a[1..], b);
      assert a + b == [a[0]] + (a[1..] + b);
      SumAtCons(data, a[0], a[1..] + b);
    }
  }

  lemma GroupFacts(data: seq<int>, choice: nat, variant: int, start: nat, width: nat)
    requires start + width <= |data| && choice < Pow2(width)
    ensures var a, b := Group(Indices(choice, start), variant, 1), Group(Indices(choice, start), variant, 0);
            && Ascending(a, start, start + width) && Ascending(b, start, start + width) && Disjoint(a, b)
            && SumAt(data, a) - SumAt(data, b) == SignedSum(data, Indices(choice, start), variant)
  {
    var indices := Indices(choice, start);
    IndicesAscending(choice, start, width);
    GroupAscending(indices, variant, 1, start, start + width);
    GroupAscending(indices, variant, 0, start, start + width);
    GroupsDisjoint(indices, variant, start, start + width);
    GroupsSum(data, indices, variant);
  }

  lemma MergedNonEmpty(l: Combination, r: Combination, k: nat)
    requires PatternMixed(0, l.choice, l.variant) || PatternMixed(k, r.choice, r.variant)
             || (Indices(l.choice, 0) != [] && Indices(r.choice, k) != [] && l.variant % 2 != r.variant % 2)
    ensures Merged(l, r, k, 1) != [] && Merged(l, r, k, 0) != []
  {
    MixedGroups(Indices(l.choice, 0), l.variant);
    MixedGroups(Indices(r.choice, k), r.variant);
    if !PatternMixed(0, l.choice, l.variant) && !PatternMixed(k, r.choice, r.variant) {
      UnmixedGroups(Indices(l.choice, 0), l.variant);
      UnmixedGroups(Indices(r.choice, k), r.variant);
    }
  }

  lemma {:induction false} AppendApart(a: seq<nat>, b: seq<nat>, lo: nat, k: nat, n: nat)
    requires lo <= k <= n && Ascending(a, lo, k) && Ascending(b, k, n)
    ensures Ascending(a + b, lo, n)
    decreases |a|
  {
    if a == [] {
      assert a + b == b;
      AscendingWiden(b, k, n, lo, n);
    } else {
      AppendApart(a[1..], b, a[0] + 1, k, n);
      assert a + b == [a[0]] + (a[1..] + b);
    }
  }

  lemma DisjointApart(a: seq<nat>, b: seq<nat>, c: seq<nat>, d: seq<nat>, k: nat, n: nat)
    requires Ascending(a, 0, k) && Ascending(b, 0, k) && Ascending(c, k, n) && Ascending(d, k, n)
    requires Disjoint(a, b) && Disjoint(c, d)
    ensures Disjoint(a + c, b + d)
  {
    AscendingInRange(a, 0, k);
    AscendingInRange(b, 0, k);
    AscendingInRange(c, k, n);
    AscendingInRange(d, k, n);
  }

  lemma HalvesSums(data: seq<int>, a: seq<nat>, b: seq<nat>, c: seq<nat>, d: seq<nat>)
    requires SumAt(data, a) - SumAt(data, b) + (SumAt(data, c) - SumAt(data, d)) == 0
    ensures SumAt(data, a + c) == SumAt(data, b + d)
  {
    SumAtAppend(data, a, c);
    SumAtAppend(data, b, d);
  }

  lemma PairFromHalves(data: seq<int>, a: seq<nat>, b: seq<nat>, c: seq<nat>, d: seq<nat>, k: nat)
    requires k <= |data| && Ascending(a, 0, k) && Ascending(b, 0, k)
    requires Ascending(c, k, |data|) && Ascending(d, k, |data|)
    requires Disjoint(a, b) && Disjoint(c, d) && a + c != [] && b + d != []
    requires SumAt(data, a) - SumAt(data, b) + (SumAt(data, c) - SumAt(data, d)) == 0
    ensures EqualSumPair(data, a + c, b + d)
  {
    AppendApart(a, c, 0, k, |data|);
    AppendApart(b, d, 0, k, |data|);
    DisjointApart(a, b, c, d, k, |data|);
    HalvesSums(data, a, b, c, d);
  }

  /** Opposite sums and two non-empty groups make the merged lists a solution. */
  lemma MergeSound(data: seq<int>, l: Combination, r: Combination, k: nat)
    requires k <= |data| && l.choice < Pow2(k) && r.choice < Pow2(|data| - k)
    requires SignedSum(data, Indices(l.choice, 0), l.variant) + SignedSum(data, Indices(r.choice, k), r.variant) == 0
    requires PatternMixed(0, l.choice, l.variant) || PatternMixed(k, r.choice, r.variant)
             || (Indices(l.choice, 0) != [] && Indices(r.choice, k) != [] && l.variant % 2 != r.variant % 2)
    ensures EqualSumPair(data, Merged(l, r, k, 1), Merged(l, r, k, 0))
  {
    MergedNonEmpty(l, r, k);
    GroupFacts(data, l.choice, l.variant, 0, k);
    GroupFacts(data, r.choice, r.variant, k, |data| - k);
    PairFromHalves(data,
      Group(Indices(l.choice, 0), l.variant, 1), Group(Indices(l.choice, 0), l.variant, 0),
      Group(Indices(r.choice, k), r.variant, 1), Group(Indices(r.choice, k), r.variant, 0), k);
  }

  method MergeCombinations(l: Combination, r: Combination, k: nat) returns (s: Subsets)
    ensures s == Subsets(Merged(l, r, k, 1), Merged(l, r, k, 0), true)
  {
    var first, second := MakeSubsets(l, 0);
    var indices1, indices2 := MakeSubsets(r, k);
    s := Subsets(first + indices1, second + indices2, true);
  }

  // ---------------------------------------------------------------------------
  // Searching the right half
  // ---------------------------------------------------------------------------

  datatype Pair = Pair(left: Combination, right: Combination)

  ghost predicate GoodPair(data: seq<int>, k: nat, p: Pair) {
    EqualSumPair(data, Merged(p.left, p.right, k, 1), Merged(p.left, p.right, k, 0))
  }

  /** The map offers no partner for this right-half pattern. */
  ghost predicate Rejected(data: seq<int>, k: nat, sums: SumMap, choice: nat, variant: nat) {
    k <= |data| && Enumerated(data, k, |data| - k, choice, variant) ==>
      var s := PatternSum(data, k, |data| - k, choice, variant);
      var mixed := PatternMixed(k, choice, variant);
      && s !in sums
      && (-s in sums ==> !mixed && !sums[-s].hasTwoGroups)
      && !(s == 0 && mixed)
  }

  ghost predicate ChoiceRejected(data: seq<int>, k: nat, sums: SumMap, choice: nat) {
    forall v: nat :: Rejected(data, k, sums, choice, v)
  }

  /** Two unmixed enumerated patterns lie wholly in the second group; complementing one separates them. */
  lemma UnmixedOpposite(data: seq<int>, k: nat, s: int, l: Combination, choice: nat, i: nat)
    requires k <= |data| && EntrySound(data, k, s, l) && Enumerated(data, k, |data| - k, choice, i)
    requires !l.hasTwoGroups && !PatternMixed(k, choice, i)
    ensures l.variant == 0 && i == 0
  {
    UnmixedIsZero(|Indices(l.choice, 0)|, l.variant);
    UnmixedIsZero(|Indices(choice, k)|, i);
  }

  lemma SameAccepted(data: seq<int>, k: nat, s: int, l: Combination, choice: nat, i: nat)
    requires k <= |data| && EntrySound(data, k, s, l) && Enumerated(data, k, |data| - k, choice, i)
    ensures PatternMixed(k, choice, i) || l.hasTwoGroups || l.variant % 2 != Inverted(i) % 2
  {
    if !PatternMixed(k, choice, i) && !l.hasTwoGroups {
      UnmixedOpposite(data, k, s, l, choice, i);
    }
  }

  lemma OppositeAccepted(data: seq<int>, k: nat, s: int, l: Combination, choice: nat, i: nat)
    requires k <= |data| && EntrySound(data, k, s, l) && Enumerated(data, k, |data| - k, choice, i)
    ensures PatternMixed(k, choice, i) || l.hasTwoGroups || l.variant % 2 == i % 2
  {
    if !PatternMixed(k, choice, i) && !l.hasTwoGroups {
      UnmixedOpposite(data, k, s, l, choice, i);
    }
  }

  /** Equal sums: the right pattern joins with all its signs flipped. */
  lemma MatchSame(data: seq<int>, k: nat, s: int, l: Combination, choice: nat, i: nat, two: bool)
    requires k <= |data| && EntrySound(data, k, s, l) && Enumerated(data, k, |data| - k, choice, i)
    requires PatternSum(data, k, |data| - k, choice, i) == s && two == PatternMixed(k, choice, i)
    requires two || l.hasTwoGroups || l.variant % 2 != Inverted(i) % 2
    ensures GoodPair(data, k, Pair(l, Combination(choice, Inverted(i), two)))
  {
    Complement(data, Indices(choice, k), i);
    MergeSound(data, l, Combination(choice, Inverted(i), two), k);
  }

  /** Opposite sums: the right pattern joins as it is. */
  lemma MatchOpposite(data: seq<int>, k: nat, s: int, l: Combination, choice: nat, i: nat, two: bool)
    requires k <= |data| && EntrySound(data, k, -s, l) && Enumerated(data, k, |data| - k, choice, i)
    requires PatternSum(data, k, |data| - k, choice, i) == s && two == PatternMixed(k, choice, i)
    requires two || l.hasTwoGroups || l.variant % 2 != i % 2
    ensures GoodPair(data, k, Pair(l, Combination(choice, i, two)))
  {
    MergeSound(data, l, Combination(choice, i, two), k);
  }

  lemma MatchAlone(data: seq<int>, k: nat, choice: nat, i: nat)
    requires k <= |data| && Enumerated(data, k, |data| - k, choice, i)
    requires PatternSum(data, k, |data| - k, choice, i) == 0 && PatternMixed(k, choice, i)
    ensures GoodPair(data, k, Pair(Combination(0, 0, false), Combination(choice, i, true)))
  {
    MergeSound(data, Combination(0, 0, false), Combination(choice, i, true), k);
  }

  method CheckChoice(data: seq<int>, sums: SumMap, choice: nat, k: nat) returns (found: Option<Pair>)
    requires k <= |data| && 0 < choice < Pow2(|data| - k) && SumsSound(data, k, sums)
    ensures found.Some? ==> GoodPair(data, k, found.value)
    ensures found.None? ==> ChoiceRejected(data, k, sums, choice)
  {
    ChoiceIndices(data, k, |data| - k, choice);
    var indices := MakeIndicesFromChoice(choice, k);
    var count := Pow2(|indices| - 1);
    var i: nat := 0;
    while i < count
      invariant i <= count
      invariant forall v: nat :: v < i ==> Rejected(data, k, sums, choice, v)
    {
      var sum, two := ComputeSum(data, indices, i);
      assert Enumerated(data, k, |data| - k, choice, i) && PatternSum(data, k, |data| - k, choice, i) == sum;
      if sum in sums {
        var c := sums[sum];
        SameAccepted(data, k, sum, c, choice, i);
        if two || c.hasTwoGroups || c.variant % 2 != Inverted(i) % 2 {
          MatchSame(data, k, sum, c, choice, i, two);
          return Some(Pair(c, Combination(choice, Inverted(i), two)));
        }
      }
      if -sum in sums {
        var c := sums[-sum];
        OppositeAccepted(data, k, -sum, c, choice, i);
        if two || c.hasTwoGroups || c.variant % 2 != i % 2 {
          MatchOpposite(data, k, sum, c, choice, i, two);
          return Some(Pair(c, Combination(choice, i, two)));
        }
      }
      if sum == 0 && two {
        MatchAlone(data, k, choice, i);
        return Some(Pair(Combination(0, 0, false), Combination(choice, i, two)));
      }
      i := i + 1;
    }
    found := None;
  }

  // ---------------------------------------------------------------------------
  // Completeness: what the map threw away was never needed
  // ---------------------------------------------------------------------------

  lemma LastSignPresent(signs: seq<int>)
    ensures LastSign(signs) != 0 ==> LastSign(signs) in signs
    ensures LastSign(signs) == 0 ==> forall x :: x in signs ==> x == 0
    decreases |signs|
  {
    if signs != [] {
      LastSignPresent(signs[1..]);
      assert signs == [signs[0]] + signs[1..];
    }
  }

  lemma {:induction false} ZeroWeight(data: seq<int>, start: nat, signs: seq<int>)
    requires LastSign(signs) == 0
    ensures Weighted(data, start, signs) == 0
    decreases |signs|
  {
    if signs != [] {
      ZeroWeight(data, start + 1, signs[1..]);
    }
  }

  /** Flipping all signs if needed makes the last one minus, which is what gets enumerated. */
  ghost function Normal(signs: seq<int>): seq<int> {
    if LastSign(signs) == 1 then Negated(signs) else signs
  }

  lemma NormalEnumerated(data: seq<int>, start: nat, signs: seq<int>)
    requires Signs(signs) && start + |signs| <= |data| && LastSign(signs) != 0
    ensures var m := Normal(signs);
            && Enumerated(data, start, |signs|, ChoiceOf(m), VariantOf(m))
            && PatternSum(data, start, |signs|, ChoiceOf(m), VariantOf(m))
               == (if LastSign(signs) == 1 then -Weighted(data, start, signs) else Weighted(data, start, signs))
            && (PatternMixed(start, ChoiceOf(m), VariantOf(m)) <==> 1 in m && -1 in m)
            && -1 in m
  {
    LastSignPresent(signs);
    NegatedEncoding(data, start, signs);
    var m := Normal(signs);
    LastSignPresent(m);
    EncodedIndices(data, start, m);
    EncodedVariantBound(m, start);
    EncodedMixed(m, start);
    MixedGroups(Indices(ChoiceOf(m), start), VariantOf(m));
  }

  lemma NormalSigns(signs: seq<int>)
    requires Signs(signs)
    ensures LastSign(signs) == 1 ==> (1 in signs <==> -1 in Normal(signs)) && (-1 in signs <==> 1 in Normal(signs))
  {
    assert forall i :: 0 <= i < |signs| ==> Negated(signs)[i] == -signs[i];
    if LastSign(signs) == 1 {
      assert 1 in signs <==> -1 in Normal(signs) by { NegatedMember(signs, 1); NegatedMember(Negated(signs), -1); }
      assert -1 in signs <==> 1 in Normal(signs) by { NegatedMember(signs, -1); NegatedMember(Negated(signs), 1); }
    }
  }

  lemma NegatedMember(signs: seq<int>, x: int)
    ensures x in signs ==> -x in Negated(signs)
    ensures Negated(Negated(signs)) == signs
  {
    if x in signs {
      var i :| 0 <= i < |signs| && signs[i] == x;
      assert Negated(signs)[i] == -x;
    }
  }

  /** Some right-half pattern finds a partner in the map. */
  ghost predicate SomeMatch(data: seq<int>, k: nat, sums: SumMap) {
    exists c: nat, v: nat :: !Rejected(data, k, sums, c, v)
  }

  /** Whatever entry the map kept for the left pattern's sum, the search accepts it. */
  lemma PartnerFound(data: seq<int>, k: nat, sums: SumMap, cl: nat, vl: nat, cr: nat, vr: nat)
    requires k <= |data| && Recorded(data, k, sums, cl, vl)
    requires Enumerated(data, 0, k, cl, vl) && Enumerated(data, k, |data| - k, cr, vr)
    requires var x, y := PatternSum(data, 0, k, cl, vl), PatternSum(data, k, |data| - k, cr, vr);
             x == y || (x == -y && (PatternMixed(0, cl, vl) || PatternMixed(k, cr, vr)))
    ensures SomeMatch(data, k, sums)
  {
    assert !Rejected(data, k, sums, cr, vr);
  }

  /** Patterns on both halves give a match. */
  lemma BothHalves(data: seq<int>, k: nat, sums: SumMap, l: seq<int>, r: seq<int>)
    requires k <= |data| && |l| == k && |r| == |data| - k && Signs(l) && Signs(r)
    requires SumsComplete(data, k, sums)
    requires LastSign(l) != 0 && LastSign(r) != 0
    requires Weighted(data, 0, l) + Weighted(data, k, r) == 0
    requires (1 in l || 1 in r) && (-1 in l || -1 in r)
    ensures SomeMatch(data, k, sums)
  {
    var m, q := Normal(l), Normal(r);
    NormalEnumerated(data, 0, l);
    NormalEnumerated(data, k, r);
    if LastSign(l) == LastSign(r) {
      SameSideMixed(l, r);
    }
    LastSignValue(l);
    LastSignValue(r);
    assert Recorded(data, k, sums, ChoiceOf(m), VariantOf(m));
    PartnerFound(data, k, sums, ChoiceOf(m), VariantOf(m), ChoiceOf(q), VariantOf(q));
  }

  lemma LastSignValue(signs: seq<int>)
    requires Signs(signs)
    ensures LastSign(signs) in {-1, 0, 1}
  {
    LastSignPresent(signs);
  }

  /** If both halves are flipped, or neither, one of them shows both signs. */
  lemma SameSideMixed(l: seq<int>, r: seq<int>)
    requires Signs(l) && Signs(r) && LastSign(l) == LastSign(r) != 0
    requires (1 in l || 1 in r) && (-1 in l || -1 in r)
    ensures 1 in Normal(l) || 1 in Normal(r)
  {
    NormalSigns(l);
    NormalSigns(r);
  }

  /** A solution inside one half is found there. */
  lemma OneHalf(data: seq<int>, start: nat, signs: seq<int>)
    requires Signs(signs) && start + |signs| <= |data| && 1 in signs && -1 in signs
    requires Weighted(data, start, signs) == 0
    ensures LastSign(signs) != 0
    ensures var m := Normal(signs);
            && Enumerated(data, start, |signs|, ChoiceOf(m), VariantOf(m))
            && PatternSum(data, start, |signs|, ChoiceOf(m), VariantOf(m)) == 0
            && PatternMixed(start, ChoiceOf(m), VariantOf(m))
  {
    LastSignPresent(signs);
    NormalEnumerated(data, start, signs);
    NormalSigns(signs);
  }

  /** If a solution exists, the left map shows it or some right-half pattern does. */
  lemma SearchComplete(data: seq<int>, k: nat, sums: SumMap, a: seq<nat>, b: seq<nat>)
    requires k <= |data| && SumsComplete(data, k, sums) && EqualSumPair(data, a, b)
    ensures HasZeroPair(sums) || SomeMatch(data, k, sums)
  {
    PairToSigns(data, a, b, k);
    var l, r := SignsOf(a, b, 0, k), SignsOf(a, b, k, |data|);
    LastSignPresent(l);
    LastSignPresent(r);
    if LastSign(r) == 0 {
      ZeroWeight(data, k, r);
      OneHalf(data, 0, l);
      assert Recorded(data, k, sums, ChoiceOf(Normal(l)), VariantOf(Normal(l)));
    } else if LastSign(l) == 0 {
      ZeroWeight(data, 0, l);
      OneHalf(data, k, r);
      assert !Rejected(data, k, sums, ChoiceOf(Normal(r)), VariantOf(Normal(r)));
    } else {
      BothHalves(data, k, sums, l, r);
    }
  }

  // ---------------------------------------------------------------------------
  // The search over all right-half choices, alone or by eight threads
  // ---------------------------------------------------------------------------

  /**
    One thread of ThreadCheckChoices: about to test the flag, about to check a choice,
    about to publish what it found after winning test_and_set, or finished.
  */
  datatype Worker =
    | AtTest(next: nat, end: nat)
    | AtCheck(next: nat, end: nat)
    | AtPublish(pair: Pair)
    | Finished
  {
    /** Steps the worker can still take. */
    function Fuel(): nat {
      match this
      case AtTest(i, e) => if i < e then 3 * (e - i) + 3 else 3
      case AtCheck(i, e) => if i < e then 3 * (e - i) + 2 else 2
      case AtPublish(_) => 1
      case Finished => 0
    }
  }

  function TotalFuel(workers: seq<Worker>): nat {
    if workers == [] then 0 else workers[0].Fuel() + TotalFuel(workers[1..])
  }

  lemma {:induction false} FuelDrops(workers: seq<Worker>, t: nat, w: Worker)
    requires t < |workers| && w.Fuel() < workers[t].Fuel()
    ensures TotalFuel(workers[t := w]) < TotalFuel(workers)
    decreases |workers|
  {
    if t > 0 {
      FuelDrops(workers[1..], t - 1, w);
      assert workers[t := w][1..] == workers[1..][t - 1 := w];
    } else {
      assert workers[t := w][1..] == workers[1..];
    }
  }

  /** Choices below a worker's cursor were rejected; a finished worker left none, or the flag is up. */
  ghost predicate Swept(data: seq<int>, k: nat, sums: SumMap, flag: bool, lo: nat, hi: nat, w: Worker) {
    match w
    case AtTest(i, e) => lo <= i <= e == hi && forall c: nat :: lo <= c < i ==> ChoiceRejected(data, k, sums, c)
    case AtCheck(i, e) => lo <= i < e == hi && forall c: nat :: lo <= c < i ==> ChoiceRejected(data, k, sums, c)
    case AtPublish(p) => flag && GoodPair(data, k, p)
    case Finished => flag || forall c: nat :: lo <= c < hi ==> ChoiceRejected(data, k, sums, c)
  }

  /** The first choice of thread t; thread t has one more choice while t is below the remainder. */
  function RangeStart(total: nat, t: nat): nat {
    1 + t * (total / THREAD_COUNT) + (if t < total % THREAD_COUNT then t else total % THREAD_COUNT)
  }

  lemma RangeNext(total: nat, t: nat)
    ensures RangeStart(total, t + 1) ==
            RangeStart(total, t) + total / THREAD_COUNT + (if t < total % THREAD_COUNT then 1 else 0)
    ensures RangeStart(total, 0) == 1 && RangeStart(total, THREAD_COUNT) == total + 1
  {
    var q := total / THREAD_COUNT;
    assert (t + 1) * q == t * q + q;
  }

  lemma {:induction false} RangeOf(total: nat, c: nat, t: nat) returns (u: nat)
    requires 1 <= c < RangeStart(total, t) && t <= THREAD_COUNT
    ensures u < t && RangeStart(total, u) <= c < RangeStart(total, u + 1)
    decreases t
  {
    RangeNext(total, 0);
    if c >= RangeStart(total, t - 1) {
      u := t - 1;
    } else {
      u := RangeOf(total, c, t - 1);
    }
  }

  ghost predicate AllSwept(data: seq<int>, k: nat, sums: SumMap, flag: bool, total: nat, workers: seq<Worker>) {
    && |workers| == THREAD_COUNT
    && forall t :: 0 <= t < THREAD_COUNT ==>
         Swept(data, k, sums, flag, RangeStart(total, t), RangeStart(total, t + 1), workers[t])
  }

  /** Whoever raised the flag has published or still will. */
  ghost predicate Published(data: seq<int>, k: nat, flag: bool, found: Option<Pair>, workers: seq<Worker>) {
    && (found.Some? ==> GoodPair(data, k, found.value))
    && (flag && found.None? ==> exists t :: 0 <= t < |workers| && workers[t].AtPublish?)
    && (!flag ==> found.None?)
  }

  /** Raising the flag keeps every other worker's claim. */
  lemma SweptRaise(data: seq<int>, k: nat, sums: SumMap, flag: bool, flag': bool, total: nat,
                   workers: seq<Worker>, t: nat, w: Worker)
    requires AllSwept(data, k, sums, flag, total, workers) && t < THREAD_COUNT
    requires flag ==> flag'
    requires Swept(data, k, sums, flag', RangeStart(total, t), RangeStart(total, t + 1), w)
    ensures AllSwept(data, k, sums, flag', total, workers[t := w])
  {
    forall u | 0 <= u < THREAD_COUNT
      ensures Swept(data, k, sums, flag', RangeStart(total, u), RangeStart(total, u + 1), workers[t := w][u])
    {
      assert Swept(data, k, sums, flag, RangeStart(total, u), RangeStart(total, u + 1), workers[u]);
    }
  }

  /** One atomic step of one thread. */
  method WorkerStep(data: seq<int>, sums: SumMap, k: nat, w: Worker, flag: bool, found: Option<Pair>,
                    ghost lo: nat, ghost hi: nat)
    returns (w': Worker, flag': bool, found': Option<Pair>)
    requires k <= |data| && SumsSound(data, k, sums)
    requires 1 <= lo && hi <= Pow2(|data| - k) && !w.Finished?
    requires Swept(data, k, sums, flag, lo, hi, w)
    ensures w'.Fuel() < w.Fuel() && Swept(data, k, sums, flag', lo, hi, w')
    ensures flag ==> flag'
    ensures w.AtPublish? ==> found' == Some(w.pair) && flag' == flag
    ensures !w.AtPublish? ==> found' == found
    ensures flag' && !flag ==> w'.AtPublish?
  {
    w', flag', found' := w, flag, found;
    match w {
      case AtTest(i, e) =>
        w' := if i == e || flag then Finished else AtCheck(i, e);
      case AtCheck(i, e) =>
        var r := CheckChoice(data, sums, i, k);
        if r.Some? {
          if !flag {
            flag' := true;
            w' := AtPublish(r.value);
          } else {
            w' := Finished;
          }
        } else {
          w' := AtTest(i + 1, e);
        }
      case AtPublish(p) =>
        found' := Some(p);
        w' := Finished;
    }
  }

  lemma PublishedStep(data: seq<int>, k: nat, flag: bool, found: Option<Pair>, workers: seq<Worker>,
                      flag': bool, found': Option<Pair>, t: nat, w: Worker)
    requires Published(data, k, flag, found, workers) && t < |workers|
    requires workers[t].AtPublish? ==>
               found' == Some(workers[t].pair) && flag' == flag && flag && GoodPair(data, k, workers[t].pair)
    requires !workers[t].AtPublish? ==> found' == found
    requires flag ==> flag'
    requires flag' && !flag ==> w.AtPublish?
    ensures Published(data, k, flag', found', workers[t := w])
  {
    if flag' && found'.None? {
      if flag {
        var u :| 0 <= u < |workers| && workers[u].AtPublish?;
        assert workers[t := w][u].AtPublish?;
      } else {
        assert workers[t := w][t].AtPublish?;
      }
    }
  }

  /** The per-thread ranges of FindSuitableCombination, each thread at its first test. */
  method StartWorkers(total: nat) returns (workers: seq<Worker>)
    ensures |workers| == THREAD_COUNT
    ensures forall t :: 0 <= t < THREAD_COUNT ==>
              workers[t] == AtTest(RangeStart(total, t), RangeStart(total, t + 1))
  {
    var perThread, residual := total / THREAD_COUNT, total % THREAD_COUNT;
    workers := [];
    var current: nat := 1;
    while |workers| < THREAD_COUNT
      invariant |workers| <= THREAD_COUNT && current == RangeStart(total, |workers|)
      invariant forall t :: 0 <= t < |workers| ==>
                  workers[t] == AtTest(RangeStart(total, t), RangeStart(total, t + 1))
    {
      RangeNext(total, |workers|);
      var count := if |workers| < residual then perThread + 1 else perThread;
      workers := workers + [AtTest(current, current + count)];
      current := current + count;
    }
  }

  lemma StartSwept(data: seq<int>, k: nat, sums: SumMap, total: nat, workers: seq<Worker>)
    requires |workers| == THREAD_COUNT
    requires forall t :: 0 <= t < THREAD_COUNT ==>
               workers[t] == AtTest(RangeStart(total, t), RangeStart(total, t + 1))
    ensures AllSwept(data, k, sums, false, total, workers)
  {
    forall t | 0 <= t < THREAD_COUNT
      ensures Swept(data, k, sums, false, RangeStart(total, t), RangeStart(total, t + 1), workers[t])
    {
      RangeBounds(total, t);
    }
  }

  lemma FinishedSwept(data: seq<int>, k: nat, sums: SumMap, total: nat, workers: seq<Worker>)
    requires AllSwept(data, k, sums, false, total, workers)
    requires forall t :: 0 <= t < |workers| ==> workers[t].Finished?
    ensures forall c: nat :: 0 < c <= total ==> ChoiceRejected(data, k, sums, c)
  {
    forall c: nat | 0 < c <= total ensures ChoiceRejected(data, k, sums, c) {
      RangeNext(total, 0);
      var u := RangeOf(total, c, THREAD_COUNT);
      assert Swept(data, k, sums, false, RangeStart(total, u), RangeStart(total, u + 1), workers[u]);
    }
  }

  /** Any schedule of the eight threads; the outcome is read only once all have finished. */
  method RunWorkers(data: seq<int>, sums: SumMap, k: nat) returns (found: Option<Pair>)
    requires k <= |data| && SumsSound(data, k, sums)
    ensures found.Some? ==> GoodPair(data, k, found.value)
    ensures found.None? ==> forall c: nat :: 0 < c < Pow2(|data| - k) ==> ChoiceRejected(data, k, sums, c)
  {
    var total := Pow2(|data| - k) - 1;
    var workers := StartWorkers(total);
    StartSwept(data, k, sums, total, workers);
    var flag := false;
    found := None;
    while exists t :: 0 <= t < |workers| && !workers[t].Finished?
      invariant AllSwept(data, k, sums, flag, total, workers)
      invariant Published(data, k, flag, found, workers)
      decreases TotalFuel(workers)
    {
      var t :| 0 <= t < |workers| && !workers[t].Finished?;
      RangeBounds(total, t);
      assert Swept(data, k, sums, flag, RangeStart(total, t), RangeStart(total, t + 1), workers[t]);
      var w, flag', found' := WorkerStep(data, sums, k, workers[t], flag, found,
                                         RangeStart(total, t), RangeStart(total, t + 1));
      FuelDrops(workers, t, w);
      SweptRaise(data, k, sums, flag, flag', total, workers, t, w);
      PublishedStep(data, k, flag, found, workers, flag', found', t, w);
      workers, flag, found := workers[t := w], flag', found';
    }
    if found.None? {
      FinishedSwept(data, k, sums, total, workers);
    }
  }

  lemma {:induction false} RangeBounds(total: nat, t: nat)
    requires t < THREAD_COUNT
    ensures 1 <= RangeStart(total, t) <= RangeStart(total, t + 1) <= total + 1
    decreases THREAD_COUNT - t
  {
    RangeNext(total, t);
    if t + 1 < THREAD_COUNT {
      RangeBounds(total, t + 1);
    }
  }

  method FindSuitableCombination(data: seq<int>, sums: SumMap, k: nat) returns (found: Option<Pair>)
    requires k <= |data| && SumsSound(data, k, sums)
    ensures found.Some? ==> GoodPair(data, k, found.value)
    ensures found.None? ==> forall c: nat :: 0 < c < Pow2(|data| - k) ==> ChoiceRejected(data, k, sums, c)
  {
    var choices := Pow2(|data| - k);
    if (choices - 1) / THREAD_COUNT < 8 {
      var i: nat := 1;
      while i < choices
        invariant 1 <= i <= choices
        invariant forall c: nat :: 0 < c < i ==> ChoiceRejected(data, k, sums, c)
      {
        found := CheckChoice(data, sums, i, k);
        if found.Some? {
          return;
        }
        i := i + 1;
      }
      found := None;
    } else {
      found := RunWorkers(data, sums, k);
    }
  }

  // ---------------------------------------------------------------------------
  // The whole search
  // ---------------------------------------------------------------------------

  lemma ZeroPairSound(data: seq<int>, k: nat, sums: SumMap)
    requires k <= |data| && SumsSound(data, k, sums) && HasZeroPair(sums)
    ensures var indices := Indices(sums[0].choice, 0);
            EqualSumPair(data, Group(indices, sums[0].variant, 1), Group(indices, sums[0].variant, 0))
  {
    var c := sums[0];
    assert EntrySound(data, k, 0, c);
    var none := Combination(0, 0, false);
    MergeSound(data, c, none, k);
    assert Merged(c, none, k, 1) == Group(Indices(c.choice, 0), c.variant, 1);
    assert Merged(c, none, k, 0) == Group(Indices(c.choice, 0), c.variant, 0);
  }

  lemma NoMatch(data: seq<int>, k: nat, sums: SumMap)
    requires k <= |data|
    requires forall c: nat :: 0 < c < Pow2(|data| - k) ==> ChoiceRejected(data, k, sums, c)
    ensures !SomeMatch(data, k, sums)
  {
    forall c: nat, v: nat ensures Rejected(data, k, sums, c, v) {
      if 0 < c < Pow2(|data| - k) {
        assert ChoiceRejected(data, k, sums, c);
      }
    }
  }

  lemma NothingToFind(data: seq<int>, k: nat, sums: SumMap)
    requires k <= |data| && SumsComplete(data, k, sums) && !HasZeroPair(sums)
    requires forall c: nat :: 0 < c < Pow2(|data| - k) ==> ChoiceRejected(data, k, sums, c)
    ensures forall a, b :: !EqualSumPair(data, a, b)
  {
    forall a, b ensures !EqualSumPair(data, a, b) {
      if EqualSumPair(data, a, b) {
        SearchComplete(data, k, sums, a, b);
        NoMatch(data, k, sums);
        assert false;
      }
    }
  }

  lemma TooShort(data: seq<int>)
    requires |data| < 2
    ensures forall a, b :: !EqualSumPair(data, a, b)
  {
    forall a, b ensures !EqualSumPair(data, a, b) {
      assert a != [] && b != [] && Ascending(a, 0, |data|) && Ascending(b, 0, |data|) ==> a[0] == b[0] && a[0] in a && a[0] in b;
    }
  }

  method FindEqualSumSubsets(data: seq<int>) returns (r: Subsets)
    ensures r.found <==> exists a, b :: EqualSumPair(data, a, b)
    ensures r.found ==> EqualSumPair(data, r.first, r.second)
    ensures !r.found ==> r.first == [] && r.second == []
  {
    if |data| < 2 {
      TooShort(data);
      return Subsets([], [], false);
    }
    var k := if |data| > 2 then |data| / 2 else 1;
    var sums := ComputeSumMap(data, k);
    if HasZeroPair(sums) {
      var first, second := MakeSubsets(sums[0], 0);
      ZeroPairSound(data, k, sums);
      return Subsets(first, second, true);
    }
    var found := FindSuitableCombination(data, sums, k);
    if found.Some? {
      r := MergeCombinations(found.value.left, found.value.right, k);
    } else {
      NothingToFind(data, k, sums);
      r := Subsets([], [], false);
    }
  }
}
