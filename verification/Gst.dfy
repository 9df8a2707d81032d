/** The GSTIN: its shape, its check digit, and which copying mistakes they catch. */
module Gst {
  predicate IsDigit(c: char) { '0' <= c <= '9' }

  predicate IsLetter(c: char) { 'A' <= c <= 'Z' }

  /** One of the thirty-six characters that have a value. */
  predicate InAlphabet(c: char) { IsDigit(c) || IsLetter(c) }

  function Value(c: char): (v: nat)
    requires InAlphabet(c)
    ensures v < 36
    ensures IsDigit(c) <==> v < 10
  {
    if IsDigit(c) then c as int - '0' as int else c as int - 'A' as int + 10
  }

  function CharOf(v: nat): (c: char)
    requires v < 36
    ensures InAlphabet(c) && Value(c) == v
  {
    if v < 10 then '0' + v as char else 'A' + (v - 10) as char
  }

  lemma ValueInjective(a: char, b: char)
    requires InAlphabet(a) && InAlphabet(b) && Value(a) == Value(b)
    ensures a == b
  {
  }

  predicate AllInAlphabet(s: string) {
    forall i | 0 <= i < |s| :: InAlphabet(s[i])
  }

  /** One product folded in base 36: quotient plus remainder. */
  function Folded(value: nat, weight: nat): nat {
    (value * weight) / 36 + (value * weight) % 36
  }

  /** The contribution of the character at position i, whose weight is 1 or 2. */
  function Term(c: char, i: nat): nat
    requires InAlphabet(c)
  {
    Folded(Value(c), if i % 2 == 0 then 1 else 2)
  }

  function WeightedSum(s: string): nat
    requires AllInAlphabet(s)
  {
    if s == "" then 0 else WeightedSum(s[..|s| - 1]) + Term(s[|s| - 1], |s| - 1)
  }

  /**
   * Nothing, if some character has no value; otherwise the one character whose
   * value completes the weighted sum to a multiple of 36.
   */
  method GstinCheckDigit(first14: string) returns (digit: string)
    ensures !AllInAlphabet(first14) ==> digit == ""
    ensures AllInAlphabet(first14) ==> Completes(first14, digit)
    ensures digit == CheckDigit(first14)
  {
    var sum := 0;
    for i := 0 to |first14|
      invariant AllInAlphabet(first14[..i])
      invariant sum == WeightedSum(first14[..i])
    {
      assert first14[..i + 1][..i] == first14[..i];
      if !InAlphabet(first14[i]) {
        return "";
      }
      var weight := if i % 2 == 0 then 1 else 2;
      var product := Value(first14[i]) * weight;
      sum := sum + product / 36 + product % 36;
    }
    assert first14[..|first14|] == first14;
    Complement(sum);
    digit := [CharOf((36 - sum % 36) % 36)];
  }

  predicate Completes(first14: string, digit: string)
    requires AllInAlphabet(first14)
  {
    |digit| == 1 && InAlphabet(digit[0]) && (WeightedSum(first14) + Value(digit[0])) % 36 == 0
  }

  function CheckDigit(s: string): string {
    if AllInAlphabet(s) then [CharOf((36 - WeightedSum(s) % 36) % 36)] else ""
  }

  /** What is missing to the next multiple of 36. */
  lemma Complement(sum: nat)
    ensures var d := (36 - sum % 36) % 36; d < 36 && (sum + d) % 36 == 0 && (d == 0 <==> sum % 36 == 0)
    ensures var d := (36 - sum % 36) % 36; sum % 36 != 0 ==> d == 36 - sum % 36
  {
    var q, a := sum / 36, sum % 36;
    if a != 0 {
      assert sum + (36 - a) == 36 * (q + 1);
    }
  }

  /** There is exactly one completing character, so the digit is determined by the sum modulo 36. */
  lemma CheckDigitsAgreeIff(s: string, t: string)
    requires AllInAlphabet(s) && AllInAlphabet(t)
    ensures CheckDigit(s) == CheckDigit(t) <==> WeightedSum(s) % 36 == WeightedSum(t) % 36
  {
    Complement(WeightedSum(s));
    Complement(WeightedSum(t));
    var a, b := (36 - WeightedSum(s) % 36) % 36, (36 - WeightedSum(t) % 36) % 36;
    assert CheckDigit(s) == [CharOf(a)] && CheckDigit(t) == [CharOf(b)];
    assert CheckDigit(s)[0] == CharOf(a) && CheckDigit(t)[0] == CharOf(b);
    assert Value(CharOf(a)) == a && Value(CharOf(b)) == b;
  }

  /** Only zeros weigh nothing, and a string of them is completed by one more. */
  lemma {:induction false} OnlyZerosWeighNothing(s: string)
    requires AllInAlphabet(s)
    ensures WeightedSum(s) == 0 <==> forall i | 0 <= i < |s| :: s[i] == '0'
    ensures WeightedSum(s) == 0 ==> CheckDigit(s) == "0"
  {
    if s != "" {
      var front := s[..|s| - 1];
      OnlyZerosWeighNothing(front);
      assert Term(s[|s| - 1], |s| - 1) == 0 <==> s[|s| - 1] == '0';
      assert forall i | 0 <= i < |front| :: front[i] == s[i];
    }
  }

  lemma SameRemainder(k: int, x: int, y: int)
    ensures (k + x) % 36 == (k + y) % 36 <==> (x - y) % 36 == 0
  {
    var p, q := (k + x) / 36, (k + y) / 36;
    var a, b := (k + x) % 36, (k + y) % 36;
    assert x - y == 36 * (p - q) + (a - b);
  }

  lemma SmallMultipleOf36(d: int)
    requires -36 < d < 36
    ensures d % 36 == 0 <==> d == 0
  {
  }

  // ---------------------------------------------------------------------------
  // The checksum by itself
  // ---------------------------------------------------------------------------

  lemma {:induction false} SumSubstituted(s: string, i: nat, c: char)
    requires AllInAlphabet(s) && i < |s| && InAlphabet(c)
    ensures AllInAlphabet(s[i := c])
    ensures WeightedSum(s[i := c]) == WeightedSum(s) - Term(s[i], i) + Term(c, i)
    decreases |s|
  {
    var n := |s| - 1;
    if i < n {
      SumSubstituted(s[..n], i, c);
      assert s[i := c][..n] == s[..n][i := c];
    } else {
      assert s[i := c][..n] == s[..n];
    }
  }

  /** Doubling and folding: the even values below 36, then the odd ones. */
  lemma FoldedValues(v: nat)
    requires v < 36
    ensures Folded(v, 1) == v
    ensures Folded(v, 2) == if v < 18 then 2 * v else 2 * v - 35
  {
    if v < 18 { assert (2 * v) / 36 == 0; } else { assert (2 * v) / 36 == 1; }
  }

  /** Folding is a bijection of 0..35, so a changed character changes the sum modulo 36. */
  lemma TermsDiffer(a: char, b: char, i: nat)
    requires InAlphabet(a) && InAlphabet(b) && a != b
    ensures Term(a, i) < 36 && Term(b, i) < 36 && Term(a, i) != Term(b, i)
  {
    FoldedValues(Value(a));
    FoldedValues(Value(b));
    if Value(a) == Value(b) { ValueInjective(a, b); }
  }

  /** The checksum catches every single substitution. */
  lemma SubstitutionChangesDigit(s: string, i: nat, c: char)
    requires AllInAlphabet(s) && i < |s| && InAlphabet(c) && c != s[i]
    ensures CheckDigit(s[i := c]) != CheckDigit(s)
  {
    SumSubstituted(s, i, c);
    TermsDiffer(s[i], c, i);
    SameRemainder(WeightedSum(s), Term(c, i) - Term(s[i], i), 0);
    SmallMultipleOf36(Term(c, i) - Term(s[i], i));
    CheckDigitsAgreeIff(s[i := c], s);
  }

  function Swapped(s: string, i: nat): (t: string)
    requires i + 1 < |s|
    ensures |t| == |s|
  {
    s[i := s[i + 1]][i + 1 := s[i]]
  }

  predicate ZeroAndZ(a: char, b: char) {
    (a == '0' && b == 'Z') || (a == 'Z' && b == '0')
  }

  /** How far doubling and folding moves a value. */
  function Gain(v: nat): int
    requires v < 36
  {
    if v < 18 then v else v - 35
  }

  lemma GainsAgreeIff(x: nat, y: nat)
    requires x < 36 && y < 36
    ensures -36 < Gain(x) - Gain(y) < 36
    ensures Gain(x) == Gain(y) <==> x == y || (x == 0 && y == 35) || (x == 35 && y == 0)
  {
  }

  lemma TermsByParity(c: char, i: nat)
    requires InAlphabet(c)
    ensures Term(c, i) == Value(c) + if i % 2 == 0 then 0 else Gain(Value(c))
  {
    FoldedValues(Value(c));
  }

  lemma OnlyZeroAndZ(a: char, b: char)
    requires InAlphabet(a) && InAlphabet(b)
    ensures (Value(a) == 0 && Value(b) == 35) || (Value(a) == 35 && Value(b) == 0) <==> ZeroAndZ(a, b)
    ensures Value(a) == Value(b) <==> a == b
  {
  }

  /** What a swap adds to the sum. */
  function SwapGap(a: char, b: char, i: nat): int
    requires InAlphabet(a) && InAlphabet(b)
  {
    Term(b, i) + Term(a, i + 1) - Term(a, i) - Term(b, i + 1)
  }

  /** Two neighbours contribute the same either way round only when they are equal, or a 0 and a Z. */
  lemma NeighboursAgreeIff(a: char, b: char, i: nat)
    requires InAlphabet(a) && InAlphabet(b)
    ensures SwapGap(a, b, i) % 36 == 0 <==> a == b || ZeroAndZ(a, b)
  {
    TermsByParity(a, i);
    TermsByParity(b, i);
    TermsByParity(a, i + 1);
    TermsByParity(b, i + 1);
    var gain := Gain(Value(a)) - Gain(Value(b));
    var gap := SwapGap(a, b, i);
    assert gap == if i % 2 == 0 then gain else -gain;
    GainsAgreeIff(Value(a), Value(b));
    SmallMultipleOf36(gap);
    OnlyZeroAndZ(a, b);
  }

  lemma SwapMovesSum(s: string, i: nat)
    requires AllInAlphabet(s) && i + 1 < |s|
    ensures AllInAlphabet(Swapped(s, i))
    ensures WeightedSum(Swapped(s, i)) == WeightedSum(s) + SwapGap(s[i], s[i + 1], i)
  {
    SumSubstituted(s, i, s[i + 1]);
    SumSubstituted(s[i := s[i + 1]], i + 1, s[i]);
  }

  /** The bare checksum misses exactly one neighbouring swap: a 0 and a Z. */
  lemma SwapKeepsDigitIff(s: string, i: nat)
    requires AllInAlphabet(s) && i + 1 < |s|
    ensures CheckDigit(Swapped(s, i)) == CheckDigit(s) <==> s[i] == s[i + 1] || ZeroAndZ(s[i], s[i + 1])
  {
    SwapMovesSum(s, i);
    SameRemainder(WeightedSum(s), SwapGap(s[i], s[i + 1], i), 0);
    CheckDigitsAgreeIff(Swapped(s, i), s);
    NeighboursAgreeIff(s[i], s[i + 1], i);
  }

  // ---------------------------------------------------------------------------
  // The whole number
  // ---------------------------------------------------------------------------

  /** Codes a registration may begin with: 01 to 38, and 97. */
  predicate IsStateCode(code: string) {
    && |code| == 2 && IsDigit(code[0]) && IsDigit(code[1])
    && var n := 10 * Value(code[0]) + Value(code[1]);
    1 <= n <= 38 || n == 97
  }

  /** Two digits, five letters, four digits, a letter, a letter or digit, `Z`, a letter or digit. */
  predicate HasShape(s: string) {
    && |s| == 15
    && (forall i | 0 <= i < 2 :: IsDigit(s[i]))
    && (forall i | 2 <= i < 7 :: IsLetter(s[i]))
    && (forall i | 7 <= i < 11 :: IsDigit(s[i]))
    && IsLetter(s[11]) && InAlphabet(s[12]) && s[13] == 'Z' && InAlphabet(s[14])
  }

  predicate IsGstin(s: string) {
    HasShape(s) && IsStateCode(s[..2]) && [s[14]] == CheckDigit(s[..14])
  }

  /** Exactly these thirty-nine numbers, spelled with two digits, are codes. */
  lemma StateCodeIff(code: string)
    ensures IsStateCode(code) <==>
            exists n | 0 <= n < 100 :: code == [CharOf(n / 10), CharOf(n % 10)] && (1 <= n <= 38 || n == 97)
  {
    if IsStateCode(code) {
      var n := 10 * Value(code[0]) + Value(code[1]);
      ValueInjective(code[0], CharOf(n / 10));
      ValueInjective(code[1], CharOf(n % 10));
    }
  }

  /**
   * Main result on completeness: whatever state, PAN and entity the first
   * thirteen characters name, with the Z after them there is one character that
   * makes a number, and no other does.
   */
  lemma OneCharacterCompletes(first14: string, c: char)
    requires |first14| == 14 && IsStateCode(first14[..2])
    requires forall i | 2 <= i < 7 || i == 11 :: 'A' <= first14[i] <= 'Z'
    requires forall i | 7 <= i < 11 :: '0' <= first14[i] <= '9'
    requires ('A' <= first14[12] <= 'Z' || '0' <= first14[12] <= '9') && first14[13] == 'Z'
    ensures |CheckDigit(first14)| == 1 && IsGstin(first14 + CheckDigit(first14))
    ensures IsGstin(first14 + [c]) <==> [c] == CheckDigit(first14)
  {
    var s, t := first14 + CheckDigit(first14), first14 + [c];
    assert first14[0] == first14[..2][0] && first14[1] == first14[..2][1];
    assert s[..14] == first14 == t[..14] && s[..2] == first14[..2] == t[..2];
  }

  lemma ShapeIsAlphabet(s: string)
    requires HasShape(s)
    ensures AllInAlphabet(s[..14])
  {
  }

  /** No accepted number becomes another accepted one by mistaking one character. */
  lemma SubstitutionIsCaught(s: string, i: nat, c: char)
    requires IsGstin(s) && i < 15 && c != s[i]
    ensures !IsGstin(s[i := c])
  {
    var t := s[i := c];
    if HasShape(t) {
      ShapeIsAlphabet(s);
      ShapeIsAlphabet(t);
      if i < 14 {
        assert t[..14] == s[..14][i := c];
        assert t[..14][i] == c;
        SubstitutionChangesDigit(s[..14], i, c);
      } else {
        assert t[..14] == s[..14];
      }
    }
  }

  /** Nor by swapping two neighbours that differ: the shape refuses the one swap the checksum misses. */
  lemma SwapIsCaught(s: string, i: nat)
    requires IsGstin(s) && i < 14 && s[i] != s[i + 1]
    ensures !IsGstin(Swapped(s, i))
  {
    var t := Swapped(s, i);
    if HasShape(t) {
      ShapeIsAlphabet(s);
      ShapeIsAlphabet(t);
      assert t[i] == s[i + 1] && t[i + 1] == s[i];
      if i < 13 {
        assert t[..14] == Swapped(s[..14], i);
        SwapKeepsDigitIff(s[..14], i);
      }
    }
  }

  /** Main result: two different accepted numbers are never one mistyped character or one swap apart. */
  lemma AcceptedNumbersAreFarApart(s: string, t: string)
    requires IsGstin(s) && IsGstin(t) && s != t
    ensures !OneCharacterApart(s, t) && !OneSwapApart(s, t)
  {
    if OneCharacterApart(s, t) {
      var i: nat :| i < 15 && t == s[i := t[i]];
      assert t[i] != s[i] || t == s;
      SubstitutionIsCaught(s, i, t[i]);
    }
    if OneSwapApart(s, t) {
      var i: nat :| i < 14 && t == Swapped(s, i);
      SwapOfEqual(s, i);
      SwapIsCaught(s, i);
    }
  }

  lemma SwapOfEqual(s: string, i: nat)
    requires i + 1 < |s|
    ensures s[i] == s[i + 1] ==> Swapped(s, i) == s
  {
  }

  /** `t` is `s` with one character mistaken. */
  ghost predicate OneCharacterApart(s: string, t: string)
    requires |s| == 15 && |t| == 15
  {
    exists i: nat :: i < 15 && t == s[i := t[i]]
  }

  /** `t` is `s` with two neighbours exchanged. */
  ghost predicate OneSwapApart(s: string, t: string)
    requires |s| == 15 && |t| == 15
  {
    exists i: nat :: i < 14 && t == Swapped(s, i)
  }
}
