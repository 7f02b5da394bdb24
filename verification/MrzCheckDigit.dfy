/**
 Characters, values and check digits of the machine-readable zone (web/src/lib/mrz.ts), as in
 section 4.9 of ICAO Doc 9303 Part 3: a repeating 7-3-1 weighting, summed modulo 10.

 The digit is taken unit by unit, as `charAt` reads a JavaScript string.
 */
module MrzCheckDigit {
  import opened Utf16

  predicate IsDigit(ch: char) {
    '0' <= ch <= '9'
  }

  predicate IsAlnum(ch: char) {
    IsDigit(ch) || 'A' <= ch <= 'Z'
  }

  predicate IsMrz(ch: char) {
    IsAlnum(ch) || ch == '<'
  }

  predicate AllMrz(s: string) {
    forall i :: 0 <= i < |s| ==> IsMrz(s[i])
  }

  function CharValue(u: CodeUnit): (v: nat)
    ensures v <= 35
  {
    if 48 <= u <= 57 then u - 48 else if 65 <= u <= 90 then u - 55 else 0
  }

  /** What unit `u` adds to the sum at position `i`: its value times 7, 3 or 1 in turn. */
  function Share(i: nat, u: CodeUnit): nat {
    if i % 3 == 0 then 7 * CharValue(u) else if i % 3 == 1 then 3 * CharValue(u) else CharValue(u)
  }

  function WeightedSum(s: Units): nat
    decreases |s|
  {
    if s == [] then 0 else WeightedSum(s[..|s| - 1]) + Share(|s| - 1, s[|s| - 1])
  }

  function DigitChar(n: nat): (ch: char)
    requires n < 10
    ensures IsDigit(ch) && ch as int == 48 + n
  {
    (48 + n) as char
  }

  function UnitsDigit(s: Units): char {
    DigitChar(WeightedSum(s) % 10)
  }

  /** The check digit of a text. */
  function CheckDigitOf(s: string): char {
    UnitsDigit(Encode(s))
  }

  method CheckDigit(input: Units) returns (digit: char)
    ensures digit == UnitsDigit(input)
  {
    var weights := [7, 3, 1];
    var sum := 0;
    for i := 0 to |input|
      invariant sum == WeightedSum(input[..i])
    {
      assert input[..i + 1][..i] == input[..i];
      sum := sum + CharValue(input[i]) * weights[i % 3];
    }
    assert input[..|input|] == input;
    digit := DigitChar(sum % 10);
  }

  const ALPHABET := "0123456789ABCDEFGHIJKLMNOPQRSTUVWXYZ"

  /** A character of the alphabet is worth its place in it, and any other unit nothing. */
  lemma ValuesByAlphabet(u: CodeUnit)
    ensures forall i :: 0 <= i < 36 && ALPHABET[i] as int == u ==> CharValue(u) == i
    ensures (forall i :: 0 <= i < 36 ==> ALPHABET[i] as int != u) ==> CharValue(u) == 0
  {
    assert forall i :: 0 <= i < 10 ==> ALPHABET[i] as int == 48 + i;
    assert forall i :: 10 <= i < 36 ==> ALPHABET[i] as int == 55 + i;
    if 48 <= u <= 57 {
      assert ALPHABET[u - 48] as int == u;
    } else if 65 <= u <= 90 {
      assert ALPHABET[u - 55] as int == u;
    }
  }

  lemma SumToHere(s: Units, i: nat, total: nat)
    requires i < |s| && WeightedSum(s[..i]) + Share(i, s[i]) == total
    ensures WeightedSum(s[..i + 1]) == total
  {
    assert s[..i + 1][..i] == s[..i];
  }

  /** The birth date of the specimen passport of ICAO Doc 9303 Part 4: 740812, digit 2. */
  lemma SpecimenBirthDate()
    ensures UnitsDigit([55, 52, 48, 56, 49, 50]) == '2'
  {
    var s: Units := [55, 52, 48, 56, 49, 50];
    SumToHere(s, 0, 49);
    SumToHere(s, 1, 61);
    SumToHere(s, 2, 61);
    SumToHere(s, 3, 117);
    SumToHere(s, 4, 120);
    SumToHere(s, 5, 122);
    assert s[..6] == s;
  }

  /** Its document number, L898902C3, digit 6. */
  lemma SpecimenNumber()
    ensures UnitsDigit([76, 56, 57, 56, 57, 48, 50, 67, 51]) == '6'
  {
    var s: Units := [76, 56, 57, 56, 57, 48, 50, 67, 51];
    SumToHere(s, 0, 147);
    SumToHere(s, 1, 171);
    SumToHere(s, 2, 180);
    SumToHere(s, 3, 236);
    SumToHere(s, 4, 263);
    SumToHere(s, 5, 263);
    SumToHere(s, 6, 277);
    SumToHere(s, 7, 313);
    SumToHere(s, 8, 316);
    assert s[..9] == s;
  }

  lemma {:induction false} SumOfUpdate(s: Units, i: nat, u: CodeUnit)
    requires i < |s|
    ensures WeightedSum(s[i := u]) == WeightedSum(s) + Share(i, u) - Share(i, s[i])
    decreases |s|
  {
    var last := |s| - 1;
    if i == last {
      assert s[i := u][..last] == s[..last];
    } else {
      assert s[i := u][..last] == s[..last][i := u];
      SumOfUpdate(s[..last], i, u);
    }
  }

  lemma SumsAgree(sum: nat, change: int)
    requires sum + change >= 0
    ensures DigitChar((sum + change) % 10) == DigitChar(sum % 10) <==> change % 10 == 0
  {
    assert DigitChar((sum + change) % 10) as int == 48 + (sum + change) % 10;
    assert DigitChar(sum % 10) as int == 48 + sum % 10;
  }

  /** 7, 3 and 1 are all invertible modulo 10. */
  lemma WeightsInvertible(d: int)
    ensures (7 * d) % 10 == 0 <==> d % 10 == 0
    ensures (3 * d) % 10 == 0 <==> d % 10 == 0
  {
    var q, r := d / 10, d % 10;
    assert d == 10 * q + r;
    assert 7 * d == 10 * (7 * q) + 7 * r && 3 * d == 10 * (3 * q) + 3 * r;
  }

  lemma Doubled(d: int)
    ensures (2 * d) % 10 == 2 * (d % 5)
  {
    assert 2 * d == 10 * (d / 5) + 2 * (d % 5);
  }

  lemma MultipleOfFive(k: int, x: int)
    ensures (5 * k + x) % 5 == x % 5
  {
  }

  lemma DoubledModFive(d: int)
    ensures (2 * d) % 5 == 0 <==> d % 5 == 0
    ensures (-3 * d) % 5 == 0 <==> d % 5 == 0
  {
    MultipleOfFive(2 * (d / 5), 2 * (d % 5));
    MultipleOfFive(-3 * (d / 5), -3 * (d % 5));
  }

  /** Neighbouring weights differ by 4, 2 or 6, each sharing just the factor 2 with 10. */
  lemma WeightSteps(d: int)
    ensures (4 * d) % 10 == 0 <==> d % 5 == 0
    ensures (2 * d) % 10 == 0 <==> d % 5 == 0
    ensures (-6 * d) % 10 == 0 <==> d % 5 == 0
  {
    Doubled(d);
    Doubled(2 * d);
    Doubled(-3 * d);
    DoubledModFive(d);
  }

  lemma DifferenceModTen(a: int, b: int)
    ensures (a - b) % 10 == 0 <==> a % 10 == b % 10
  {
  }

  /** One wrong character slips through exactly when the two values agree modulo 10. */
  lemma SubstitutionDetected(s: Units, i: nat, u: CodeUnit)
    requires i < |s|
    ensures UnitsDigit(s[i := u]) == UnitsDigit(s) <==> CharValue(u) % 10 == CharValue(s[i]) % 10
  {
    var d := CharValue(u) - CharValue(s[i]);
    SumOfUpdate(s, i, u);
    SumsAgree(WeightedSum(s), Share(i, u) - Share(i, s[i]));
    WeightsInvertible(d);
    DifferenceModTen(CharValue(u), CharValue(s[i]));
  }

  function SwapNext(s: Units, i: nat): Units
    requires i + 1 < |s|
  {
    s[i := s[i + 1]][i + 1 := s[i]]
  }

  lemma SumOfSwap(s: Units, i: nat)
    requires i + 1 < |s|
    ensures WeightedSum(SwapNext(s, i)) - WeightedSum(s)
            == Share(i, s[i + 1]) - Share(i, s[i]) + Share(i + 1, s[i]) - Share(i + 1, s[i + 1])
  {
    var once := s[i := s[i + 1]];
    SumOfUpdate(s, i, s[i + 1]);
    SumOfUpdate(once, i + 1, s[i]);
    assert once[i + 1] == s[i + 1];
  }

  lemma SwapOfShares(i: nat, a: CodeUnit, b: CodeUnit)
    ensures var d := CharValue(b) - CharValue(a);
            Share(i, b) - Share(i, a) + Share(i + 1, a) - Share(i + 1, b)
            == if i % 3 == 0 then 4 * d else if i % 3 == 1 then 2 * d else -6 * d
  {
  }

  /** Two neighbours swapped slip through exactly when their values differ by a multiple of 5. */
  lemma TranspositionDetected(s: Units, i: nat)
    requires i + 1 < |s|
    ensures UnitsDigit(SwapNext(s, i)) == UnitsDigit(s) <==> (CharValue(s[i + 1]) - CharValue(s[i])) % 5 == 0
  {
    SumOfSwap(s, i);
    SwapOfShares(i, s[i], s[i + 1]);
    SumsAgree(WeightedSum(s), WeightedSum(SwapNext(s, i)) - WeightedSum(s));
    WeightSteps(CharValue(s[i + 1]) - CharValue(s[i]));
  }
}
