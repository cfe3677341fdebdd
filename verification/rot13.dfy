/** The ROT-13 transform of `src/rot13-service/logic/rot13.js`, over the
    UTF-16 code units that `charCodeAt` yields. */
module Rot13 {

  /** One UTF-16 code unit, as returned by `charCodeAt`. */
  type CodeUnit = c: int | 0 <= c < 0x1_0000

  /** The code unit of a one-letter string, for a letter of the Basic
      Multilingual Plane: exactly the ASCII letters have ASCII letter
      codes, in their own case. */
  function CodeFor(letter: char): (code: CodeUnit)
    requires letter as int < 0x1_0000
    ensures 'a' <= letter <= 'z' <==> IsLowerLetter(code)
    ensures 'A' <= letter <= 'Z' <==> IsUpperLetter(code)
  {
    letter as int
  }

  /** Codes compare as the letters do. */
  lemma CodeForOrder(first: char, second: char)
    requires first as int < 0x1_0000 && second as int < 0x1_0000
    ensures first <= second <==> CodeFor(first) <= CodeFor(second)
  {
  }

  /** Whether `c` lies in the closed range of code units from `firstLetter`
      to `lastLetter`; within one alphabet's range, only that alphabet's
      letters lie between its ends. */
  predicate IsBetween(c: CodeUnit, firstLetter: char, lastLetter: char): (r: bool)
    requires firstLetter as int < 0x1_0000 && lastLetter as int < 0x1_0000
    ensures 'a' <= firstLetter && lastLetter <= 'z' ==> (r ==> IsLowerLetter(c))
    ensures 'A' <= firstLetter && lastLetter <= 'Z' ==> (r ==> IsUpperLetter(c))
    ensures r ==> firstLetter <= lastLetter
  {
    c >= CodeFor(firstLetter) && c <= CodeFor(lastLetter)
  }

  predicate IsLowerLetter(c: int) { 97 <= c <= 122 }

  predicate IsUpperLetter(c: int) { 65 <= c <= 90 }

  predicate IsLetter(c: int) { IsLowerLetter(c) || IsUpperLetter(c) }

  /** The two ranges `transformLetter` tests split each alphabet into its
      first and last thirteen letters. */
  lemma AlphabetHalves(c: CodeUnit)
    ensures IsBetween(c, 'a', 'm') <==> IsLowerLetter(c) && c - 97 < 13
    ensures IsBetween(c, 'n', 'z') <==> IsLowerLetter(c) && c - 97 >= 13
    ensures IsBetween(c, 'A', 'M') <==> IsUpperLetter(c) && c - 65 < 13
    ensures IsBetween(c, 'N', 'Z') <==> IsUpperLetter(c) && c - 65 >= 13
  {
  }

  /** Maps one code unit: letters rotate 13 places through their own
      alphabet (a Caesar shift modulo 26), everything else is unchanged. */
  function TransformLetter(c: CodeUnit): (r: CodeUnit)
    ensures IsLowerLetter(c) ==> IsLowerLetter(r) && r - 97 == (c - 97 + 13) % 26
    ensures IsUpperLetter(c) ==> IsUpperLetter(r) && r - 65 == (c - 65 + 13) % 26
    ensures IsLetter(r) <==> IsLetter(c)
    ensures !IsLetter(c) ==> r == c
  {
    if IsBetween(c, 'a', 'm') || IsBetween(c, 'A', 'M') then c + 13
    else if IsBetween(c, 'n', 'z') || IsBetween(c, 'N', 'Z') then c - 13
    else c
  }

  /** Rotating a code unit twice gives it back. */
  lemma TransformLetterInvolution(c: CodeUnit)
    ensures TransformLetter(TransformLetter(c)) == c
  {
  }

  /** The ROT-13 encoding of `s`, built one code unit at a time from the
      front, as the loop of `transform` builds it. */
  function Encoded(s: seq<CodeUnit>): (r: seq<CodeUnit>)
    ensures |r| == |s|
    ensures forall i :: 0 <= i < |s| ==> r[i] == TransformLetter(s[i])
  {
    if s == [] then [] else Encoded(s[..|s| - 1]) + [TransformLetter(s[|s| - 1])]
  }

  /** `transform`: appends the mapped code unit for each input position. */
  method Transform(input: seq<CodeUnit>) returns (result: seq<CodeUnit>)
    ensures result == Encoded(input)
    ensures |result| == |input|
    ensures forall i :: 0 <= i < |input| ==> result[i] == TransformLetter(input[i])
  {
    result := [];
    for i := 0 to |input|
      invariant result == Encoded(input[..i])
    {
      var charCode := input[i];
      result := result + [TransformLetter(charCode)];
      assert input[..i + 1][..i] == input[..i];
    }
    assert input[..|input|] == input;
  }

  /** Applying ROT-13 twice gives back the input. */
  lemma {:induction false} EncodedInvolution(s: seq<CodeUnit>)
    ensures Encoded(Encoded(s)) == s
  {
    var e := Encoded(s);
    forall i | 0 <= i < |s|
      ensures Encoded(e)[i] == s[i]
    {
      TransformLetterInvolution(s[i]);
    }
  }

  /** Each output position depends only on the same input position, so
      encoding distributes over concatenation. */
  lemma {:induction false} EncodedConcat(a: seq<CodeUnit>, b: seq<CodeUnit>)
    ensures Encoded(a + b) == Encoded(a) + Encoded(b)
  {
    var l, r := Encoded(a + b), Encoded(a) + Encoded(b);
    forall i | 0 <= i < |a + b|
      ensures l[i] == r[i]
    {
      if i < |a| {
        assert (a + b)[i] == a[i];
      } else {
        assert (a + b)[i] == b[i - |a|];
      }
    }
  }
}
