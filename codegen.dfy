/**
 * Short-code generation (genCode in api/api.go).
 *
 * The generator fills an 8-byte buffer; each byte is the character of a fixed
 * 62-character alphabet at an index drawn from the pseudo-random source. The
 * random source is replaced by a sequence of draws supplied by the caller, each
 * draw being what `rand.IntN(62)` returned, so the generator is a deterministic
 * function of its draws.
 */
module CodeGen {

  /** The alphabet constant `characteres`, in the source's own order. */
  const Alphabet: string := "qwertyuiopasdfghjklzxcvbnmQWERTYUIOPASDFGHJKLZXCVBNM0123456789"

  /** The constant `n`: the number of characters in a code. */
  const CodeLength: nat := 8

  // The three rows of the alphabet: the verifier reasons about each short
  // literal directly, and about the whole alphabet through them.
  const LowerRow: string := "qwertyuiopasdfghjklzxcvbnm"
  const UpperRow: string := "QWERTYUIOPASDFGHJKLZXCVBNM"
  const DigitRow: string := "0123456789"

  predicate IsLower(c: char) { 'a' <= c <= 'z' }
  predicate IsUpper(c: char) { 'A' <= c <= 'Z' }
  predicate IsDigit(c: char) { '0' <= c <= '9' }

  /** The ASCII letters and digits, `[a-zA-Z0-9]`. */
  predicate IsAlnum(c: char) { IsLower(c) || IsUpper(c) || IsDigit(c) }

  /** No character occurs twice in `s`. */
  predicate Distinct(s: string) {
    forall i, j :: 0 <= i < j < |s| ==> s[i] != s[j]
  }

  /** A draw sequence as the loop consumes it: one index in `[0, 62)` per position. */
  predicate ValidDraws(draws: seq<int>) {
    |draws| == CodeLength && forall k :: 0 <= k < |draws| ==> 0 <= draws[k] < |Alphabet|
  }

  /** A string the generator can produce: 8 characters, each from the alphabet. */
  predicate IsCode(s: string) {
    |s| == CodeLength && forall k :: 0 <= k < |s| ==> s[k] in Alphabet
  }

  lemma RowsMakeAlphabet()
    ensures Alphabet == LowerRow + UpperRow + DigitRow
  {
  }

  lemma LowerRowFacts()
    ensures |LowerRow| == 26 && Distinct(LowerRow)
    ensures forall i :: 0 <= i < |LowerRow| ==> IsLower(LowerRow[i])
    ensures forall c :: IsLower(c) ==> c in LowerRow
  {
  }

  lemma UpperRowFacts()
    ensures |UpperRow| == 26 && Distinct(UpperRow)
    ensures forall i :: 0 <= i < |UpperRow| ==> IsUpper(UpperRow[i])
    ensures forall c :: IsUpper(c) ==> c in UpperRow
  {
  }

  lemma DigitRowFacts()
    ensures |DigitRow| == 10 && Distinct(DigitRow)
    ensures forall i :: 0 <= i < |DigitRow| ==> IsDigit(DigitRow[i])
    ensures forall c :: IsDigit(c) ==> c in DigitRow
  {
  }

  /** Each position of the alphabet falls in its row: lower case, then upper case, then digits. */
  lemma AlphabetAt(i: int)
    requires 0 <= i < |Alphabet|
    ensures i < 26 ==> Alphabet[i] == LowerRow[i] && IsLower(Alphabet[i])
    ensures 26 <= i < 52 ==> Alphabet[i] == UpperRow[i - 26] && IsUpper(Alphabet[i])
    ensures 52 <= i ==> Alphabet[i] == DigitRow[i - 52] && IsDigit(Alphabet[i])
  {
    RowsMakeAlphabet();
    if i < 26 {
      LowerRowFacts();
    } else if i < 52 {
      UpperRowFacts();
    } else {
      DigitRowFacts();
    }
  }

  /**
   * The alphabet has 62 characters, no two alike, and they are exactly the
   * letters a-z, A-Z and the digits 0-9.
   */
  lemma AlphabetIsAlnum()
    ensures |Alphabet| == 62
    ensures Distinct(Alphabet)
    ensures forall c :: c in Alphabet <==> IsAlnum(c)
  {
    RowsMakeAlphabet();
    forall i, j | 0 <= i < j < |Alphabet| ensures Alphabet[i] != Alphabet[j] {
      AlphabetAt(i);
      AlphabetAt(j);
      if j < 26 {
        LowerRowFacts();
      } else if 26 <= i && j < 52 {
        UpperRowFacts();
      } else if 52 <= i {
        DigitRowFacts();
      }
    }
    forall c | c in Alphabet ensures IsAlnum(c) {
      var i :| 0 <= i < |Alphabet| && Alphabet[i] == c;
      AlphabetAt(i);
    }
    forall c | IsAlnum(c) ensures c in Alphabet {
      if IsLower(c) {
        LowerRowFacts();
        var k :| 0 <= k < 26 && LowerRow[k] == c;
        AlphabetAt(k);
      } else if IsUpper(c) {
        UpperRowFacts();
        var k :| 0 <= k < 26 && UpperRow[k] == c;
        AlphabetAt(26 + k);
      } else {
        DigitRowFacts();
        var k :| 0 <= k < 10 && DigitRow[k] == c;
        AlphabetAt(52 + k);
      }
    }
  }

  /** The code that the draws select: position k holds `Alphabet[draws[k]]`. */
  function CodeOf(draws: seq<int>): (code: string)
    requires ValidDraws(draws)
    ensures IsCode(code)
  {
    seq(CodeLength, k requires 0 <= k < CodeLength => Alphabet[draws[k]])
  }

  /** The first position of `c` in `s`. */
  function IndexIn(s: string, c: char): (i: nat)
    requires c in s
    ensures i < |s| && s[i] == c
    ensures forall j :: 0 <= j < i ==> s[j] != c
  {
    if s[0] == c then 0 else 1 + IndexIn(s[1..], c)
  }

  /** The draws that produce a given code: the inverse of CodeOf. */
  function DrawsOf(code: string): (draws: seq<int>)
    requires IsCode(code)
    ensures ValidDraws(draws)
  {
    seq(CodeLength, k requires 0 <= k < CodeLength => IndexIn(Alphabet, code[k]) as int)
  }

  /** Every code is produced by exactly the draws DrawsOf gives for it. */
  lemma CodeOfDrawsOf(code: string)
    requires IsCode(code)
    ensures CodeOf(DrawsOf(code)) == code
  {
  }

  /** Different draws give different codes, because the alphabet has no repeated character. */
  lemma DrawsOfCodeOf(draws: seq<int>)
    requires ValidDraws(draws)
    ensures DrawsOf(CodeOf(draws)) == draws
  {
    AlphabetIsAlnum();
    var code := CodeOf(draws);
    forall k | 0 <= k < CodeLength ensures DrawsOf(code)[k] == draws[k] {
      var i := IndexIn(Alphabet, code[k]);
      assert Alphabet[i] == Alphabet[draws[k]];
    }
  }

  /** The generator is injective: equal codes come only from equal draws. */
  lemma CodeOfInjective(d1: seq<int>, d2: seq<int>)
    requires ValidDraws(d1) && ValidDraws(d2)
    ensures CodeOf(d1) == CodeOf(d2) <==> d1 == d2
  {
    if CodeOf(d1) == CodeOf(d2) {
      DrawsOfCodeOf(d1);
      DrawsOfCodeOf(d2);
    }
  }

  /** A generated code consists of letters and digits only. */
  lemma CodeIsAlnum(code: string)
    requires IsCode(code)
    ensures forall k :: 0 <= k < |code| ==> IsAlnum(code[k])
  {
    AlphabetIsAlnum();
  }

  /**
   * genCode: fill an 8-character buffer position by position, each from the
   * alphabet at the next draw, and return its contents.
   */
  method GenCode(draws: seq<int>) returns (code: string)
    requires ValidDraws(draws)
    ensures code == CodeOf(draws)
    ensures |code| == CodeLength
    ensures forall k :: 0 <= k < |code| ==> code[k] in Alphabet
  {
    var bytes := new char[CodeLength];
    for index := 0 to CodeLength
      invariant forall k :: 0 <= k < index ==> bytes[k] == Alphabet[draws[k]]
    {
      bytes[index] := Alphabet[draws[index]];
    }
    code := bytes[..];
  }
}
