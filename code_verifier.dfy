/** The PKCE code verifier: a random string over the unreserved characters of
    section 4.1 of RFC 7636, built one character per draw of the random source. */
module CodeVerifier {

  const LowerLetters: string := "abcdefghijklmnopqrstuvwxyz"
  const UpperLetters: string := "ABCDEFGHIJKLMNOPQRSTUVWXYZ"
  const Digits: string := "0123456789"

  /** The 66 characters a verifier is drawn from, in the order the generator indexes them:
      "abc...xyzABC...XYZ012...789-._~". */
  const CodeVerifierCharSet: string := LowerLetters + UpperLetters + Digits + "-._~"

  /** Number of characters in every generated verifier (the maximum RFC 7636 permits). */
  const CodeVerifierSize: nat := 128

  /** `unreserved = ALPHA / DIGIT / "-" / "." / "_" / "~"` (section 4.1 of RFC 7636),
      stated independently of the character set above. */
  predicate IsUnreserved(c: char) {
    ('a' <= c <= 'z') || ('A' <= c <= 'Z') || ('0' <= c <= '9') ||
    c == '-' || c == '.' || c == '_' || c == '~'
  }

  /** A verifier as section 4.1 of RFC 7636 allows it: 43 to 128 unreserved characters. */
  predicate IsRfcVerifier(v: string) {
    43 <= |v| <= 128 && forall k :: 0 <= k < |v| ==> IsUnreserved(v[k])
  }

  /** What the generator can return: exactly 128 unreserved characters. */
  predicate IsGeneratedVerifier(v: string) {
    |v| == CodeVerifierSize && forall k :: 0 <= k < |v| ==> IsUnreserved(v[k])
  }

  /** The values a source of `nextInt(66)` may return. */
  predicate DrawsInRange(draws: seq<int>) {
    forall k :: 0 <= k < |draws| ==> 0 <= draws[k] < |CodeVerifierCharSet|
  }

  /** Position of `c` in the character set, or -1 when `c` is not an unreserved character. */
  function IndexOf(c: char): int {
    if 'a' <= c <= 'z' then c as int - 'a' as int
    else if 'A' <= c <= 'Z' then 26 + (c as int - 'A' as int)
    else if '0' <= c <= '9' then 52 + (c as int - '0' as int)
    else if c == '-' then 62
    else if c == '.' then 63
    else if c == '_' then 64
    else if c == '~' then 65
    else -1
  }

  lemma LetterAt(letters: string, first: char, k: int)
    requires letters == LowerLetters || letters == UpperLetters
    requires first == letters[0] && 0 <= k < 26
    ensures |letters| == 26 && letters[k] as int == first as int + k
  {
  }

  lemma DigitAt(k: int)
    requires 0 <= k < 10
    ensures |Digits| == 10 && Digits[k] as int == '0' as int + k
  {
  }

  /** The character set has 66 entries, and entry `k` is the character whose index is `k`. */
  lemma CharSetAt(k: int)
    requires 0 <= k < 66
    ensures |CodeVerifierCharSet| == 66
    ensures IsUnreserved(CodeVerifierCharSet[k])
    ensures IndexOf(CodeVerifierCharSet[k]) == k
  {
    LetterAt(LowerLetters, 'a', 0);
    LetterAt(UpperLetters, 'A', 0);
    DigitAt(0);
    var c := CodeVerifierCharSet[k];
    if k < 26 {
      LetterAt(LowerLetters, 'a', k);
      assert c == LowerLetters[k];
    } else if k < 52 {
      LetterAt(UpperLetters, 'A', k - 26);
      assert c == UpperLetters[k - 26];
    } else if k < 62 {
      DigitAt(k - 52);
      assert c == Digits[k - 52];
    } else {
      assert c == "-._~"[k - 62];
    }
  }

  /** Every unreserved character has an index in range, and the set holds it there. */
  lemma IndexOfUnreserved(c: char)
    requires IsUnreserved(c)
    ensures 0 <= IndexOf(c) < |CodeVerifierCharSet|
    ensures CodeVerifierCharSet[IndexOf(c)] == c
  {
    var k := IndexOf(c);
    CharSetAt(k);
    var d := CodeVerifierCharSet[k];
    assert IndexOf(d) == k;
  }

  /** The character set is exactly the unreserved set of RFC 7636, without repetitions. */
  lemma CharSetIsUnreservedSet()
    ensures |CodeVerifierCharSet| == 66
    ensures forall c :: c in CodeVerifierCharSet <==> IsUnreserved(c)
    ensures forall i, j :: 0 <= i < j < |CodeVerifierCharSet| ==>
      CodeVerifierCharSet[i] != CodeVerifierCharSet[j]
  {
    CharSetAt(0);
    forall c | c in CodeVerifierCharSet ensures IsUnreserved(c) {
      var k :| 0 <= k < |CodeVerifierCharSet| && CodeVerifierCharSet[k] == c;
      CharSetAt(k);
    }
    forall c | IsUnreserved(c) ensures c in CodeVerifierCharSet {
      IndexOfUnreserved(c);
    }
    forall i, j | 0 <= i < j < |CodeVerifierCharSet|
      ensures CodeVerifierCharSet[i] != CodeVerifierCharSet[j]
    {
      CharSetAt(i);
      CharSetAt(j);
    }
  }

  /** The string the generator builds from a sequence of draws, one character per draw. */
  function Spell(draws: seq<int>): (v: string)
    requires DrawsInRange(draws)
    ensures |v| == |draws|
    ensures forall k :: 0 <= k < |draws| ==> v[k] == CodeVerifierCharSet[draws[k]]
  {
    if draws == [] then []
    else Spell(draws[..|draws| - 1]) + [CodeVerifierCharSet[draws[|draws| - 1]]]
  }

  /** The draws that spell out a string of unreserved characters. */
  function Unspell(v: string): (draws: seq<int>)
    requires forall k :: 0 <= k < |v| ==> IsUnreserved(v[k])
  {
    seq(|v|, k requires 0 <= k < |v| => IndexOf(v[k]))
  }

  /** A spelled string consists of unreserved characters only. */
  lemma SpellIsUnreserved(draws: seq<int>)
    requires DrawsInRange(draws)
    ensures forall k :: 0 <= k < |draws| ==> IsUnreserved(Spell(draws)[k])
  {
    forall k | 0 <= k < |draws| ensures IsUnreserved(Spell(draws)[k]) {
      CharSetAt(draws[k]);
    }
  }

  /** The draws can be read back from the verifier: different draws give different
      verifiers, so uniform draws give a uniform verifier. */
  lemma UnspellSpell(draws: seq<int>)
    requires DrawsInRange(draws)
    ensures forall k :: 0 <= k < |draws| ==> IsUnreserved(Spell(draws)[k])
    ensures Unspell(Spell(draws)) == draws
  {
    SpellIsUnreserved(draws);
    var back := Unspell(Spell(draws));
    forall k | 0 <= k < |draws| ensures back[k] == draws[k] {
      CharSetAt(draws[k]);
    }
  }

  /** Every string of unreserved characters is spelled by some draws in range: no
      verifier of the right length is out of the generator's reach. */
  lemma SpellUnspell(v: string)
    requires forall k :: 0 <= k < |v| ==> IsUnreserved(v[k])
    ensures DrawsInRange(Unspell(v))
    ensures Spell(Unspell(v)) == v
  {
    var draws := Unspell(v);
    forall k | 0 <= k < |v| ensures 0 <= draws[k] < |CodeVerifierCharSet| {
      IndexOfUnreserved(v[k]);
    }
    forall k | 0 <= k < |v| ensures Spell(draws)[k] == v[k] {
      IndexOfUnreserved(v[k]);
    }
  }

  /** Models `generateCodeVerifier`: appends one character of the set per draw of
      `RAND.nextInt(66)`, 128 times. `draws` are the values the random source returns. */
  method GenerateCodeVerifier(draws: seq<int>) returns (v: string)
    requires |draws| == CodeVerifierSize && DrawsInRange(draws)
    ensures v == Spell(draws)
    ensures IsGeneratedVerifier(v) && IsRfcVerifier(v)
  {
    var sb: string := [];
    var i := 0;
    while i < CodeVerifierSize
      invariant 0 <= i <= CodeVerifierSize
      invariant sb == Spell(draws[..i])
    {
      sb := sb + [CodeVerifierCharSet[draws[i]]];
      assert draws[..i + 1][..i] == draws[..i];
      i := i + 1;
    }
    assert draws[..i] == draws;
    v := sb;
    SpellIsUnreserved(draws);
  }
}
