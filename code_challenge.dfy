/** The S256 code challenge of section 4.2 of RFC 7636: base64url (section 5 of RFC 4648)
    of the SHA-256 digest of the verifier's ASCII bytes, with the trailing `=` padding
    removed as Java's `replaceAll("=+$", "")` removes it. SHA-256 and the base64url
    encoder are library calls whose code is not part of this model: they are carried as
    arbitrary functions in `Primitives`, so every property below holds for any of them. */
module CodeChallenge {

  newtype byte = x: int | 0 <= x < 256

  /** The two library functions the challenge is built from. */
  datatype Primitives = Primitives(
    sha256: seq<byte> -> seq<byte>,
    urlSafeBase64Encode: seq<byte> -> string)

  /** The one value `code_challenge_method` ever takes: plain is never offered. */
  const CodeChallengeMethod: string := "S256"

  /** `String.getBytes("US-ASCII")`: characters below 128 become their code, every other
      character becomes the replacement byte `?`. */
  function AsciiBytes(s: string): (b: seq<byte>)
    ensures |b| == |s|
    ensures forall k :: 0 <= k < |s| ==> 0 <= s[k] as int < 128 ==> b[k] as int == s[k] as int
    ensures forall k :: 0 <= k < |s| ==> 128 <= s[k] as int ==> b[k] as int == '?' as int
  {
    seq(|s|, k requires 0 <= k < |s| => if s[k] as int < 128 then s[k] as int as byte else '?' as int as byte)
  }

  /** On ASCII text the encoding loses nothing: two ASCII strings with the same bytes are equal. */
  lemma AsciiBytesInjective(s: string, t: string)
    requires forall k :: 0 <= k < |s| ==> s[k] as int < 128
    requires forall k :: 0 <= k < |t| ==> t[k] as int < 128
    requires AsciiBytes(s) == AsciiBytes(t)
    ensures s == t
  {
    forall k | 0 <= k < |s| ensures s[k] == t[k] {
      assert AsciiBytes(s)[k] == AsciiBytes(t)[k];
    }
  }

  /** Line terminators as `java.util.regex` knows them when `UNIX_LINES` is off. */
  predicate IsLineTerminator(c: char) {
    c == '\n' || c == '\r' || c == '\U{85}' || c == '\U{2028}' || c == '\U{2029}'
  }

  predicate HasNoLineTerminator(s: string) {
    forall k :: 0 <= k < |s| ==> !IsLineTerminator(s[k])
  }

  /** Length of the final line terminator before which a non-multiline `$` also matches:
      "\r\n", a single terminator character, or nothing. */
  function FinalTerminatorLength(s: string): (n: nat)
    ensures n <= 2 && n <= |s|
    ensures n == 0 <==> |s| == 0 || !IsLineTerminator(s[|s| - 1])
  {
    if |s| >= 2 && s[|s| - 2] == '\r' && s[|s| - 1] == '\n' then 2
    else if |s| >= 1 && IsLineTerminator(s[|s| - 1]) then 1
    else 0
  }

  /** `s` with its maximal trailing run of `=` removed. */
  function DropPadding(s: string): (r: string)
    decreases |s|
  {
    if |s| > 0 && s[|s| - 1] == '=' then DropPadding(s[..|s| - 1]) else s
  }

  /** `r` is `s` without its trailing `=` run: a prefix of `s`, not ending in `=`, and all
      that was removed is `=`. This is the reference meaning of "strip the padding". */
  predicate IsPaddingStripped(s: string, r: string) {
    |r| <= |s| && r == s[..|r|] &&
    (|r| == 0 || r[|r| - 1] != '=') &&
    forall k :: |r| <= k < |s| ==> s[k] == '='
  }

  /** The reference meaning pins the result down: at most one string satisfies it. */
  lemma PaddingStrippedUnique(s: string, r1: string, r2: string)
    requires IsPaddingStripped(s, r1) && IsPaddingStripped(s, r2)
    ensures r1 == r2
  {
  }

  lemma {:induction false} DropPaddingIsStripped(s: string)
    ensures IsPaddingStripped(s, DropPadding(s))
    decreases |s|
  {
    if |s| > 0 && s[|s| - 1] == '=' {
      var t := s[..|s| - 1];
      DropPaddingIsStripped(t);
      var r := DropPadding(t);
      assert r == t[..|r|] == s[..|r|];
    }
  }

  /** `replaceAll("=+$", "")`: the `=` run is removed where it ends at the end of the text,
      or just before a final line terminator, which then stays. With
      `PaddingStrippedUnique`, the first ensures determines the result. */
  function StripTrailingPadding(s: string): (r: string)
    ensures var n := FinalTerminatorLength(s);
      n <= |r| && r[|r| - n..] == s[|s| - n..] &&
      IsPaddingStripped(s[..|s| - n], r[..|r| - n])
    ensures HasNoLineTerminator(s) ==> IsPaddingStripped(s, r)
    ensures |r| == 0 || r[|r| - 1] != '='
    ensures |r| <= |s|
  {
    var n := FinalTerminatorLength(s);
    DropPaddingIsStripped(s[..|s| - n]);
    DropPadding(s[..|s| - n]) + s[|s| - n..]
  }

  /** Stripping twice is stripping once, for any text without line terminators (which
      covers every base64url encoding). */
  lemma StripTrailingPaddingIdempotent(s: string)
    requires HasNoLineTerminator(s)
    ensures StripTrailingPadding(StripTrailingPadding(s)) == StripTrailingPadding(s)
  {
    var r := StripTrailingPadding(s);
    assert HasNoLineTerminator(r) by {
      forall k | 0 <= k < |r| ensures !IsLineTerminator(r[k]) {
        assert r[k] == s[k];
      }
    }
    PaddingStrippedUnique(r, r, StripTrailingPadding(r));
  }

  /** For text ending in a line terminator the `$` anchor sits before it: "ab=\n" gives "ab\n". */
  lemma StripBeforeFinalNewline()
    ensures StripTrailingPadding("ab=\n") == "ab\n"
    ensures StripTrailingPadding("ab==\r\n") == "ab\r\n"
  {
    assert "ab=\n"[..3] == "ab=";
    assert "ab=="[..3] == "ab=" && "ab="[..2] == "ab";
    assert "ab==\r\n"[..4] == "ab==";
  }

  /** Models `generateCodeChallenge`: S256 of the verifier, padding removed. */
  function GenerateCodeChallenge(verifier: string, p: Primitives): (challenge: string)
    ensures |challenge| == 0 || challenge[|challenge| - 1] != '='
    ensures var encoded := p.urlSafeBase64Encode(p.sha256(AsciiBytes(verifier)));
      HasNoLineTerminator(encoded) ==> IsPaddingStripped(encoded, challenge)
  {
    StripTrailingPadding(p.urlSafeBase64Encode(p.sha256(AsciiBytes(verifier))))
  }
}
