# PKCE web authorization of the Dropbox Java SDK, in Dafny

This project models `DbxPKCEWebAuth`, the Dropbox SDK's OAuth 2 authorization-code flow with
Proof Key for Code Exchange (RFC 7636), and proves properties of the model. It covers:

- **the code verifier generator** (`CodeVerifier`): 128 characters, each one drawn from the
  66-character unreserved set of section 4.1 of RFC 7636;
- **the code challenge** (`CodeChallenge`): the S256 method of section 4.2 of RFC 7636. It is
  the base64url encoding (section 5 of RFC 4648) of the SHA-256 digest of the verifier's
  US-ASCII bytes. Java's `replaceAll("=+$", "")` then removes the trailing `=` padding;
- **the flow object** (`PkceWebAuth`): the class `DbxPKCEWebAuth` with its one mutable field
  `codeVerifier`. It covers the construction guard against an app secret, `authorize`
  (store a fresh verifier and forward the challenge parameters) and `finish` (precondition
  checks, the token request parameters of section 4.5 of RFC 7636 and section 4.1.3 of
  RFC 6749, the response status check, and clearing the verifier);
- **clients** (`Scenarios`): what a caller sees across several calls on one instance.

Outside inputs are modelled as follows:

- The random source `RAND` is the sequence `draws` of the 128 values `nextInt(66)` returns.
  They are in range because that is `nextInt`'s contract.
- SHA-256 and `StringUtil.urlSafeBase64Encode` are the two functions of a `Primitives` value
  held by the object. Nothing is assumed about them, so every property holds for any
  hash and any encoder.
- `doPostNoAuth` is a function `post` from the request that `finish` builds to an
  `HttpOutcome`: a response (status code, and a body that parses as a `DbxAuthFinish` or
  not) or a transport failure. `finish` also returns the request it sent, or `None` when it
  failed before building one.
- Java exceptions are `Failure` values of `Result`, and Java `null` is `None`.

The model keeps the following behaviour of the code as written:

- A second `authorize` on the same instance is not refused. It overwrites the stored
  verifier (src/main/java/com/dropbox/core/DbxPKCEWebAuth.java:116).
  `Scenarios.AuthorizeTwice` shows that `finish` then sends the second verifier.
- The verifier is cleared only when the exchange returns normally
  (src/main/java/com/dropbox/core/DbxPKCEWebAuth.java:185-205). After a failed exchange it
  is still set, so a failed exchange does not erase it. `Scenarios.AuthorizeThenFinishTwice`
  shows that a second `finish` then sends the same request again rather than being refused;
  that second exchange has its own outcome.
- `locale` is always put into the token request, even when it is null
  (src/main/java/com/dropbox/core/DbxPKCEWebAuth.java:177). It is not an optional key.
- Java's `$` without `MULTILINE` also matches just before a final line terminator (`\n`,
  `\r`, `\r\n`, U+0085, U+2028, U+2029). So `replaceAll("=+$", "")` turns `"ab=\n"` into
  `"ab\n"`. `CodeChallenge.StripTrailingPadding` models this. On text without line
  terminators, which includes every base64url encoding, it removes exactly the maximal
  trailing run of `=`. Idempotence is proved for text without line terminators; with them it
  can fail: `"=\n="` strips to `"=\n"`, and that strips to `"\n"`.

Determinism of the challenge is by construction: `GenerateCodeChallenge` is a function of
the verifier and the primitives.

## Model

| member | source | states |
|---|---|---|
| `CodeVerifier.CharSetAt` | src/main/java/com/dropbox/core/DbxPKCEWebAuth.java:42-43 | the character set has 66 entries, each one unreserved, and `IndexOf` gives each entry's position in `CODE_VERIFIER_CHAR_SET` |
| `CodeVerifier.CharSetIsUnreservedSet` | src/main/java/com/dropbox/core/DbxPKCEWebAuth.java:42-43 | a character is in the set exactly when it is unreserved in the sense of section 4.1 of RFC 7636, and no character occurs twice |
| `CodeVerifier.Spell` | src/main/java/com/dropbox/core/DbxPKCEWebAuth.java:71-73 | the string built from the draws has one character per draw, namely the set's character at that draw's index |
| `CodeVerifier.GenerateCodeVerifier` | src/main/java/com/dropbox/core/DbxPKCEWebAuth.java:68-76 | the result is exactly 128 unreserved characters, so it is a verifier that section 4.1 of RFC 7636 allows, and it is the spelling of the 128 draws |
| `CodeVerifier.UnspellSpell` | src/main/java/com/dropbox/core/DbxPKCEWebAuth.java:71-72 | the draws can be recovered from the verifier, so distinct draws give distinct verifiers and uniform draws give a uniform verifier |
| `CodeVerifier.SpellUnspell` | src/main/java/com/dropbox/core/DbxPKCEWebAuth.java:42-44 | every string of unreserved characters is spelled by some in-range draws, so every 128-character verifier can be generated |
| `CodeChallenge.AsciiBytes` | src/main/java/com/dropbox/core/DbxPKCEWebAuth.java:81 | the US-ASCII encoding has one byte per character: the code of an ASCII character, `?` for any other |
| `CodeChallenge.AsciiBytesInjective` | src/main/java/com/dropbox/core/DbxPKCEWebAuth.java:81 | on ASCII text, which includes every verifier, the encoding loses nothing |
| `CodeChallenge.DropPaddingIsStripped` | src/main/java/com/dropbox/core/DbxPKCEWebAuth.java:82 | removing the trailing `=` run gives a prefix that does not end in `=`, and only `=` was removed |
| `CodeChallenge.PaddingStrippedUnique` | src/main/java/com/dropbox/core/DbxPKCEWebAuth.java:82 | only one string is a prefix without a final `=` whose removed suffix is all `=` |
| `CodeChallenge.FinalTerminatorLength` | src/main/java/com/dropbox/core/DbxPKCEWebAuth.java:82 | a non-MULTILINE `$` matches before a final terminator of length 0, 1 or 2, and the length is 0 exactly when the text does not end in a line terminator character |
| `CodeChallenge.StripTrailingPadding` | src/main/java/com/dropbox/core/DbxPKCEWebAuth.java:82 | the final line terminator, if any, is kept, and what precedes it loses exactly its maximal trailing `=` run; so the result never ends in `=`, and on text without line terminators it is the input minus that run |
| `CodeChallenge.StripTrailingPaddingIdempotent` | src/main/java/com/dropbox/core/DbxPKCEWebAuth.java:82 | on text without line terminators, stripping a second time changes nothing |
| `CodeChallenge.StripBeforeFinalNewline` | src/main/java/com/dropbox/core/DbxPKCEWebAuth.java:82 | the `$` anchor sits before a final `\n` or `\r\n`, so the padding before it is removed and the terminator stays |
| `CodeChallenge.GenerateCodeChallenge` | src/main/java/com/dropbox/core/DbxPKCEWebAuth.java:78-82 | the challenge never ends in `=`; when the encoding of the digest has no line terminator, the challenge is that encoding with exactly its trailing `=` run removed |
| `PkceWebAuth.Create` | src/main/java/com/dropbox/core/DbxPKCEWebAuth.java:58-66 | construction fails with IllegalStateException exactly when the app info has a secret; otherwise the new instance holds no verifier |
| `PkceWebAuth.DbxPKCEWebAuth.constructor` | src/main/java/com/dropbox/core/DbxPKCEWebAuth.java:58-60 | the new object keeps its configuration and has a null verifier |
| `PkceWebAuth.PkceParams` | src/main/java/com/dropbox/core/DbxPKCEWebAuth.java:118-120 | the forwarded parameters have exactly the keys `code_challenge` (the verifier's challenge) and `code_challenge_method` (`S256`); `code_verifier` is not among them |
| `PkceWebAuth.DbxPKCEWebAuth.Authorize` | src/main/java/com/dropbox/core/DbxPKCEWebAuth.java:111-123 | with a deprecated request it throws IllegalStateException and leaves the verifier alone; otherwise it stores the verifier spelled by the draws, replacing any earlier one, and forwards that verifier's PKCE parameters |
| `PkceWebAuth.TokenRequestParams` | src/main/java/com/dropbox/core/DbxPKCEWebAuth.java:174-183 | the keys are exactly grant_type, code, locale, client_id, code_verifier, plus redirect_uri if and only if a redirect URI is given; each value is the one given; only locale may be null |
| `PkceWebAuth.AuthFinish.WithUrlState` | src/main/java/com/dropbox/core/DbxPKCEWebAuth.java:199 | the result carries the given URL state and keeps the access token and user id |
| `PkceWebAuth.HandleTokenResponse` | src/main/java/com/dropbox/core/DbxPKCEWebAuth.java:192-200 | the exchange succeeds exactly on status 200 with a parseable body, and the result then carries the caller's state; any other status is an unexpected-status error |
| `PkceWebAuth.DbxPKCEWebAuth.Finish` | src/main/java/com/dropbox/core/DbxPKCEWebAuth.java:167-205 | a null code throws NullPointerException and a missing verifier throws IllegalStateException, both before any request is built; otherwise it posts the token request to `oauth2/token` on the API host with the stored verifier; the verifier is cleared exactly when the exchange succeeds; any verifier sent is 128 unreserved characters |
| `Scenarios.FinishBeforeAuthorize` | src/main/java/com/dropbox/core/DbxPKCEWebAuth.java:168-172 | on a fresh instance `finish` is refused with IllegalStateException and sends nothing |
| `Scenarios.AuthorizeThenFinishTwice` | src/main/java/com/dropbox/core/DbxPKCEWebAuth.java:116-205 | the challenge is forwarded but the verifier is not; the token request carries the stored verifier, with redirect_uri exactly when one is given; after a successful exchange a second `finish` is refused, and after a failed one it sends the same request again, whose outcome is that of the second exchange |
| `Scenarios.AuthorizeTwice` | src/main/java/com/dropbox/core/DbxPKCEWebAuth.java:116 | a second `authorize` is accepted and replaces the verifier that `finish` will send |

## Left out

- HTTP transport (`DbxRequestUtil.doPostNoAuth`, `toParamsArray`): network I/O. It is the abstract `post` function. How the parameter map, including a null `locale`, is encoded into a form body is not modelled.
- `DbxRequestUtil.unexpectedStatus`: it maps a status code to an exception class, and its code is not part of this model. The model keeps only the status code (`UnexpectedStatus`).
- JSON parsing (`DbxAuthFinish.Reader`, `readJsonFromResponse`): a foreign parser. A 200 body either parses to an opaque `AuthFinish` or is a `BadResponse`.
- SHA-256 (`MessageDigest`) and `StringUtil.urlSafeBase64Encode`: library code that is not part of this model. They are arbitrary functions, so no known-answer vector (RFC 7636 Appendix B) can be stated.
- CodeChallenge.GenerateCodeChallenge: with an arbitrary encoder only a trailing `=` is ruled out. That the challenge uses only the base64url alphabet, and that it has no interior `=`, cannot be stated; an encoder returning `"a=b"` gives the challenge `"a=b"`.
- The `"Impossible"` exception paths of `generateCodeChallenge`: they require SHA-256 or US-ASCII to be missing from the Java platform, which the model assumes never happens.
- `SecureRandom`: the quality of its randomness cannot be stated in Dafny. It is an index oracle (`draws`).
- `authorizeImpl`, `finishFromCode`, `finishFromRedirect` and the superclass constructor: they belong to `DbxWebAuth`, whose code is not part of this model. The two `finishFrom*` overrides only delegate to it. The value of `deprecatedRequest` is therefore a constructor parameter, and `authorize` returns the parameters it would hand to `authorizeImpl` instead of the URL.
- Concurrent calls on one instance: the class is not thread-safe and the model is sequential.
