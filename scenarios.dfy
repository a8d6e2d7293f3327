/** Clients of `DbxPKCEWebAuth` that state, from the contracts of its methods alone, what
    a caller observes across several calls on one instance. */
module Scenarios {
  import opened Wrappers
  import opened CodeVerifier
  import opened CodeChallenge
  import opened PkceWebAuth

  /** `finish` on an instance on which `authorize` was never called is refused with
      `IllegalStateException`, and nothing is sent. */
  method FinishBeforeAuthorize(requestConfig: RequestConfig, appInfo: AppInfo,
                               primitives: Primitives, code: string,
                               redirectUri: Option<string>, state: Option<string>,
                               post: TokenRequest -> HttpOutcome)
    returns (created: bool, r: Result<AuthFinish, Error>, sent: Option<TokenRequest>)
    ensures created <==> !appInfo.HasSecret()
    ensures created ==> r == Failure(IllegalState) && sent == None
  {
    var auth := Create(requestConfig, appInfo, false, primitives);
    created := auth.Success?;
    if !created {
      return created, Failure(IllegalState), None;
    }
    r, sent := auth.value.Finish(Some(code), redirectUri, state, post);
  }

  /** The whole flow on one instance: `authorize` forwards the challenge of the verifier
      it stores and not the verifier; `finish` sends that verifier, with `redirect_uri`
      exactly when one is given. After a successful exchange a second `finish` is refused;
      after a failed one the verifier is still there, so the same request is sent again.
      `post1` and `post2` are the two exchanges, whose outcomes need not agree. */
  method AuthorizeThenFinishTwice(requestConfig: RequestConfig, appInfo: AppInfo,
                                  primitives: Primitives, draws: seq<int>, code: string,
                                  redirectUri: Option<string>, state: Option<string>,
                                  post1: TokenRequest -> HttpOutcome,
                                  post2: TokenRequest -> HttpOutcome)
    returns (forwarded: Result<map<string, string>, Error>,
             first: Result<AuthFinish, Error>, firstSent: Option<TokenRequest>,
             second: Result<AuthFinish, Error>, secondSent: Option<TokenRequest>)
    requires !appInfo.HasSecret()
    requires |draws| == CodeVerifierSize && DrawsInRange(draws)
    ensures forwarded.Success? && "code_verifier" !in forwarded.value
    ensures "code_challenge" in forwarded.value &&
      forwarded.value["code_challenge"] == GenerateCodeChallenge(Spell(draws), primitives)
    ensures firstSent.Some? && "code_verifier" in firstSent.value.params &&
      firstSent.value.params["code_verifier"] == Some(Spell(draws))
    ensures "redirect_uri" in firstSent.value.params <==> redirectUri.Some?
    ensures first.Success? ==> second == Failure(IllegalState) && secondSent == None
    ensures first.Failure? ==>
      secondSent == firstSent &&
      second == HandleTokenResponse(post2(firstSent.value), state)
  {
    var created := Create(requestConfig, appInfo, false, primitives);
    var auth := created.value;
    forwarded := auth.Authorize(draws);
    first, firstSent := auth.Finish(Some(code), redirectUri, state, post1);
    second, secondSent := auth.Finish(Some(code), redirectUri, state, post2);
  }

  /** A second `authorize` is not refused: it replaces the stored verifier, so `finish`
      then sends the verifier of the second call. */
  method AuthorizeTwice(requestConfig: RequestConfig, appInfo: AppInfo,
                        primitives: Primitives, draws1: seq<int>, draws2: seq<int>,
                        code: string, post: TokenRequest -> HttpOutcome)
    returns (forwarded1: Result<map<string, string>, Error>,
             forwarded2: Result<map<string, string>, Error>,
             sent: Option<TokenRequest>)
    requires !appInfo.HasSecret()
    requires |draws1| == CodeVerifierSize && DrawsInRange(draws1)
    requires |draws2| == CodeVerifierSize && DrawsInRange(draws2)
    ensures forwarded1.Success? && forwarded2.Success?
    ensures sent.Some? && "code_verifier" in sent.value.params &&
      sent.value.params["code_verifier"] == Some(Spell(draws2))
  {
    var created := Create(requestConfig, appInfo, false, primitives);
    var auth := created.value;
    forwarded1 := auth.Authorize(draws1);
    forwarded2 := auth.Authorize(draws2);
    var r;
    r, sent := auth.Finish(Some(code), None, None, post);
  }
}
