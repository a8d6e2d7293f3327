/** `DbxPKCEWebAuth`: the OAuth 2 authorization-code flow with PKCE (RFC 7636). One
    object carries one code verifier from `authorize` to `finish`; the verifier is the
    only state the PKCE logic changes. */
module PkceWebAuth {
  import opened Wrappers
  import opened CodeVerifier
  import opened CodeChallenge

  /** `DbxAppInfo`: the app key, the app secret if there is one, and the API host. */
  datatype AppInfo = AppInfo(key: string, secret: Option<string>, apiHost: string) {
    predicate HasSecret() { secret.Some? }
  }

  /** `DbxRequestConfig`, as far as this flow reads it: the user locale, possibly null. */
  datatype RequestConfig = RequestConfig(userLocale: Option<string>)

  /** The exceptions this flow throws or lets through. */
  datatype Error =
    | IllegalState                      // IllegalStateException: the API was misused
    | NullPointer                       // NullPointerException("code")
    | UnexpectedStatus(statusCode: int) // what DbxRequestUtil.unexpectedStatus throws
    | BadResponse                       // the 200 body did not parse as a DbxAuthFinish
    | NetworkIO(detail: string)         // the POST itself failed

  /** `DbxAuthFinish`: the parsed token response, opaque here but for the URL state. */
  datatype AuthFinish = AuthFinish(accessToken: string, userId: string, urlState: Option<string>) {
    /** `withUrlState`: the same response carrying `state`. */
    function WithUrlState(state: Option<string>): (r: AuthFinish)
      ensures r.urlState == state
      ensures r.accessToken == accessToken && r.userId == userId
    {
      this.(urlState := state)
    }
  }

  /** A request parameter map; a `None` value is a key put with a null value. */
  type Params = map<string, Option<string>>

  /** What `doPostNoAuth` is asked to send: host, path and form parameters. */
  datatype TokenRequest = TokenRequest(host: string, path: string, params: Params)

  /** What the HTTP exchange comes to: a response with a status code and its body, which
      parses as a `DbxAuthFinish` or not, or a failure of the transport itself. */
  datatype HttpOutcome =
    | Responded(statusCode: int, body: Option<AuthFinish>)
    | NetworkFailure(detail: string)

  const TokenPath: string := "oauth2/token"

  /** The parameters `authorize` adds to the authorization URL: the challenge and its
      method, and never the verifier itself. */
  function PkceParams(verifier: string, p: Primitives): (m: map<string, string>)
    ensures m.Keys == {"code_challenge", "code_challenge_method"}
    ensures m["code_challenge"] == GenerateCodeChallenge(verifier, p)
    ensures m["code_challenge_method"] == "S256"
    ensures "code_verifier" !in m
  {
    map["code_challenge" := GenerateCodeChallenge(verifier, p),
        "code_challenge_method" := CodeChallengeMethod]
  }

  /** The token request parameters of section 4.5 of RFC 7636 and section 4.1.3 of
      RFC 6749: `redirect_uri` is present exactly when a redirect URI was given, and
      `locale` is always present, null or not. */
  function TokenRequestParams(code: string, locale: Option<string>, clientId: string,
                              verifier: string, redirectUri: Option<string>): (m: Params)
    ensures m.Keys == {"grant_type", "code", "locale", "client_id", "code_verifier"} +
      (if redirectUri.Some? then {"redirect_uri"} else {})
    ensures "redirect_uri" in m <==> redirectUri.Some?
    ensures m["grant_type"] == Some("authorization_code")
    ensures m["code"] == Some(code) && m["locale"] == locale
    ensures m["client_id"] == Some(clientId) && m["code_verifier"] == Some(verifier)
    ensures "redirect_uri" in m ==> m["redirect_uri"] == redirectUri
    ensures forall key :: key in m && key != "locale" ==> m[key].Some?
  {
    var base := map["grant_type" := Some("authorization_code"), "code" := Some(code),
                    "locale" := locale, "client_id" := Some(clientId),
                    "code_verifier" := Some(verifier)];
    if redirectUri.Some? then base["redirect_uri" := redirectUri] else base
  }

  /** The response handler of `finish`, with the transport's own failures passed through:
      only status 200 with a parseable body succeeds, and then carries `state`. */
  function HandleTokenResponse(outcome: HttpOutcome, state: Option<string>): (r: Result<AuthFinish, Error>)
    ensures r.Success? <==> outcome.Responded? && outcome.statusCode == 200 && outcome.body.Some?
    ensures r.Success? ==>
      r.value.urlState == state &&
      r.value.accessToken == outcome.body.value.accessToken &&
      r.value.userId == outcome.body.value.userId
    ensures outcome.Responded? && outcome.statusCode != 200 ==>
      r == Failure(UnexpectedStatus(outcome.statusCode))
    ensures outcome.NetworkFailure? ==> r == Failure(NetworkIO(outcome.detail))
  {
    match outcome
    case NetworkFailure(detail) => Failure(NetworkIO(detail))
    case Responded(statusCode, body) =>
      if statusCode != 200 then Failure(UnexpectedStatus(statusCode))
      else if body.None? then Failure(BadResponse)
      else Success(body.value.WithUrlState(state))
  }

  class DbxPKCEWebAuth {
    const requestConfig: RequestConfig
    const appInfo: AppInfo
    /** Whether the superclass holds a deprecated request; its constructor, which is not
        part of this model, decides. */
    const deprecatedRequest: bool
    /** SHA-256 and the base64url encoder the challenge is computed with. */
    const primitives: Primitives
    /** The verifier of the flow in progress; `None` is null. */
    var codeVerifier: Option<string>

    /** A stored verifier is always one the generator could have produced. */
    ghost predicate Valid()
      reads this
    {
      codeVerifier.Some? ==> IsGeneratedVerifier(codeVerifier.value)
    }

    /** The part of the Java constructor before the secret check: it stores its
        arguments and sets `codeVerifier` to null. */
    constructor (requestConfig: RequestConfig, appInfo: AppInfo, deprecatedRequest: bool,
                 primitives: Primitives)
      ensures Valid() && codeVerifier == None
      ensures this.requestConfig == requestConfig && this.appInfo == appInfo
      ensures this.deprecatedRequest == deprecatedRequest && this.primitives == primitives
    {
      this.requestConfig := requestConfig;
      this.appInfo := appInfo;
      this.deprecatedRequest := deprecatedRequest;
      this.primitives := primitives;
      codeVerifier := None;
    }

    /** `authorize`: refuses an instance holding a deprecated request; otherwise stores a
        fresh verifier, replacing any earlier one, and returns the PKCE parameters it
        hands on to the superclass's URL builder. `draws` are the 128 values of
        `RAND.nextInt(66)`. */
    method Authorize(draws: seq<int>) returns (forwarded: Result<map<string, string>, Error>)
      requires Valid()
      requires |draws| == CodeVerifierSize && DrawsInRange(draws)
      modifies this
      ensures Valid()
      ensures deprecatedRequest ==> forwarded == Failure(IllegalState) && codeVerifier == old(codeVerifier)
      ensures !deprecatedRequest ==>
        codeVerifier == Some(Spell(draws)) &&
        forwarded == Success(PkceParams(Spell(draws), primitives))
    {
      if deprecatedRequest {
        return Failure(IllegalState);
      }
      var verifier := GenerateCodeVerifier(draws);
      codeVerifier := Some(verifier);
      var pkceParams: map<string, string> := map[];
      pkceParams := pkceParams["code_challenge" := GenerateCodeChallenge(verifier, primitives)];
      pkceParams := pkceParams["code_challenge_method" := CodeChallengeMethod];
      forwarded := Success(pkceParams);
    }

    /** `finish`: checks `code` and then the stored verifier before building anything;
        sends the token request built from them (`sent`) through `post`, standing for
        `doPostNoAuth`; and clears the verifier only when the exchange returned normally. */
    method Finish(code: Option<string>, redirectUri: Option<string>, state: Option<string>,
                  post: TokenRequest -> HttpOutcome)
      returns (r: Result<AuthFinish, Error>, sent: Option<TokenRequest>)
      requires Valid()
      modifies this
      ensures Valid()
      ensures code.None? ==> r == Failure(NullPointer) && sent == None && codeVerifier == old(codeVerifier)
      ensures code.Some? && old(codeVerifier).None? ==>
        r == Failure(IllegalState) && sent == None && codeVerifier == None
      ensures code.Some? && old(codeVerifier).Some? ==>
        sent == Some(TokenRequest(appInfo.apiHost, TokenPath,
          TokenRequestParams(code.value, requestConfig.userLocale, appInfo.key,
                             old(codeVerifier).value, redirectUri))) &&
        r == HandleTokenResponse(post(sent.value), state) &&
        codeVerifier == (if r.Success? then None else old(codeVerifier))
      ensures sent.Some? ==>
        "code_verifier" in sent.value.params && sent.value.params["code_verifier"].Some? &&
        IsGeneratedVerifier(sent.value.params["code_verifier"].value)
    {
      if code.None? {
        return Failure(NullPointer), None;
      }
      if codeVerifier.None? {
        return Failure(IllegalState), None;
      }
      var params: Params := map[];
      params := params["grant_type" := Some("authorization_code")];
      params := params["code" := code];
      params := params["locale" := requestConfig.userLocale];
      params := params["client_id" := Some(appInfo.key)];
      params := params["code_verifier" := codeVerifier];
      if redirectUri.Some? {
        params := params["redirect_uri" := redirectUri];
      }
      var request := TokenRequest(appInfo.apiHost, TokenPath, params);
      sent := Some(request);
      r := HandleTokenResponse(post(request), state);
      if r.Failure? {
        return;
      }
      codeVerifier := None;
    }
  }

  /** The Java constructor: an `appInfo` with a secret is refused with
      `IllegalStateException`; otherwise the new instance holds no verifier. */
  method Create(requestConfig: RequestConfig, appInfo: AppInfo, deprecatedRequest: bool,
                primitives: Primitives)
    returns (r: Result<DbxPKCEWebAuth, Error>)
    ensures r.Failure? <==> appInfo.HasSecret()
    ensures r.Failure? ==> r.error == IllegalState
    ensures r.Success? ==>
      fresh(r.value) && r.value.Valid() && r.value.codeVerifier == None &&
      r.value.requestConfig == requestConfig && r.value.appInfo == appInfo &&
      r.value.deprecatedRequest == deprecatedRequest && r.value.primitives == primitives
  {
    var auth := new DbxPKCEWebAuth(requestConfig, appInfo, deprecatedRequest, primitives);
    if appInfo.HasSecret() {
      return Failure(IllegalState);
    }
    r := Success(auth);
  }
}
