/**
 * `LinkedInSetup`: the authorization URL, the one-shot callback server of the
 * OAuth 2.0 authorization-code grant (section 4.1 of RFC 6749), and the
 * credential record it leaves behind.
 *
 * The random `state`, the two `fetch` replies, the clock and the credentials
 * typed at the prompt are parameters.
 */
module Setup {
  import opened Wrappers
  import opened Text
  import opened Credentials
  import opened Uri
  import opened Http

  const AuthorizationEndpoint: string := "https://www.linkedin.com/oauth/v2/authorization"
  const Scopes: string := "openid,profile,w_member_social"
  const RedirectUri: string := "http://localhost:3000/callback"
  const CallbackPath: string := "/callback"

  /** What `generateAuthUrl` returns. */
  datatype AuthRequest = AuthRequest(authUrl: string, state: string, redirectUri: string)

  /**
   * The query of `generateAuthUrl`'s URL, piece by piece as its template
   * writes it: the client ID and the state go in as they are, the redirect URI
   * and the scopes through `encodeURIComponent`.
   */
  function AuthQuery(clientId: string, state: string, redirectUri: string, scopes: string): string
  {
    Param("response_type", "code") + "&" + (
      Param("client_id", clientId) + "&" + (
        Param("redirect_uri", EncodeURIComponent(redirectUri)) + "&" + (
          Param("state", state) + "&" +
            Param("scope", EncodeURIComponent(scopes)))))
  }

  /** The URL `generateAuthUrl` builds: the endpoint, `?`, then the query. */
  function AuthUrl(clientId: string, state: string): (url: string)
    ensures |url| > |AuthorizationEndpoint|
    ensures url[..|AuthorizationEndpoint| + 1] == AuthorizationEndpoint + "?"
    ensures url[|AuthorizationEndpoint| + 1..] == AuthQuery(clientId, state, RedirectUri, Scopes)
  {
    var query := AuthQuery(clientId, state, RedirectUri, Scopes);
    ConcatHalves(AuthorizationEndpoint + "?", query);
    AuthorizationEndpoint + "?" + query
  }

  /** `generateAuthUrl`; `state` is drawn by the caller. */
  function GenerateAuthUrl(clientId: string, state: string): (r: AuthRequest)
    ensures r.state == state && r.redirectUri == RedirectUri
    ensures r.authUrl == AuthUrl(clientId, state)
  {
    AuthRequest(AuthUrl(clientId, state), state, RedirectUri)
  }

  /** The parameters an authorization request carries, in order. */
  function AuthParameters(clientId: string, state: string, redirectUri: string, scopes: string): seq<(string, string)>
  {
    [("response_type", "code"), ("client_id", clientId), ("redirect_uri", EncodeURIComponent(redirectUri)),
     ("state", state), ("scope", EncodeURIComponent(scopes))]
  }

  /** The query is the query string of those parameters. */
  lemma AuthQueryIsQueryString(clientId: string, state: string, redirectUri: string, scopes: string)
    ensures AuthQuery(clientId, state, redirectUri, scopes) == QueryString(AuthParameters(clientId, state, redirectUri, scopes))
  {
    QueryStringFive(("response_type", "code"), ("client_id", clientId), ("redirect_uri", EncodeURIComponent(redirectUri)),
                    ("state", state), ("scope", EncodeURIComponent(scopes)));
  }

  /** No key of the authorization request holds a separator. */
  lemma AuthKeysPlain()
    ensures '&' !in "response_type" && '=' !in "response_type" && '&' !in "code"
    ensures '&' !in "client_id" && '=' !in "client_id"
    ensures '&' !in "redirect_uri" && '=' !in "redirect_uri"
    ensures '&' !in "state" && '=' !in "state"
    ensures '&' !in "scope" && '=' !in "scope"
  {
  }

  /** No key holds `&` or `=`, and no value `&`, when the client ID and the state hold no `&`. */
  lemma AuthParametersPlain(clientId: string, state: string, redirectUri: string, scopes: string)
    requires '&' !in clientId && '&' !in state
    ensures var ps := AuthParameters(clientId, state, redirectUri, scopes);
      forall k :: 0 <= k < |ps| ==> '&' !in ps[k].0 && '=' !in ps[k].0 && '&' !in ps[k].1
  {
    var ps := AuthParameters(clientId, state, redirectUri, scopes);
    EncodedHasNoSeparators(redirectUri);
    EncodedHasNoSeparators(scopes);
    AuthKeysPlain();
    forall k | 0 <= k < |ps|
      ensures '&' !in ps[k].0 && '=' !in ps[k].0 && '&' !in ps[k].1
    {
      if k == 0 {
        assert ps[k] == ("response_type", "code");
      } else if k == 1 {
        assert ps[k] == ("client_id", clientId);
      } else if k == 2 {
        assert ps[k] == ("redirect_uri", EncodeURIComponent(redirectUri));
      } else if k == 3 {
        assert ps[k] == ("state", state);
      } else {
        assert ps[k] == ("scope", EncodeURIComponent(scopes));
      }
    }
  }

  /** Read back, the query holds the parameters it was built from, when client ID and state hold no `&`. */
  lemma {:induction false} AuthQueryParses(clientId: string, state: string, redirectUri: string, scopes: string)
    requires '&' !in clientId && '&' !in state
    ensures ParseQuery(AuthQuery(clientId, state, redirectUri, scopes)) == AuthParameters(clientId, state, redirectUri, scopes)
  {
    AuthQueryIsQueryString(clientId, state, redirectUri, scopes);
    AuthParametersPlain(clientId, state, redirectUri, scopes);
    ParseQueryString(AuthParameters(clientId, state, redirectUri, scopes));
  }

  /** Both fixed values are ASCII text. */
  lemma ConstantsAreAscii()
    ensures Ascii(RedirectUri) && Ascii(Scopes)
  {
  }

  /**
   * The URL `generateAuthUrl` returns carries `response_type=code`, the client
   * ID, the encoded redirect URI and scopes, and the very `state` it returns;
   * this needs a client ID and a state without `&`.
   */
  lemma {:induction false} AuthUrlCarriesParameters(clientId: string, state: string)
    requires '&' !in clientId && '&' !in state
    ensures var r := GenerateAuthUrl(clientId, state);
      ParseQuery(r.authUrl[|AuthorizationEndpoint| + 1..]) == AuthParameters(clientId, r.state, r.redirectUri, Scopes)
  {
    AuthQueryParses(clientId, state, RedirectUri, Scopes);
  }

  /** The encoded redirect URI and scopes decode back to what was encoded when that is ASCII text, as both fixed values are. */
  lemma {:induction false} AuthParametersDecode(clientId: string, state: string, redirectUri: string, scopes: string)
    requires Ascii(redirectUri) && Ascii(scopes)
    ensures var ps := AuthParameters(clientId, state, redirectUri, scopes);
      DecodeAscii(ps[2].1) == Some(redirectUri) && DecodeAscii(ps[4].1) == Some(scopes)
  {
    DecodeEncodeAscii(redirectUri);
    DecodeEncodeAscii(scopes);
  }

  /** In the URL `generateAuthUrl` builds, the redirect URI and the scopes read back as the two fixed values. */
  lemma FixedParametersDecode(clientId: string, state: string)
    ensures var ps := AuthParameters(clientId, state, RedirectUri, Scopes);
      DecodeAscii(ps[2].1) == Some(RedirectUri) && DecodeAscii(ps[4].1) == Some(Scopes)
  {
    ConstantsAreAscii();
    AuthParametersDecode(clientId, state, RedirectUri, Scopes);
  }

  /** A query parameter as `url.parse(…, true)` gives it: absent, once, or repeated (an array). */
  datatype QueryValue = Absent | One(value: string) | Many(values: seq<string>)

  /** JavaScript truthiness of a query value: the empty string is falsy, an array never is. */
  predicate Truthy(v: QueryValue)
  {
    match v
    case Absent => false
    case One(s) => s != ""
    case Many(_) => true
  }

  /** A query value turned into text, as `new Error(error)` does: an array is joined with commas. */
  function QueryText(v: QueryValue): string
  {
    match v
    case Absent => "undefined"
    case One(s) => s
    case Many(values) => Join(values, ',')
  }

  /** A request reaching the server, with its path and the three query parameters the handler reads. */
  datatype CallbackRequest = CallbackRequest(pathname: string, code: QueryValue, state: QueryValue, error: QueryValue)

  /** The JSON body of a token reply; `refresh_token` may be missing. */
  datatype TokenData = TokenData(accessToken: string, refreshToken: Option<string>, expiresIn: int)

  /** The JSON body of the `userinfo` reply; any of the three names may be missing. */
  datatype Profile = Profile(sub: string, name: Option<string>, givenName: Option<string>, familyName: Option<string>)

  /** The form posted to the token endpoint. */
  datatype TokenRequest = TokenRequest(grantType: string, code: QueryValue, clientId: string, clientSecret: string, redirectUri: string)

  /** What the promise resolves with. */
  datatype AuthResult = AuthResult(accessToken: string, refreshToken: Option<string>, expiresIn: int, personId: string, name: string)

  /** The promise of `startCallbackServer`. */
  datatype Settlement = Pending | Resolved(result: AuthResult) | Rejected(reason: string)

  /** A value interpolated into a template literal: a missing one prints as `undefined`. */
  function Shown(v: Option<string>): string
  {
    match v
    case None => "undefined"
    case Some(s) => s
  }

  /** The name built from the two name parts. */
  function FullName(p: Profile): string
  {
    Shown(p.givenName) + " " + Shown(p.familyName)
  }

  /**
   * `profileData.name || \`${given_name} ${family_name}\` || 'LinkedIn User'`: the
   * template always holds a space, so the last alternative is never taken.
   */
  function DisplayName(p: Profile): (name: string)
    ensures name == (if p.name.Some? && p.name.value != "" then p.name.value else FullName(p))
    ensures name != ""
  {
    if p.name.Some? && p.name.value != "" then p.name.value
    else if FullName(p) != "" then FullName(p)
    else "LinkedIn User"
  }

  /**
   * What one request leads to: the status set with `writeHead`, the requests
   * sent, whether the server is closed, the verdict, and whether an exception
   * escapes the handler (its promise rejects with nobody to handle it).
   */
  datatype Response = Response(
    status: int,
    tokenRequest: Option<TokenRequest>,
    profileRequest: Option<string>,
    closes: bool,
    verdict: Option<Settlement>,
    escaped: bool)

  /**
   * The handler of `startCallbackServer`, as a function of the request and of
   * the two replies it would get; a reply is only read once its request is sent.
   */
  function Respond(
    expectedState: string, clientId: string, clientSecret: string, redirectUri: string,
    req: CallbackRequest, token: Reply<TokenData>, profile: Reply<Profile>): (r: Response)
    ensures req.pathname != CallbackPath ==> r == Response(404, None, None, false, None, false)
    ensures req.pathname == CallbackPath && !r.escaped ==> r.closes && r.verdict.Some? && !r.verdict.value.Pending?
    ensures r.escaped <==> r.profileRequest.Some? && NullAnswer(profile)
    ensures r.escaped ==> r.status == 200 && !r.closes && r.verdict.None?
    ensures req.pathname == CallbackPath && Truthy(req.error) ==> r.status == 400 && r.verdict == Some(Rejected(QueryText(req.error))) && r.tokenRequest.None?
    ensures req.pathname == CallbackPath && !Truthy(req.error) && req.state != One(expectedState) ==>
      r.status == 400 && r.verdict == Some(Rejected("Invalid state"))
    ensures req.state != One(expectedState) ==> r.tokenRequest.None?
    ensures r.tokenRequest.Some? <==> req.pathname == CallbackPath && !Truthy(req.error) && req.state == One(expectedState)
    ensures r.tokenRequest.Some? ==> r.tokenRequest.value == TokenRequest("authorization_code", req.code, clientId, clientSecret, redirectUri)
    ensures r.profileRequest.Some? <==> r.tokenRequest.Some? && Answered(token)
    ensures r.profileRequest.Some? ==> r.profileRequest.value == token.body.value.accessToken
    ensures r.status == 200 <==> r.profileRequest.Some? && (Answered(profile) || NullAnswer(profile))
    ensures r.verdict.Some? && r.verdict.value.Resolved? <==> r.profileRequest.Some? && Answered(profile)
    ensures r.tokenRequest.Some? && r.status != 200 ==> r.status == 500 && r.verdict.Some? && r.verdict.value.Rejected?
  {
    if req.pathname != CallbackPath then Response(404, None, None, false, None, false)
    else if Truthy(req.error) then Response(400, None, None, true, Some(Rejected(QueryText(req.error))), false)
    else if req.state != One(expectedState) then Response(400, None, None, true, Some(Rejected("Invalid state")), false)
    else
      var tokenRequest := TokenRequest("authorization_code", req.code, clientId, clientSecret, redirectUri);
      if !Answered(token) then Response(500, Some(tokenRequest), None, true, Some(Rejected("Token exchange failed")), false)
      else
        var tokenData := token.body.value;
        if NullAnswer(profile) then Response(200, Some(tokenRequest), Some(tokenData.accessToken), false, None, true)
        else if !Answered(profile) then
          Response(500, Some(tokenRequest), Some(tokenData.accessToken), true, Some(Rejected("Profile fetch failed")), false)
        else
          var p := profile.body.value;
          var result := AuthResult(tokenData.accessToken, tokenData.refreshToken, tokenData.expiresIn, p.sub, DisplayName(p));
          Response(200, Some(tokenRequest), Some(tokenData.accessToken), true, Some(Resolved(result)), false)
  }

  /** On success the result carries the token reply's fields, the profile's `sub`, and its display name. */
  lemma SuccessFields(
    expectedState: string, clientId: string, clientSecret: string, redirectUri: string,
    req: CallbackRequest, token: Reply<TokenData>, profile: Reply<Profile>)
    requires Respond(expectedState, clientId, clientSecret, redirectUri, req, token, profile).status == 200
    requires !Respond(expectedState, clientId, clientSecret, redirectUri, req, token, profile).escaped
    ensures var r := Respond(expectedState, clientId, clientSecret, redirectUri, req, token, profile);
      var t := token.body.value;
      var p := profile.body.value;
      r.verdict == Some(Resolved(AuthResult(t.accessToken, t.refreshToken, t.expiresIn, p.sub, DisplayName(p))))
  {
  }

  /**
   * A JSON `null` profile leaves the server open: the 200 header is already
   * set when reading `name` throws, so the catch fails in its turn and neither
   * closes the server nor settles the promise.
   */
  lemma NullProfileLeavesServerOpen(expectedState: string, clientId: string, clientSecret: string, redirectUri: string,
    code: QueryValue, tokenData: TokenData, status: int)
    requires Ok(status)
    ensures var req := CallbackRequest(CallbackPath, code, One(expectedState), Absent);
      var r := Respond(expectedState, clientId, clientSecret, redirectUri, req, Replied(200, Json(tokenData)), Replied(status, Null));
      r.escaped && r.status == 200 && !r.closes && r.verdict.None? && r.profileRequest == Some(tokenData.accessToken)
  {
  }

  /** A denial wins even when the state matches; a matching state alone is not enough. */
  lemma DenialBeforeStateCheck(expectedState: string, clientId: string, clientSecret: string, redirectUri: string,
    code: QueryValue, error: string, token: Reply<TokenData>, profile: Reply<Profile>)
    requires error != ""
    ensures var req := CallbackRequest(CallbackPath, code, One(expectedState), One(error));
      var r := Respond(expectedState, clientId, clientSecret, redirectUri, req, token, profile);
      r.status == 400 && r.tokenRequest.None? && r.verdict == Some(Rejected(error))
  {
  }

  /** The callback server: listening until its first answer on `/callback`, then closed; its promise settles once. */
  class CallbackServer {
    const expectedState: string
    const clientId: string
    const clientSecret: string
    const redirectUri: string
    var listening: bool
    var settlement: Settlement
    /** The token-exchange requests sent, in order. */
    var tokenRequests: seq<TokenRequest>
    /** The bearer tokens the `userinfo` requests were sent with, in order. */
    var profileRequests: seq<string>
    /** The statuses set with `writeHead`, one per request handled. */
    var responses: seq<int>
    /** How many times `server.close()` was called. */
    var closeCalls: nat

    /** The promise and the server as `startCallbackServer` creates them. */
    constructor(expectedState: string, clientId: string, clientSecret: string, redirectUri: string)
      ensures this.expectedState == expectedState && this.clientId == clientId
      ensures this.clientSecret == clientSecret && this.redirectUri == redirectUri
      ensures listening && settlement == Pending
      ensures tokenRequests == [] && profileRequests == [] && responses == [] && closeCalls == 0
      ensures Valid()
    {
      this.expectedState := expectedState;
      this.clientId := clientId;
      this.clientSecret := clientSecret;
      this.redirectUri := redirectUri;
      listening := true;
      settlement := Pending;
      tokenRequests := [];
      profileRequests := [];
      responses := [];
      closeCalls := 0;
    }

    /** The server is closed exactly when the promise has settled. */
    predicate Valid()
      reads this
    {
      (listening <==> settlement.Pending?) && (closeCalls == 0 <==> listening)
    }

    /** Closing the server and settling the promise: a promise settles only once. */
    method Finish(verdict: Settlement)
      requires Valid() && !verdict.Pending?
      modifies this
      ensures Valid()
      ensures listening == false && closeCalls == old(closeCalls) + 1
      ensures settlement == (if old(settlement).Pending? then verdict else old(settlement))
      ensures tokenRequests == old(tokenRequests) && profileRequests == old(profileRequests)
      ensures responses == old(responses)
    {
      listening := false;
      closeCalls := closeCalls + 1;
      if settlement.Pending? {
        settlement := verdict;
      }
    }

    /** The request handler, branch by branch. */
    method Handle(req: CallbackRequest, token: Reply<TokenData>, profile: Reply<Profile>)
      requires Valid()
      modifies this
      ensures Valid()
      ensures var r := Respond(expectedState, clientId, clientSecret, redirectUri, req, token, profile);
        && responses == old(responses) + [r.status]
        && tokenRequests == old(tokenRequests) + (if r.tokenRequest.Some? then [r.tokenRequest.value] else [])
        && profileRequests == old(profileRequests) + (if r.profileRequest.Some? then [r.profileRequest.value] else [])
        && closeCalls == old(closeCalls) + (if r.closes then 1 else 0)
        && listening == (old(listening) && !r.closes)
        && settlement == (if old(settlement).Pending? && r.verdict.Some? then r.verdict.value else old(settlement))
    {
      if req.pathname != CallbackPath {
        responses := responses + [404];
        return;
      }
      if Truthy(req.error) {
        responses := responses + [400];
        Finish(Rejected(QueryText(req.error)));
        return;
      }
      if req.state != One(expectedState) {
        responses := responses + [400];
        Finish(Rejected("Invalid state"));
        return;
      }
      tokenRequests := tokenRequests + [TokenRequest("authorization_code", req.code, clientId, clientSecret, redirectUri)];
      if !Answered(token) {
        responses := responses + [500];
        Finish(Rejected("Token exchange failed"));
        return;
      }
      var tokenData := token.body.value;
      profileRequests := profileRequests + [tokenData.accessToken];
      if NullAnswer(profile) {
        // `writeHead(200)` has run when `profileData.name` throws; the catch's
        // own `writeHead(500)` then throws, so nothing is closed or settled.
        responses := responses + [200];
        return;
      }
      if !Answered(profile) {
        responses := responses + [500];
        Finish(Rejected("Profile fetch failed"));
        return;
      }
      var p := profile.body.value;
      responses := responses + [200];
      Finish(Resolved(AuthResult(tokenData.accessToken, tokenData.refreshToken, tokenData.expiresIn, p.sub, DisplayName(p))));
    }
  }

  /** Requests to other paths leave the server listening and the promise pending. */
  lemma OtherPathsChangeNothing(s: CallbackServer, req: CallbackRequest, token: Reply<TokenData>, profile: Reply<Profile>)
    requires req.pathname != CallbackPath
    ensures Respond(s.expectedState, s.clientId, s.clientSecret, s.redirectUri, req, token, profile).status == 404
    ensures !Respond(s.expectedState, s.clientId, s.clientSecret, s.redirectUri, req, token, profile).closes
  {
  }

  /** `saveConfig`: the eight fields, `createdAt` being the time of saving; the file is replaced whole. */
  function SaveConfig(clientId: string, clientSecret: string, auth: AuthResult, now: int): (file: ConfigFile)
    ensures file.Stored? && file.config.createdAt == now
    ensures file.config.clientId == clientId && file.config.clientSecret == clientSecret
    ensures file.config.accessToken == auth.accessToken && file.config.refreshToken == auth.refreshToken
    ensures file.config.personId == auth.personId && file.config.name == auth.name
    ensures file.config.expiresIn == auth.expiresIn
  {
    Stored(Config(clientId, clientSecret, auth.accessToken, auth.refreshToken, auth.personId, auth.name, auth.expiresIn, now))
  }

  /**
   * Right after setup the poster accepts the record exactly when the token
   * lives at least five minutes; it keeps accepting it until five minutes
   * before expiry.
   */
  lemma SavedConfigLoads(clientId: string, clientSecret: string, auth: AuthResult, now: int, later: int)
    requires now <= later
    ensures LoadConfig(SaveConfig(clientId, clientSecret, auth, now), now).Some? <==> auth.expiresIn >= 300
    ensures LoadConfig(SaveConfig(clientId, clientSecret, auth, now), later).Some?
      <==> later <= now + auth.expiresIn * 1000 - 300000
  {
  }

  /** `!clientId || !clientSecret`: either one empty ends the setup before any URL is made. */
  function StartSetup(clientId: string, clientSecret: string, state: string): (r: Result<AuthRequest, string>)
    ensures r.Failure? <==> clientId == "" || clientSecret == ""
    ensures r.Success? ==> r.value == GenerateAuthUrl(clientId, state)
  {
    if clientId == "" || clientSecret == "" then Failure("Client ID and Client Secret are required")
    else Success(GenerateAuthUrl(clientId, state))
  }

  /** The end of `run`: a resolved promise is saved, a rejected one writes nothing. */
  function FinishSetup(settlement: Settlement, clientId: string, clientSecret: string, now: int): (r: Option<ConfigFile>)
    requires !settlement.Pending?
    ensures r.Some? <==> settlement.Resolved?
    ensures r.Some? ==> r.value == SaveConfig(clientId, clientSecret, settlement.result, now)
  {
    match settlement
    case Resolved(auth) => Some(SaveConfig(clientId, clientSecret, auth, now))
    case Rejected(_) => None
  }
}
