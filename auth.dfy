/** lib/auth.js: the `oauth2` scheme that authenticates every request from its
    `Authorization` header, and the `POST /oauth/token` grant handler. */
module Auth {
  import opened Js
  import opened Http
  import opened TimeCore

  const NO_HEADER_MESSAGE := "No valid Authorization header found"
  const TOKEN_EXPIRED_MESSAGE := "Token expired"
  const REFRESH_EXPIRED_MESSAGE := "Refresh expired"
  const FORM_MIME := "application/x-www-form-urlencoded"
  const MIME_MESSAGE := "Unsupported mime type. [application/x-www-form-urlencoded] Supported"
  const PASSWORD_GRANT := "password"
  const REFRESH_TOKEN_GRANT := "refresh_token"

  // ---------------------------------------------------------------- scheme

  /** The characters `.` does not match in a JavaScript regular expression. */
  predicate LineTerminator(c: char) {
    c == '\n' || c == '\r' || c == '\U{2028}' || c == '\U{2029}'
  }

  /** What `(.*)` captures: the longest prefix free of line terminators. */
  function FirstLine(s: string): (r: string)
    ensures r <= s
    ensures forall i :: 0 <= i < |r| ==> !LineTerminator(r[i])
    ensures |r| < |s| ==> LineTerminator(s[|r|])
  {
    if s == [] || LineTerminator(s[0]) then [] else [s[0]] + FirstLine(s[1..])
  }

  /** A string without line terminators is its own first line. */
  lemma {:induction false} FirstLineOfLine(s: string)
    requires forall i :: 0 <= i < |s| ==> !LineTerminator(s[i])
    ensures FirstLine(s) == s
  {
    if s != [] {
      FirstLineOfLine(s[1..]);
    }
  }

  /** The header starts with `bearer ` in any mix of letter case (the `/i` flag). */
  predicate HasBearerPrefix(h: string) {
    |h| >= 7 && (forall i :: 0 <= i < 6 ==> LowerChar(h[i]) == "bearer"[i]) && h[6] == ' '
  }

  /** `((authorization || '').match(/^bearer (.*)/i) || [false]).pop()`, when
      truthy: the token after the prefix, up to the end of the line. `None` is
      the falsy case (no match, or an empty token). */
  function BearerToken(header: Option<string>): (token: Option<string>)
    ensures token.Some? ==> header.Some? && HasBearerPrefix(header.value)
    ensures token.Some? ==> token.value != "" && token.value <= header.value[7..]
    ensures token.Some? ==> forall i :: 0 <= i < |token.value| ==> !LineTerminator(token.value[i])
    ensures (header.Some? && HasBearerPrefix(header.value) && |header.value| > 7
             && !LineTerminator(header.value[7])) ==> token.Some?
    ensures token.Some? && 7 + |token.value| < |header.value| ==> LineTerminator(header.value[7 + |token.value|])
  {
    var h := if header.Some? then header.value else "";
    if HasBearerPrefix(h) && FirstLine(h[7..]) != "" then Some(FirstLine(h[7..])) else None
  }

  /** The token a client sends after `Bearer ` comes back unchanged, whatever
      the case of the scheme name. */
  lemma BearerRoundTrip(scheme: string, t: string)
    requires |scheme| == 6 && forall i :: 0 <= i < 6 ==> LowerChar(scheme[i]) == "bearer"[i]
    requires t != [] && forall i :: 0 <= i < |t| ==> !LineTerminator(t[i])
    ensures BearerToken(Some(scheme + " " + t)) == Some(t)
  {
    var h := scheme + " " + t;
    assert h[7..] == t;
    FirstLineOfLine(t);
  }

  /** A missing header, or one that does not start with `bearer `, yields no token. */
  lemma NoPrefixNoToken(header: Option<string>)
    requires header.None? || !HasBearerPrefix(header.value)
    ensures BearerToken(header).None?
  {
  }

  /** `authenticate`. `verify` is `Time.Token.verify`: the token's user id, or an error. */
  function Authenticate(header: Option<string>, verify: string -> Fetched<int>): (r: Outcome<int>)
    ensures r.Ok? || r.Unauthorized?
    ensures BearerToken(header).None? ==> r == Unauthorized(NO_HEADER_MESSAGE)
    ensures r.Ok? <==> BearerToken(header).Some? && verify(BearerToken(header).value).Found?
    ensures r.Ok? ==> r.value == verify(BearerToken(header).value).value
    ensures r == Unauthorized(TOKEN_EXPIRED_MESSAGE) <==>
      BearerToken(header).Some? && verify(BearerToken(header).value) == Failed(AuthTokenExpired)
    ensures (BearerToken(header).Some? && verify(BearerToken(header).value).Failed?
             && verify(BearerToken(header).value).error != AuthTokenExpired)
      ==> r == Unauthorized(UNAUTHORIZED)
  {
    match BearerToken(header)
    case None => Unauthorized(NO_HEADER_MESSAGE)
    case Some(token) =>
      match verify(token)
      case Found(userID) => Ok(userID)
      case Failed(e) => if e == AuthTokenExpired then Unauthorized(TOKEN_EXPIRED_MESSAGE) else Unauthorized(UNAUTHORIZED)
  }

  // ---------------------------------------------------------------- token grant

  /** The form payload of `POST /oauth/token`. */
  datatype TokenPayload = TokenPayload(
    grantType: Option<string>,
    username: Option<string>,
    password: Option<string>,
    refreshToken: Option<string>)

  /** A given string field is non-empty (`joi.string()` refuses `""`). */
  predicate NonEmpty(o: Option<string>) {
    o.Some? ==> o.value != ""
  }

  /** `oauthParams`, read rule by rule: `grant_type` required and one of the
      two grants; `username` and `password` required under the password
      grant, `refresh_token` under the refresh grant; `username` and
      `password` each exclusive with `refresh_token`. */
  predicate ValidTokenPayload(p: TokenPayload) {
    && p.grantType.Some? && p.grantType.value in {REFRESH_TOKEN_GRANT, PASSWORD_GRANT}
    && (p.grantType == Some(PASSWORD_GRANT) ==> p.username.Some? && p.password.Some?)
    && (p.grantType == Some(REFRESH_TOKEN_GRANT) ==> p.refreshToken.Some?)
    && !(p.username.Some? && p.refreshToken.Some?)
    && !(p.password.Some? && p.refreshToken.Some?)
    && NonEmpty(p.username) && NonEmpty(p.password) && NonEmpty(p.refreshToken)
  }

  /** The two shapes the rules admit: the table of the endpoint's notes. */
  lemma TokenPayloadShapes(p: TokenPayload)
    ensures ValidTokenPayload(p) <==>
      || (p.grantType == Some(PASSWORD_GRANT) && p.username.Some? && p.password.Some?
          && p.refreshToken.None? && p.username.value != "" && p.password.value != "")
      || (p.grantType == Some(REFRESH_TOKEN_GRANT) && p.username.None? && p.password.None?
          && p.refreshToken.Some? && p.refreshToken.value != "")
  {
  }

  /** The two time-core paths to a token. */
  datatype GrantCall =
    | VerifyCredentials(email: string, password: string)
    | RefreshToken(token: string)

  /** The grant dispatch: the password grant checks credentials, every other
      accepted grant refreshes. */
  function GrantCallFor(p: TokenPayload): (c: GrantCall)
    requires ValidTokenPayload(p)
    ensures c.VerifyCredentials? <==> p.grantType == Some(PASSWORD_GRANT)
    ensures c.VerifyCredentials? ==> c == VerifyCredentials(p.username.value, p.password.value)
    ensures c.RefreshToken? ==> c == RefreshToken(p.refreshToken.value)
  {
    if p.grantType == Some(PASSWORD_GRANT) then VerifyCredentials(p.username.value, p.password.value)
    else RefreshToken(p.refreshToken.value)
  }

  /** The `catch` of `authHandler`. */
  function GrantError(e: TimeError, grantType: string): (r: Outcome<Value>)
    ensures r.Unauthorized? <==> e in {AuthTokenExpired, AuthTokenInvalid, AuthInvalidPassword}
    ensures r.Unauthorized? ==>
      r.message == if e == AuthTokenExpired && grantType == REFRESH_TOKEN_GRANT then REFRESH_EXPIRED_MESSAGE else UNAUTHORIZED
    ensures r.BadRequest? <==> e in {RequestInvalidType, AuthUniqueTokenNotFound, DataNotFound}
    ensures r.BadRequest? ==> r.message == BAD_REQUEST
    ensures r.Unauthorized? || r.BadRequest? || r.ServerError?
  {
    match e
    case AuthTokenExpired =>
      if grantType == REFRESH_TOKEN_GRANT then Unauthorized(REFRESH_EXPIRED_MESSAGE) else Unauthorized(UNAUTHORIZED)
    case AuthTokenInvalid => Unauthorized(UNAUTHORIZED)
    case AuthInvalidPassword => Unauthorized(UNAUTHORIZED)
    case RequestInvalidType => BadRequest(BAD_REQUEST)
    case AuthUniqueTokenNotFound => BadRequest(BAD_REQUEST)
    case DataNotFound => BadRequest(BAD_REQUEST)
    case _ => ServerError
  }

  /** `authHandler`. `grant` is the result of the time-core call: the token
      document, or an error. */
  function TokenHandler(mime: Option<string>, p: TokenPayload, grant: GrantCall -> Fetched<Value>): (r: Outcome<Value>)
    requires ValidTokenPayload(p)
    ensures mime != Some(FORM_MIME) ==> r == BadRequest(MIME_MESSAGE)
    ensures mime == Some(FORM_MIME) ==>
      match grant(GrantCallFor(p))
      case Found(token) => r == Ok(token)
      case Failed(e) => r == GrantError(e, p.grantType.value)
  {
    if mime != Some(FORM_MIME) then BadRequest(MIME_MESSAGE)
    else
      match grant(GrantCallFor(p))
      case Found(token) => Ok(token)
      case Failed(e) => GrantError(e, p.grantType.value)
  }

  /** A wrong password is a 401 with the plain message. */
  lemma WrongPasswordIsUnauthorized(p: TokenPayload, grant: GrantCall -> Fetched<Value>)
    requires ValidTokenPayload(p) && p.grantType == Some(PASSWORD_GRANT)
    requires grant(GrantCallFor(p)) == Failed(AuthInvalidPassword)
    ensures TokenHandler(Some(FORM_MIME), p, grant) == Unauthorized(UNAUTHORIZED)
  {
  }
}
