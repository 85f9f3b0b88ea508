/** The next-auth callbacks: `jwt`, which keeps the Spotify tokens in the
    session's JWT and refreshes them once they expire, and `session`, which
    copies the access token and the user into the session the client sees. */
module AuthCallbacks {
  import opened Wrappers
  import opened JsonValue
  import Requests
  import opened SpotifyToken

  /** `Session["user"]`. */
  datatype User = User(name: Option<string>, email: Option<string>, image: Option<string>)

  /** The JWT: the three token fields, the user, and the claims next-auth
      keeps there itself (`sub`, `iat`, ...), which the callback only
      carries along. */
  datatype Jwt = Jwt(
    accessToken: Option<string>,
    refreshToken: Option<string>,
    accessTokenExpires: Option<int>,
    user: Option<User>,
    claims: map<string, Json>)

  /** The OAuth account on sign-in: `access_token`, `refresh_token` and
      `expires_in` (seconds). */
  datatype Account = Account(accessToken: Option<string>, refreshToken: Option<string>, expiresIn: int)

  /** `token.accessToken && token.accessTokenExpires && now < accessTokenExpires`;
      an expiry of 0 is falsy. */
  predicate StillValid(token: Jwt, now: int) {
    Requests.Present(token.accessToken) && token.accessTokenExpires.Some? && token.accessTokenExpires.value != 0
    && now < token.accessTokenExpires.value
  }

  function TokenOf(token: Jwt): Token {
    Token(token.accessToken, token.accessTokenExpires, token.refreshToken)
  }

  /** The refresh path: the refresh result replaces exactly the three token
      fields. */
  function Refreshed(token: Jwt, reply: RefreshReply, now: int): (r: Jwt)
    ensures r.user == token.user && r.claims == token.claims
    ensures TokenOf(r) == Refresh(TokenOf(token), reply, now)
  {
    var t := Refresh(TokenOf(token), reply, now);
    token.(accessToken := t.accessToken, refreshToken := t.refreshToken, accessTokenExpires := t.accessTokenExpires)
  }

  /** `callbacks.jwt` at time `now`. `reply` is what the token endpoint
      would answer; it is only consulted on the refresh path. */
  function JwtCallback(token: Jwt, account: Option<Account>, user: Option<User>, now: int, reply: RefreshReply): (r: Jwt)
    ensures account.Some? && user.Some? ==>
      r.accessToken == account.value.accessToken && r.refreshToken == account.value.refreshToken
      && r.accessTokenExpires == Some(now + account.value.expiresIn * 1000)
      && r.user == user && r.claims == token.claims
    ensures !(account.Some? && user.Some?) && StillValid(token, now) ==> r == token
    ensures !(account.Some? && user.Some?) && !StillValid(token, now) ==> r == Refreshed(token, reply, now)
  {
    if account.Some? && user.Some? then
      token.(accessToken := account.value.accessToken,
             refreshToken := account.value.refreshToken,
             accessTokenExpires := Some(now + account.value.expiresIn * 1000),
             user := user)
    else if StillValid(token, now) then token
    else Refreshed(token, reply, now)
  }

  /** A token still valid is returned as it is. For an expired one a failed
      refresh leaves a token whose next `jwt` call, at any time, takes the
      refresh path again, however many refreshes have failed before. */
  lemma FailedRefreshRetries(token: Jwt, now: int, later: int, reply: RefreshReply)
    ensures var t := JwtCallback(token, None, None, now, Failed);
      StillValid(token, now) ==> t == token
    ensures var t := JwtCallback(token, None, None, now, Failed);
      !StillValid(token, now) ==>
        t.accessTokenExpires == Some(0) && JwtCallback(t, None, None, later, reply) == Refreshed(t, reply, later)
  {
  }

  /** After a successful refresh the new access token is reused, without
      another refresh, until it expires. */
  lemma RefreshedTokenReused(token: Jwt, now: int, reply: RefreshReply, later: int)
    requires !StillValid(token, now)
    requires reply.Succeeded? && Requests.Present(reply.accessToken) && reply.expiresIn > 0
    requires later < now + reply.expiresIn * 1000
    ensures var t := JwtCallback(token, None, None, now, reply);
      JwtCallback(t, None, None, later, Failed) == t
  {
  }

  /** The session the client sees. */
  datatype ClientSession = ClientSession(user: Option<User>, expires: string, accessToken: Option<string>)

  /** `callbacks.session`: the access token from the JWT, and the JWT's user
      when it has one, otherwise the session's. */
  function SessionCallback(session: ClientSession, token: Jwt): (s: ClientSession)
    ensures s.accessToken == token.accessToken
    ensures token.user.Some? ==> s.user == token.user
    ensures token.user.None? ==> s.user == session.user
    ensures s.expires == session.expires
  {
    session.(accessToken := token.accessToken, user := if token.user.Some? then token.user else session.user)
  }
}
