/** How `refreshSpotifyAccessToken` turns the token endpoint's reply into the
    next token. The HTTP exchange itself is a parameter: its reply, or the
    failure that a network error, an unreadable body or a non-2xx status all
    lead to. */
module SpotifyToken {
  import opened Wrappers

  /** The token the refresh works on; fields the JWT lacks are `None`. */
  datatype Token = Token(accessToken: Option<string>, accessTokenExpires: Option<int>, refreshToken: Option<string>)

  /** The token endpoint's answer: `access_token`, `expires_in` (seconds)
      and an optional `refresh_token`. */
  datatype RefreshReply = Failed | Succeeded(accessToken: Option<string>, expiresIn: int, refreshToken: Option<string>)

  /** The token after a refresh attempt at time `now` (epoch milliseconds).
      A success takes the new access token, expires `expires_in` seconds
      from now and keeps the old refresh token unless a new one came; a
      failure keeps everything but sets the expiry to 0, so the token counts
      as expired. */
  function Refresh(token: Token, reply: RefreshReply, now: int): (t: Token)
    ensures reply.Failed? ==> t.accessToken == token.accessToken && t.refreshToken == token.refreshToken
    ensures reply.Failed? ==> t.accessTokenExpires == Some(0)
    ensures reply.Succeeded? ==> t.accessToken == reply.accessToken
    ensures reply.Succeeded? ==> t.accessTokenExpires == Some(now + reply.expiresIn * 1000)
    ensures reply.Succeeded? && reply.refreshToken.Some? ==> t.refreshToken == reply.refreshToken
    ensures reply.Succeeded? && reply.refreshToken.None? ==> t.refreshToken == token.refreshToken
  {
    match reply
    case Failed => token.(accessTokenExpires := Some(0))
    case Succeeded(accessToken, expiresIn, refreshToken) =>
      token.(accessToken := accessToken,
             accessTokenExpires := Some(now + expiresIn * 1000),
             refreshToken := if refreshToken.Some? then refreshToken else token.refreshToken)
  }

  /** The refresh token is never lost: whatever the reply, the token keeps
      one if it had one. */
  lemma RefreshKeepsRefreshToken(token: Token, reply: RefreshReply, now: int)
    requires token.refreshToken.Some?
    ensures Refresh(token, reply, now).refreshToken.Some?
  {
  }
}
