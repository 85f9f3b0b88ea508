/** What both API handlers share: the server environment, the session, the
    development bypass that stands in for a session outside production, and
    the shape of a JSON response. */
module Requests {
  import opened Wrappers

  /** `process.env`: `NODE_ENV`, `DEV_SPOTIFY_USER_ID`, `OPENAI_API_KEY`,
      `SUPABASE_URL` and `SUPABASE_SERVICE_ROLE_KEY`. */
  datatype Env = Env(
    nodeEnv: string,
    devUserId: Option<string>,
    openAiKey: Option<string>,
    supabaseUrl: Option<string>,
    supabaseKey: Option<string>)

  /** The session next-auth hands to a route handler. */
  datatype Session = Session(accessToken: Option<string>)

  /** An optional string used as a condition: present and non-empty. */
  predicate Present(v: Option<string>) {
    v.Some? && v.value != ""
  }

  predicate IsProduction(env: Env) {
    env.nodeEnv == "production"
  }

  /** `session?.accessToken` used as a condition. */
  predicate HasToken(session: Option<Session>) {
    session.Some? && Present(session.value.accessToken)
  }

  /** `!session?.accessToken && devUserId && NODE_ENV !== "production"`. */
  predicate UseBypass(env: Env, session: Option<Session>) {
    !HasToken(session) && Present(env.devUserId) && !IsProduction(env)
  }

  /** `getSupabaseAdmin()` throws unless both variables are set. */
  predicate SupabaseConfigured(env: Env) {
    Present(env.supabaseUrl) && Present(env.supabaseKey)
  }

  /** Who is calling, resolved once per request. */
  datatype Caller = Bypass(userId: string) | SignedIn(accessToken: string) | Anonymous

  function ResolveCaller(env: Env, session: Option<Session>): (c: Caller)
    ensures c.Bypass? <==> UseBypass(env, session)
    ensures c.Anonymous? <==> !UseBypass(env, session) && !HasToken(session)
    ensures c.Bypass? ==> !IsProduction(env) && Some(c.userId) == env.devUserId
    ensures c.SignedIn? ==> session == Some(Session(Some(c.accessToken)))
  {
    if UseBypass(env, session) then Bypass(env.devUserId.value)
    else if HasToken(session) then SignedIn(session.value.accessToken.value)
    else Anonymous
  }

  /** A call to a collaborator (Spotify, the database) that either produced a
      value or failed with a message that the handler passes on. */
  datatype Upstream<T> = Done(value: T) | Failed(message: string)

  /** A handler's JSON answer: a body with status 200, or `{error}` with a
      non-2xx status. */
  datatype Response<T> = Ok(body: T) | Error(status: nat, message: string)

  const UnauthorizedMessage: string := "Unauthorized"
  const CrateNotFoundMessage: string := "Crate not found"
  const SupabaseMissingMessage: string := "Supabase admin env vars missing"
  /** The message of a `TypeError` the runtime raises inside a handler's
      `try`; its exact wording belongs to the JavaScript engine. */
  const TypeErrorMessage: string := "TypeError"
  /** The message of the error `req.json()` raises on a body that is not
      JSON; its wording belongs to the runtime. */
  const BodyErrorMessage: string := "Unexpected end of JSON input"
}
