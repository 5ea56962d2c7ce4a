/** The `deepgram-token` edge function: it authenticates the caller and mints a short-lived,
    narrowly scoped speech-to-text key for one live transcription connection.

    Like `get-script` it is a ladder of guard-and-return checks, modelled as a pure function
    from the request, the server configuration, the two readings of the clock and the outcomes
    of the two external calls (`auth.getUser` and the key-creation call) to the response and the
    sequence of calls made. ISO timestamps are represented by the milliseconds they encode. */
module DeepgramToken {
  import opened Common
  import opened EdgeHttp

  /** `SUPABASE_URL`, `SUPABASE_SERVICE_ROLE_KEY` and `DEEPGRAM_API_KEY`, and the message
      `createClient` throws with for this URL and key, if it throws (an invalid URL, say). */
  datatype Env = Env(supabaseUrl: Option<string>, serviceRoleKey: Option<string>, deepgramApiKey: Option<string>,
                     clientCreationError: Option<string>)

  /** The argument of the key-creation call. */
  datatype KeyRequest = KeyRequest(comment: string, scopes: seq<string>, expirationDate: int,
                                   timeToLiveInSeconds: int)

  /** The outcome of the key-creation call. */
  datatype KeyOutcome =
    | KeyCreated(key: string)
    | NoKeyData              // neither `error` nor `result` is set
    | KeyError               // `error` is set
    | KeyThrew(message: string)

  datatype Body =
    | PlainOk
    | Error(error: string)
    | InternalError(error: string, message: string)
    | Issued(key: string, expiresAt: int, expiresIn: int, userId: string)   // success: true

  datatype Call = GetUser(token: string) | CreateKey(request: KeyRequest)

  datatype Run = Run(response: Response<Body>, calls: seq<Call>)

  /** `expirationSeconds`. */
  const ExpirationSeconds := 300
  const KeyScopes: seq<string> := ["usage:write"]

  const PreflightResponse: Response<Body> := Response(200, CorsHeaders, PlainOk)

  predicate ConfigPresent(env: Env) {
    TruthyString(env.supabaseUrl) && TruthyString(env.serviceRoleKey)
  }

  /** The key requested for user `userId` when the clock reads `now` milliseconds. */
  function KeyRequestFor(userId: string, now: int): (k: KeyRequest)
    ensures k.scopes == KeyScopes && k.timeToLiveInSeconds == ExpirationSeconds
    ensures k.expirationDate == now + ExpirationSeconds * 1000
  {
    KeyRequest("Temporary key for user " + userId, KeyScopes, now + ExpirationSeconds * 1000, ExpirationSeconds)
  }

  function JsonReply(status: int, error: string, calls: seq<Call>): Run {
    Run(Response(status, JsonHeaders, Error(error)), calls)
  }

  /** The catch-all: status 500 with the thrown error's message. */
  function Internal(message: string, calls: seq<Call>): Run {
    Run(Response(500, JsonHeaders, InternalError("Internal server error", message)), calls)
  }

  /** Key creation for an authenticated user. */
  function KeyStage(userId: string, env: Env, requestedAt: int, respondedAt: int,
                    createKey: KeyRequest -> KeyOutcome, prefix: seq<Call>): (r: Run)
    ensures r.response.headers == JsonHeaders
    ensures r.response.status in {200, 500, 503}
    ensures !TruthyString(env.deepgramApiKey) ==> r.calls == prefix && r.response.status == 500
    ensures TruthyString(env.deepgramApiKey) ==> r.calls == prefix + [CreateKey(KeyRequestFor(userId, requestedAt))]
    ensures r.response.status == 503 <==>
              TruthyString(env.deepgramApiKey) &&
              (createKey(KeyRequestFor(userId, requestedAt)).KeyError? ||
               createKey(KeyRequestFor(userId, requestedAt)).NoKeyData?)
    ensures r.response.status == 200 <==>
              TruthyString(env.deepgramApiKey) && createKey(KeyRequestFor(userId, requestedAt)).KeyCreated?
    ensures r.response.status == 200 ==>
              r.response.body == Issued(createKey(KeyRequestFor(userId, requestedAt)).key,
                                        respondedAt + ExpirationSeconds * 1000, ExpirationSeconds, userId)
  {
    if !TruthyString(env.deepgramApiKey) then JsonReply(500, "Deepgram service not configured", prefix)
    else
      var request := KeyRequestFor(userId, requestedAt);
      var calls := prefix + [CreateKey(request)];
      match createKey(request)
      case KeyThrew(message) => Internal(message, calls)
      case KeyError => JsonReply(503, "Failed to create temporary token", calls)
      case NoKeyData => JsonReply(503, "Failed to create temporary token", calls)
      case KeyCreated(key) =>
        Run(Response(200, JsonHeaders, Issued(key, respondedAt + ExpirationSeconds * 1000, ExpirationSeconds, userId)),
            calls)
  }

  /** The handler passed to `serve`. `requestedAt` and `respondedAt` are the two readings of
      `Date.now()`: for the key's expiration date and for the response's `expiresAt`. */
  function Handle(req: Request, env: Env, requestedAt: int, respondedAt: int,
                  getUser: string -> AuthOutcome, createKey: KeyRequest -> KeyOutcome): (r: Run)
    ensures req.httpMethod == "OPTIONS" ==> r == Run(PreflightResponse, [])
    ensures req.httpMethod != "OPTIONS" ==> r.response.headers == JsonHeaders
    ensures r.response.status in {200, 401, 500, 503}
    // a missing header is rejected before the server configuration is examined
    ensures req.httpMethod != "OPTIONS" && !HasAuthorization(req) ==>
              r == JsonReply(401, "No authorization header", [])
    ensures r.response.status == 401 <==>
              req.httpMethod != "OPTIONS" &&
              (!HasAuthorization(req) ||
               (ConfigPresent(env) && env.clientCreationError.None? && getUser(TokenOf(req)) == AuthRejected))
    ensures req.httpMethod != "OPTIONS" && HasAuthorization(req) && !ConfigPresent(env) ==>
              r == JsonReply(500, "Server configuration error", [])
    // a throwing `createClient` reaches the catch-all before any call is made
    ensures req.httpMethod != "OPTIONS" && HasAuthorization(req) && ConfigPresent(env) && env.clientCreationError.Some? ==>
              r == Internal(env.clientCreationError.value, [])
    // the calls made: authenticate the bearer token, then ask for a 300-second "usage:write" key
    ensures |r.calls| <= 2
    ensures |r.calls| >= 1 ==> HasAuthorization(req) && r.calls[0] == GetUser(TokenOf(req))
    ensures |r.calls| == 2 ==>
              getUser(TokenOf(req)).UserFound? &&
              r.calls[1] == CreateKey(KeyRequestFor(getUser(TokenOf(req)).userId, requestedAt))
    // success carries the created key, a 300-second lifetime and the authenticated user's id
    ensures r.response.status == 200 && req.httpMethod != "OPTIONS" ==>
              |r.calls| == 2 && r.calls[1].CreateKey? && createKey(r.calls[1].request).KeyCreated? &&
              r.response.body == Issued(createKey(r.calls[1].request).key, respondedAt + ExpirationSeconds * 1000,
                                        ExpirationSeconds, getUser(TokenOf(req)).userId)
    ensures r.response.status == 503 ==>
              |r.calls| == 2 && (createKey(r.calls[1].request).KeyError? || createKey(r.calls[1].request).NoKeyData?)
  {
    if req.httpMethod == "OPTIONS" then Run(PreflightResponse, [])
    else if !HasAuthorization(req) then JsonReply(401, "No authorization header", [])
    else if !ConfigPresent(env) then JsonReply(500, "Server configuration error", [])
    else if env.clientCreationError.Some? then Internal(env.clientCreationError.value, [])
    else
      var token := TokenOf(req);
      var calls := [GetUser(token)];
      match getUser(token)
      case AuthThrew(message) => Internal(message, calls)
      case AuthRejected => JsonReply(401, "Invalid or expired token", calls)
      case UserFound(userId) => KeyStage(userId, env, requestedAt, respondedAt, createKey, calls)
  }

  /** There is no method check: every method other than OPTIONS is handled like POST. */
  lemma NoMethodCheck(req: Request, env: Env, requestedAt: int, respondedAt: int,
                      getUser: string -> AuthOutcome, createKey: KeyRequest -> KeyOutcome)
    requires req.httpMethod != "OPTIONS"
    ensures Handle(req, env, requestedAt, respondedAt, getUser, createKey) ==
            Handle(req.(httpMethod := "POST"), env, requestedAt, respondedAt, getUser, createKey)
  {
  }

  /** A thrown exception, from creating the client or from either external call, is a 500
      "Internal server error" carrying its message. */
  lemma ThrownErrorsAreInternal(req: Request, env: Env, requestedAt: int, respondedAt: int, message: string,
                                getUser: string -> AuthOutcome, createKey: KeyRequest -> KeyOutcome)
    requires req.httpMethod != "OPTIONS" && HasAuthorization(req) && ConfigPresent(env)
    ensures env.clientCreationError == Some(message) ==>
              Handle(req, env, requestedAt, respondedAt, getUser, createKey).response ==
              Response(500, JsonHeaders, InternalError("Internal server error", message))
    ensures env.clientCreationError.None? && getUser(TokenOf(req)) == AuthThrew(message) ==>
              Handle(req, env, requestedAt, respondedAt, getUser, createKey).response ==
              Response(500, JsonHeaders, InternalError("Internal server error", message))
    ensures env.clientCreationError.None? && getUser(TokenOf(req)).UserFound? && TruthyString(env.deepgramApiKey) &&
            createKey(KeyRequestFor(getUser(TokenOf(req)).userId, requestedAt)) == KeyThrew(message) ==>
              Handle(req, env, requestedAt, respondedAt, getUser, createKey).response ==
              Response(500, JsonHeaders, InternalError("Internal server error", message))
  {
  }
}
