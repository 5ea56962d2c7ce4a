/** The `get-script` edge function: given a transcript `text`, it authenticates the caller,
    embeds the trimmed text, asks the database for the best script above the similarity
    threshold, and answers with that script or with "no match".

    The handler is a ladder of guard-and-return checks. It is modelled as one pure function
    from the request, the server configuration and the outcomes of the three external calls
    (`auth.getUser`, the embeddings API and the `match_script` procedure) to the response and
    the sequence of external calls it made. */
module GetScript {
  import opened Common
  import opened EdgeHttp

  /** An embedding vector, passed through unchanged from the embeddings API to the database. */
  type Embedding = seq<real>

  /** The outcome of `openai.embeddings.create`. */
  datatype EmbedOutcome =
    | Embedded(vector: Embedding)
    | EmbedFailed(status: Option<int>)   // the thrown error's `status`, when it has one

  datatype MatchRow = MatchRow(intent: string, script: string, similarity: real)

  /** The outcome of `supabase.rpc('match_script', ...)`. */
  datatype DbOutcome =
    | Rows(rows: seq<MatchRow>)
    | NullRows            // `data` is null and `error` is not set
    | DbError             // `error` is set
    | DbThrew             // the call itself throws

  /** The JSON bodies the handler sends. */
  datatype Body =
    | PlainOk                                                   // the preflight's 'ok'
    | Error(error: string)
    | Matched(intent: string, script: string, similarity: real) // success: true
    | NoMatch(message: string)                                  // success: false, intent and script null

  /** The external calls the handler makes, in the order it makes them. */
  datatype Call =
    | GetUser(token: string)
    | CreateEmbedding(model: string, input: string)
    | MatchScript(queryEmbedding: Embedding, threshold: real)

  /** Server configuration: whether creating the database client throws (the service URL and
      key are read with a non-null assertion and not checked), and `OPENAI_API_KEY`. */
  datatype Env = Env(clientCreationThrows: bool, openaiKey: Option<string>)

  datatype Run = Run(response: Response<Body>, calls: seq<Call>)

  const EmbeddingModel := "text-embedding-3-small"
  const MatchThreshold: real := 0.4

  const PreflightResponse: Response<Body> := Response(200, CorsHeaders, PlainOk)

  /** `text` is a string with at least one non-white-space character. */
  predicate ValidText(t: JsonText) {
    t.TextString? && Trim(t.s) != ""
  }

  predicate IsPost(req: Request) {
    req.httpMethod == "POST"
  }

  /** The request passes the method, JSON and `text` checks. */
  predicate TextAccepted(req: Request) {
    IsPost(req) && req.body.Parsed? && ValidText(req.body.text)
  }

  /** What is sent to the embeddings API: the trimmed text. */
  function InputOf(req: Request): string
    requires TextAccepted(req)
  {
    Trim(req.body.text.s)
  }

  /** The calls the handler makes when every step succeeds; every run makes a prefix of them. */
  function FullPlan(token: string, input: string, embedding: Embedding): seq<Call> {
    [GetUser(token), CreateEmbedding(EmbeddingModel, input), MatchScript(embedding, MatchThreshold)]
  }

  function VectorOf(o: EmbedOutcome): Embedding {
    if o.Embedded? then o.vector else []
  }

  function JsonReply(status: int, error: string, calls: seq<Call>): Run {
    Run(Response(status, JsonHeaders, Error(error)), calls)
  }

  /** The catch-all for anything thrown outside the embedding step. */
  function Unexpected(calls: seq<Call>): Run {
    JsonReply(500, "An unexpected error occurred", calls)
  }

  /** The last step: the `match_script` lookup at threshold 0.4 decides the answer. */
  function MatchStage(prefix: seq<Call>, vector: Embedding, matchScript: (Embedding, real) -> DbOutcome): (r: Run)
    ensures r.calls == prefix + [MatchScript(vector, MatchThreshold)]
    ensures r.response.headers == JsonHeaders
    ensures r.response.status in {200, 500}
    ensures r.response.status == 200 <==> r.response.body.Matched? || r.response.body.NoMatch?
    ensures r.response.body.Matched? <==>
              matchScript(vector, MatchThreshold).Rows? && matchScript(vector, MatchThreshold).rows != []
    // an error is 500: a throwing call falls through to the catch-all
    ensures r.response.status == 500 <==> matchScript(vector, MatchThreshold) in {DbError, DbThrew}
    ensures matchScript(vector, MatchThreshold) == DbThrew ==> r == Unexpected(prefix + [MatchScript(vector, MatchThreshold)])
    // only the first row is answered with
    ensures r.response.body.Matched? ==>
              var row := matchScript(vector, MatchThreshold).rows[0];
              r.response.body == Matched(row.intent, row.script, row.similarity)
  {
    var calls := prefix + [MatchScript(vector, MatchThreshold)];
    match matchScript(vector, MatchThreshold)
    case DbThrew => Unexpected(calls)
    case DbError => JsonReply(500, "Database query failed", calls)
    case NullRows => Run(Response(200, JsonHeaders, NoMatch("No matching script found")), calls)
    case Rows(rows) =>
      if |rows| > 0 then
        Run(Response(200, JsonHeaders, Matched(rows[0].intent, rows[0].script, rows[0].similarity)), calls)
      else
        Run(Response(200, JsonHeaders, NoMatch("No matching script found")), calls)
  }

  /** The embedding step for the trimmed `input`; a failure is mapped from the error's status. */
  function EmbedStage(prefix: seq<Call>, input: string, embed: string -> EmbedOutcome,
                      matchScript: (Embedding, real) -> DbOutcome): (r: Run)
    ensures r.response.headers == JsonHeaders
    ensures r.response.status in {200, 500, 503}
    ensures embed(input).EmbedFailed? ==> r.calls == prefix + [CreateEmbedding(EmbeddingModel, input)]
    ensures embed(input).Embedded? ==>
              r.calls == prefix + [CreateEmbedding(EmbeddingModel, input), MatchScript(embed(input).vector, MatchThreshold)]
    ensures r.response.status == 200 <==>
              embed(input).Embedded? && (r.response.body.Matched? || r.response.body.NoMatch?)
    // a failure is mapped from its status: rate limit 503, rejected key 500, anything else 503
    ensures embed(input).EmbedFailed? ==>
              r.response.status == (if embed(input).status == Some(401) then 500 else 503)
  {
    var calls := prefix + [CreateEmbedding(EmbeddingModel, input)];
    match embed(input)
    case EmbedFailed(status) =>
      if status == Some(429) then
        JsonReply(503, "Embedding service rate limit exceeded. Please try again later.", calls)
      else if status == Some(401) then
        JsonReply(500, "Embedding service authentication failed", calls)
      else
        JsonReply(503, "Embedding service unavailable. Please try again.", calls)
    case Embedded(vector) =>
      var r := MatchStage(calls, vector, matchScript);
      assert calls + [MatchScript(vector, MatchThreshold)] ==
             prefix + [CreateEmbedding(EmbeddingModel, input), MatchScript(vector, MatchThreshold)];
      r
  }

  /** The answers `MatchStage` can give besides a match: the catch-all for a throwing call,
      "Database query failed" for a reported error, and "No matching script found" otherwise. */
  lemma DatabaseResponses(prefix: seq<Call>, vector: Embedding, matchScript: (Embedding, real) -> DbOutcome)
    ensures var r := MatchStage(prefix, vector, matchScript);
            var db := matchScript(vector, MatchThreshold);
            && (db == DbThrew ==> r.response == Response(500, JsonHeaders, Error("An unexpected error occurred")))
            && (db == DbError ==> r.response == Response(500, JsonHeaders, Error("Database query failed")))
            && (db == NullRows || db == Rows([]) ==>
                  r.response == Response(200, JsonHeaders, NoMatch("No matching script found")))
  {
  }

  /** The answers `EmbedStage` gives for a failed embedding, by the error's status. */
  lemma EmbeddingFailureResponses(prefix: seq<Call>, input: string, embed: string -> EmbedOutcome,
                                  matchScript: (Embedding, real) -> DbOutcome)
    requires embed(input).EmbedFailed?
    ensures var r := EmbedStage(prefix, input, embed, matchScript);
            var status := embed(input).status;
            && (status == Some(429) ==>
                  r.response == Response(503, JsonHeaders, Error("Embedding service rate limit exceeded. Please try again later.")))
            && (status == Some(401) ==>
                  r.response == Response(500, JsonHeaders, Error("Embedding service authentication failed")))
            && (status != Some(429) && status != Some(401) ==>
                  r.response == Response(503, JsonHeaders, Error("Embedding service unavailable. Please try again.")))
  {
  }

  /** Everything after the request has been accepted: authentication, configuration, embedding
      and lookup. */
  function AuthenticatedStage(token: string, input: string, env: Env, getUser: string -> AuthOutcome,
                              embed: string -> EmbedOutcome, matchScript: (Embedding, real) -> DbOutcome): (r: Run)
    ensures r.response.headers == JsonHeaders
    ensures r.response.status in {200, 401, 500, 503}
    ensures r.response.status == 401 <==> !env.clientCreationThrows && getUser(token) == AuthRejected
    ensures |r.calls| <= 3 && r.calls == FullPlan(token, input, VectorOf(embed(input)))[..|r.calls|]
    ensures |r.calls| == 3 ==> embed(input).Embedded?
    ensures r.response.status == 200 <==>
              |r.calls| == 3 && (r.response.body.Matched? || r.response.body.NoMatch?)
    // a throw while creating the client or looking the user up reaches the catch-all
    ensures env.clientCreationThrows ==> r == Unexpected([])
    ensures !env.clientCreationThrows && getUser(token).AuthThrew? ==> r == Unexpected([GetUser(token)])
  {
    if env.clientCreationThrows then Unexpected([])
    else
      var calls := [GetUser(token)];
      match getUser(token)
      case AuthThrew(_) => Unexpected(calls)
      case AuthRejected => JsonReply(401, "Invalid or expired authentication token", calls)
      case UserFound(_) =>
        if !TruthyString(env.openaiKey) then
          JsonReply(500, "Embedding service not configured", calls)
        else
          var r := EmbedStage(calls, input, embed, matchScript);
          assert FullPlan(token, input, VectorOf(embed(input)))[..2] == calls + [CreateEmbedding(EmbeddingModel, input)];
          r
  }

  /** The checks made before any external call: either the early answer, or the bearer token
      and the trimmed text to go on with. */
  datatype Admission = Early(run: Run) | Admitted(token: string, input: string)

  /** The guard ladder up to and including the Authorization header. */
  function Admit(req: Request): (a: Admission)
    ensures a.Admitted? <==> TextAccepted(req) && HasAuthorization(req)
    ensures a.Admitted? ==> a.token == TokenOf(req) && a.input == InputOf(req)
    ensures a.Early? ==> a.run.calls == []
  {
    if req.httpMethod == "OPTIONS" then Early(Run(PreflightResponse, []))
    else if req.httpMethod != "POST" then Early(JsonReply(405, "Method not allowed", []))
    else
      match req.body
      case Unparseable => Early(JsonReply(400, "Invalid JSON in request body", []))
      case JsonNull => Early(Unexpected([]))
      case Parsed(text) =>
        if !ValidText(text) then
          Early(JsonReply(400, "Missing or invalid \"text\" field in request body", []))
        else if !HasAuthorization(req) then
          Early(JsonReply(401, "Missing authorization header", []))
        else
          Admitted(TokenOf(req), InputOf(req))
  }

  /** The handler passed to `serve`. */
  function Handle(req: Request, env: Env, getUser: string -> AuthOutcome,
                  embed: string -> EmbedOutcome, matchScript: (Embedding, real) -> DbOutcome): (r: Run)
    // the preflight is answered before anything else is looked at
    ensures req.httpMethod == "OPTIONS" ==> r == Run(PreflightResponse, [])
    ensures req.httpMethod != "OPTIONS" ==> r.response.headers == JsonHeaders
    ensures r.response.status in {200, 400, 401, 405, 500, 503}
    // the status table, checked in this order: method, JSON, text, then authentication
    ensures r.response.status == 405 <==> req.httpMethod != "OPTIONS" && req.httpMethod != "POST"
    ensures r.response.status == 400 <==>
              IsPost(req) && (req.body.Unparseable? || (req.body.Parsed? && !ValidText(req.body.text)))
    ensures r.response.status == 401 <==>
              TextAccepted(req) &&
              (!HasAuthorization(req) || (!env.clientCreationThrows && getUser(TokenOf(req)) == AuthRejected))
    // no external call is made before the text and the header have been accepted, and the calls
    // made are always a prefix of: authenticate, embed the trimmed text, match at threshold 0.4
    ensures r.calls != [] ==>
              TextAccepted(req) && HasAuthorization(req) && |r.calls| <= 3 &&
              r.calls == FullPlan(TokenOf(req), InputOf(req), VectorOf(embed(InputOf(req))))[..|r.calls|]
    // the database is consulted only with the embedding the embeddings API returned
    ensures |r.calls| == 3 ==> embed(InputOf(req)).Embedded?
    // a 200 that is not the preflight is exactly the end of the ladder
    ensures r.response.status == 200 && req.httpMethod != "OPTIONS" <==>
              |r.calls| == 3 && (r.response.body.Matched? || r.response.body.NoMatch?)
    // destructuring a `null` body throws into the catch-all
    ensures IsPost(req) && req.body.JsonNull? ==> r == Unexpected([])
  {
    match Admit(req)
    case Early(run) => run
    case Admitted(token, input) => AuthenticatedStage(token, input, env, getUser, embed, matchScript)
  }

  /** A missing, non-string or blank `text` is rejected with 400 before the Authorization header
      is looked at, whatever the header and the external services would say. */
  lemma BlankTextRejectedBeforeAuth(req: Request, env: Env, getUser: string -> AuthOutcome,
                                    embed: string -> EmbedOutcome, matchScript: (Embedding, real) -> DbOutcome)
    requires IsPost(req) && req.body.Parsed?
    requires req.body.text.TextAbsent? || req.body.text.TextNotString? ||
             (req.body.text.TextString? && AllWhitespace(req.body.text.s))
    ensures Handle(req, env, getUser, embed, matchScript) ==
            JsonReply(400, "Missing or invalid \"text\" field in request body", [])
  {
    if req.body.text.TextString? {
      TrimEmptyIff(req.body.text.s);
    }
  }

  /** How a failed embedding call is reported: a rate limit is 503, a rejected API key is 500
      (a server misconfiguration, not the caller's fault), anything else is 503. */
  lemma EmbeddingFailureMapping(req: Request, env: Env, getUser: string -> AuthOutcome, embed: string -> EmbedOutcome,
                                matchScript: (Embedding, real) -> DbOutcome)
    requires TextAccepted(req) && HasAuthorization(req) && !env.clientCreationThrows
    requires TruthyString(env.openaiKey) && getUser(TokenOf(req)).UserFound? && embed(InputOf(req)).EmbedFailed?
    ensures var r := Handle(req, env, getUser, embed, matchScript);
            var status := embed(InputOf(req)).status;
            && r.calls == [GetUser(TokenOf(req)), CreateEmbedding(EmbeddingModel, InputOf(req))]
            && (status == Some(429) ==> r.response.status == 503)
            && (status == Some(401) ==> r.response.status == 500)
            && (status != Some(429) && status != Some(401) ==> r.response.status == 503)
  {
  }

  /** Without `OPENAI_API_KEY` an authenticated request gets 500 and nothing is embedded. */
  lemma MissingOpenAiKey(req: Request, env: Env, getUser: string -> AuthOutcome, embed: string -> EmbedOutcome,
                         matchScript: (Embedding, real) -> DbOutcome)
    requires TextAccepted(req) && HasAuthorization(req) && !env.clientCreationThrows
    requires !TruthyString(env.openaiKey) && getUser(TokenOf(req)).UserFound?
    ensures Handle(req, env, getUser, embed, matchScript) ==
            JsonReply(500, "Embedding service not configured", [GetUser(TokenOf(req))])
  {
  }

  /** The result of the database lookup decides the response: an error is 500, a non-empty list
      is 200 with its FIRST row only, an empty or null list is 200 with `success: false`. */
  lemma MatchOutcomes(req: Request, env: Env, getUser: string -> AuthOutcome, embed: string -> EmbedOutcome,
                      matchScript: (Embedding, real) -> DbOutcome)
    requires TextAccepted(req) && HasAuthorization(req) && !env.clientCreationThrows
    requires TruthyString(env.openaiKey) && getUser(TokenOf(req)).UserFound? && embed(InputOf(req)).Embedded?
    ensures var r := Handle(req, env, getUser, embed, matchScript);
            var db := matchScript(embed(InputOf(req)).vector, MatchThreshold);
            && (db.DbError? ==> r.response == Response(500, JsonHeaders, Error("Database query failed")))
            && (db.Rows? && |db.rows| > 0 ==>
                  r.response == Response(200, JsonHeaders,
                                         Matched(db.rows[0].intent, db.rows[0].script, db.rows[0].similarity)))
            && (db.NullRows? || (db.Rows? && db.rows == []) ==>
                  r.response == Response(200, JsonHeaders, NoMatch("No matching script found")))
  {
  }

  /** Whatever throws outside the embedding step (destructuring a `null` body, creating the
      database client, `auth.getUser`, the `match_script` call) is answered by the catch-all
      with 500 "An unexpected error occurred". */
  lemma ThrownIsUnexpected(req: Request, env: Env, getUser: string -> AuthOutcome, embed: string -> EmbedOutcome,
                           matchScript: (Embedding, real) -> DbOutcome)
    requires (IsPost(req) && req.body.JsonNull?) ||
             (TextAccepted(req) && HasAuthorization(req) &&
              (env.clientCreationThrows || getUser(TokenOf(req)).AuthThrew? ||
               (getUser(TokenOf(req)).UserFound? && TruthyString(env.openaiKey) && embed(InputOf(req)).Embedded? &&
                matchScript(embed(InputOf(req)).vector, MatchThreshold) == DbThrew)))
    ensures Handle(req, env, getUser, embed, matchScript).response ==
            Response(500, JsonHeaders, Error("An unexpected error occurred"))
  {
  }

  /** The text enters the handler only through `text.trim()`: two requests whose texts trim to
      the same string are handled identically. */
  lemma OnlyTrimmedTextMatters(req1: Request, req2: Request, env: Env, getUser: string -> AuthOutcome,
                               embed: string -> EmbedOutcome, matchScript: (Embedding, real) -> DbOutcome)
    requires req1.httpMethod == req2.httpMethod && req1.authorization == req2.authorization
    requires req1.body.Parsed? && req2.body.Parsed?
    requires req1.body.text.TextString? && req2.body.text.TextString?
    requires Trim(req1.body.text.s) == Trim(req2.body.text.s)
    ensures Handle(req1, env, getUser, embed, matchScript) == Handle(req2, env, getUser, embed, matchScript)
  {
    SameTrimSameAdmission(req1, req2);
  }

  lemma SameTrimSameAdmission(req1: Request, req2: Request)
    requires req1.httpMethod == req2.httpMethod && req1.authorization == req2.authorization
    requires req1.body.Parsed? && req2.body.Parsed?
    requires req1.body.text.TextString? && req2.body.text.TextString?
    requires Trim(req1.body.text.s) == Trim(req2.body.text.s)
    ensures Admit(req1) == Admit(req2)
  {
    var text1, text2 := req1.body.text, req2.body.text;
    if req1.httpMethod != "POST" {
    } else if !ValidText(text1) {
      assert !ValidText(text2);
    } else {
      assert ValidText(text2);
      if HasAuthorization(req1) {
        assert InputOf(req1) == InputOf(req2);
      }
    }
  }

  /** The database is only ever asked at threshold 0.4: what it would answer at any other
      threshold makes no difference. */
  lemma OnlyThresholdPointFourMatters(req: Request, env: Env, getUser: string -> AuthOutcome,
                                      embed: string -> EmbedOutcome,
                                      match1: (Embedding, real) -> DbOutcome, match2: (Embedding, real) -> DbOutcome)
    requires forall e :: match1(e, 0.4) == match2(e, 0.4)
    ensures Handle(req, env, getUser, embed, match1) == Handle(req, env, getUser, embed, match2)
  {
    if Admit(req).Admitted? {
      StageIgnoresOtherThresholds(Admit(req).token, Admit(req).input, env, getUser, embed, match1, match2);
    }
  }

  lemma StageIgnoresOtherThresholds(token: string, input: string, env: Env, getUser: string -> AuthOutcome,
                                    embed: string -> EmbedOutcome,
                                    match1: (Embedding, real) -> DbOutcome, match2: (Embedding, real) -> DbOutcome)
    requires forall e :: match1(e, 0.4) == match2(e, 0.4)
    ensures AuthenticatedStage(token, input, env, getUser, embed, match1) ==
            AuthenticatedStage(token, input, env, getUser, embed, match2)
  {
    if embed(input).Embedded? {
      var prefix := [GetUser(token), CreateEmbedding(EmbeddingModel, input)];
      assert MatchStage(prefix, embed(input).vector, match1) == MatchStage(prefix, embed(input).vector, match2);
    }
  }
}
