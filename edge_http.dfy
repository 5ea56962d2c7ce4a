/** What the two edge functions share: the shape of an incoming request as far as the handlers
    look at it, the response they build, the CORS headers they attach, the outcome of the
    identity provider's `auth.getUser(token)` and the extraction of the bearer token. */
module EdgeHttp {
  import opened Common

  type Headers = seq<(string, string)>

  /** `corsHeaders`, attached to every response. */
  const CorsHeaders: Headers := [
    ("Access-Control-Allow-Origin", "*"),
    ("Access-Control-Allow-Headers", "authorization, x-client-info, apikey, content-type")
  ]

  /** `{ ...corsHeaders, 'Content-Type': 'application/json' }`, on every JSON response. */
  const JsonHeaders: Headers := CorsHeaders + [("Content-Type", "application/json")]

  datatype Response<B> = Response(status: int, headers: Headers, body: B)

  /** The `text` property of a parsed JSON body. */
  datatype JsonText =
    | TextAbsent              // `undefined`
    | TextNotString           // any non-string value (number, boolean, null, object, array)
    | TextString(s: string)

  /** The outcome of `await req.json()` as the handlers see it. */
  datatype RequestBody =
    | Unparseable             // `req.json()` rejects
    | JsonNull                // the body is the JSON literal `null`: destructuring it throws
    | Parsed(text: JsonText)  // any other JSON value; `text` is its `text` property

  datatype Request = Request(httpMethod: string, authorization: Option<string>, body: RequestBody)

  /** The outcome of `supabase.auth.getUser(token)`. */
  datatype AuthOutcome =
    | UserFound(userId: string)   // `user` is set and `error` is not
    | AuthRejected                // `error` is set or `user` is null
    | AuthThrew(message: string)  // the call itself throws

  /** `!authHeader` is false: a header is present and not empty. */
  predicate HasAuthorization(req: Request) {
    TruthyString(req.authorization)
  }

  const BearerPrefix := "Bearer "

  /** `authHeader.replace('Bearer ', '')`. */
  function BearerToken(header: string): string {
    ReplaceFirst(header, BearerPrefix, "")
  }

  /** The first occurrence of "Bearer " is removed, wherever it stands; a header without it is
      passed through as it is. */
  lemma BearerTokenStrips(header: string, i: nat)
    ensures OccursAt(header, BearerPrefix, i) && (forall j: nat :: j < i ==> !OccursAt(header, BearerPrefix, j)) ==>
              BearerToken(header) == header[..i] + header[i + |BearerPrefix|..]
    ensures (forall k: nat :: !OccursAt(header, BearerPrefix, k)) ==> BearerToken(header) == header
  {
    if OccursAt(header, BearerPrefix, i) && (forall j: nat :: j < i ==> !OccursAt(header, BearerPrefix, j)) {
      ReplaceFirstAt(header, BearerPrefix, "", i);
    }
    if forall k: nat :: !OccursAt(header, BearerPrefix, k) {
      ReplaceFirstAbsent(header, BearerPrefix, "");
    }
  }

  /** The token the handlers pass to `auth.getUser`. */
  function TokenOf(req: Request): string
    requires HasAuthorization(req)
  {
    BearerToken(req.authorization.value)
  }
}
