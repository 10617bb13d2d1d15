/**
 * The collaborators the handlers call but whose code is not part of this
 * model: JWT verification, cookie parsing, `JSON.parse`, Ajv schema checks
 * and Amazon Translate. Each is a function-typed field, so every property
 * proved below holds whatever those functions do.
 */
module Services {
  import opened Options
  import opened Js
  import opened Http

  type CookieMap = map<string, string>

  /** `cookies.token`, when the cookie map exists and the token is truthy. */
  function TokenCookie(cookies: Option<CookieMap>): (t: Option<string>)
    ensures t.Some? <==> cookies.Some? && "token" in cookies.value && cookies.value["token"] != ""
    ensures t.Some? ==> t.value == cookies.value["token"]
  {
    if cookies.Some? && "token" in cookies.value && cookies.value["token"] != "" then Some(cookies.value["token"]) else None
  }

  /** The claims of a verified JWT that the handlers read. */
  datatype JwtClaims = JwtClaims(sub: string, email: string)

  /** What `await verifyToken(...)` does: raise, resolve to a falsy value, or resolve to claims. */
  datatype VerifyOutcome = Throws | Falsy | Verified(claims: JwtClaims)

  /** The environment variables the handlers read (`process.env`). */
  datatype Env = Env(userPoolId: Option<string>, region: Option<string>, tableName: Option<string>)

  datatype Runtime = Runtime(
    /** `parseCookies(event)`; `None` is an undefined cookie map. */
    parseCookies: RequestEvent -> Option<CookieMap>,
    /** `verifyToken(token, userPoolId, region)`. */
    verifyToken: (string, Option<string>, Option<string>) -> VerifyOutcome,
    /** `JSON.parse(text)`; `None` when it raises. */
    parseJson: string -> Option<Json>,
    /** Ajv's compiled check for `schema.definitions[name]`. */
    conforms: (string, Json) -> bool,
    /** `translateText({Text, SourceLanguageCode, TargetLanguageCode})`; `None` when it raises. */
    translateText: (string, string, string) -> Option<string>)

  /**
   * The `MovieReview` schema is generated from the `MovieReview` type, which
   * declares `reviewerId`, `reviewDate` and `content` as strings: a body it
   * accepts carries those three string fields.
   */
  ghost predicate ReviewSchemaTypesFields(rt: Runtime) {
    forall j :: rt.conforms("MovieReview", j) ==>
      StringField(j, "reviewerId").Some? && StringField(j, "reviewDate").Some? && StringField(j, "content").Some?
  }
}
