/**
 * lambdas/auth/authorizer.ts: the request authorizer. It reads the `token`
 * cookie, checks that the user-pool configuration is present, verifies the
 * token, and answers Allow for the token's subject or Deny for the
 * principal "unauthorised". No failure escapes as an exception.
 */
module Authorizer {
  import opened Options
  import opened Js
  import opened Http
  import opened Services

  datatype Effect = Allow | Deny

  /** The policy document `createPolicy(event, effect)` builds; its statement is not modelled. */
  datatype PolicyDocument = CreatePolicy(event: RequestEvent, effect: Effect)

  datatype AuthContext = AuthContext(userId: string, email: string)

  datatype AuthorizerResult = AuthorizerResult(
    principalId: string,
    policyDocument: PolicyDocument,
    context: Option<AuthContext>)

  const Unauthorised := "unauthorised"

  /** The answer every failure branch returns. */
  function Denied(event: RequestEvent): AuthorizerResult {
    AuthorizerResult(Unauthorised, CreatePolicy(event, Deny), None)
  }

  /** Both `USER_POOL_ID` and `REGION` are set to non-empty values. */
  predicate Configured(env: Env) {
    Truthy(env.userPoolId) && Truthy(env.region)
  }

  /** The claims the verifier returns, when the handler gets as far as calling it and it returns some. */
  function VerifiedClaims(event: RequestEvent, env: Env, rt: Runtime): Option<JwtClaims> {
    var token := TokenCookie(rt.parseCookies(event));
    if token.None? || !Configured(env) then None
    else match rt.verifyToken(token.value, env.userPoolId, env.region)
      case Verified(claims) => Some(claims)
      case _ => None
  }

  /** The authorizer's `handler`. */
  function Handler(event: RequestEvent, env: Env, rt: Runtime): (r: AuthorizerResult)
    // the policy is always createPolicy(event, effect) for the incoming event
    ensures r.policyDocument.event == event
    // fail-closed: Allow exactly when verification produced claims
    ensures r.policyDocument.effect == Allow <==> VerifiedClaims(event, env, rt).Some?
    // on Allow the principal and context come from the claims
    ensures r.policyDocument.effect == Allow ==>
      var claims := VerifiedClaims(event, env, rt).value;
      r.principalId == claims.sub && r.context == Some(AuthContext(claims.sub, claims.email))
    // on Deny the principal is "unauthorised" and there is no context
    ensures r.policyDocument.effect == Deny ==> r == Denied(event)
    // no token cookie: Deny
    ensures TokenCookie(rt.parseCookies(event)).None? ==> r == Denied(event)
    // missing configuration: Deny
    ensures !Configured(env) ==> r == Denied(event)
    // a verifier that raises or returns a falsy value: Deny
    ensures (TokenCookie(rt.parseCookies(event)).Some? && Configured(env) &&
             !rt.verifyToken(TokenCookie(rt.parseCookies(event)).value, env.userPoolId, env.region).Verified?) ==>
            r == Denied(event)
  {
    var token := TokenCookie(rt.parseCookies(event));
    if token.None? then
      Denied(event)
    else if !Configured(env) then
      Denied(event)
    else
      match rt.verifyToken(token.value, env.userPoolId, env.region)
      case Throws => Denied(event)
      case Falsy => Denied(event)
      case Verified(claims) =>
        AuthorizerResult(claims.sub, CreatePolicy(event, Allow), Some(AuthContext(claims.sub, claims.email)))
  }

  /** Without a token cookie the verifier is never consulted: any verifier gives the same answer. */
  lemma NoTokenNeverVerifies(event: RequestEvent, env: Env, rt: Runtime, other: (string, Option<string>, Option<string>) -> VerifyOutcome)
    requires TokenCookie(rt.parseCookies(event)).None?
    ensures Handler(event, env, rt) == Handler(event, env, rt.(verifyToken := other)) == Denied(event)
  {
  }

  /** Without configuration the verifier is never consulted either. */
  lemma MissingConfigNeverVerifies(event: RequestEvent, env: Env, rt: Runtime, other: (string, Option<string>, Option<string>) -> VerifyOutcome)
    requires !Configured(env)
    ensures Handler(event, env, rt) == Handler(event, env, rt.(verifyToken := other)) == Denied(event)
  {
  }
}
