/** The backend's authentication middleware: the bearer token is read from the
    `Authorization` header and checked with the JWT library (an oracle here), which
    either yields the signed claims or fails because the token expired or is invalid
    otherwise; `requireRole` then gates a route on the user's role. */
module AuthMiddleware {
  import opened Json
  import opened Text
  import opened Http

  /** The claims of an access token, as placed on `req.user`. */
  datatype Claims = Claims(id: string, email: string, role: string, iat: int, exp: int)

  /** What `jwt.verify(token, secret)` does: return the claims, or throw a
      `TokenExpiredError`, or throw any other error. */
  datatype Verdict = Accepted(claims: Claims) | Expired | Rejected

  /** `authHeader && authHeader.split(' ')[1]`, truthy: the second space-separated
      field of the header, when there is one and it is not empty. */
  function ExtractToken(header: Option<string>): (token: Option<string>)
    ensures token.Some? ==> header.Some? && token.value != "" && Lacks(token.value, ' ')
    ensures token.Some? ==> |SplitOn(header.value, ' ')| >= 2 && SplitOn(header.value, ' ')[1] == token.value
    ensures header.Some? && |SplitOn(header.value, ' ')| >= 2 && SplitOn(header.value, ' ')[1] != "" ==> token.Some?
  {
    if header.None? || header.value == "" then None
    else
      var fields := SplitOn(header.value, ' ');
      if |fields| >= 2 && fields[1] != "" then Some(fields[1]) else None
  }

  /** The header the client sends, `Bearer <token>`, yields the token back. */
  lemma BearerRoundTrip(token: string)
    requires token != "" && Lacks(token, ' ')
    ensures ExtractToken(Some("Bearer " + token)) == Some(token)
  {
    assert "Bearer " + token == "Bearer" + [' '] + token;
    SplitAfterFirst("Bearer", ' ', token);
    SplitWithoutSeparator(token, ' ');
  }

  /** The scheme word is not looked at: any single word in front of the token serves,
      as does a token followed by further words. */
  lemma SchemeIsNotChecked(scheme: string, token: string, rest: string)
    requires Lacks(scheme, ' ') && token != "" && Lacks(token, ' ')
    ensures ExtractToken(Some(scheme + " " + token + " " + rest)) == Some(token)
  {
    assert scheme + " " + token + " " + rest == scheme + [' '] + (token + [' '] + rest);
    SplitAfterFirst(scheme, ' ', token + [' '] + rest);
    SplitAfterFirst(token, ' ', rest);
  }

  /** A header without a space carries no token. */
  lemma NoSpaceNoToken(header: string)
    requires Lacks(header, ' ')
    ensures ExtractToken(Some(header)).None?
  {
    SplitWithoutSeparator(header, ' ');
  }

  /** The parts of an Express request these middlewares read and write. */
  class Request {
    var authorization: Option<string>
    var user: Option<Claims>

    constructor (authorization: Option<string>)
      ensures this.authorization == authorization && user.None?
    {
      this.authorization := authorization;
      user := None;
    }
  }

  /** The answer of `authenticateToken` and the user it leaves on the request (None: not
      set by it). */
  function AuthenticateSpec(header: Option<string>, verify: string -> Verdict): (Outcome, Option<Claims>) {
    match ExtractToken(header)
    case None => (ErrorReply(401, "Access Denied", "No authentication token provided"), None)
    case Some(token) =>
      match verify(token)
      case Accepted(claims) => (Next, Some(claims))
      case Expired => (ErrorReply(401, "Token Expired", "Authentication token has expired"), None)
      case Rejected => (ErrorReply(403, "Invalid Token", "Authentication token is invalid"), None)
  }

  /** `authenticateToken`: pass the request on, with the verified claims as its user,
      exactly when it carries a token that verifies; otherwise answer 401 (no token,
      expired token) or 403 (any other failure) and leave the request alone. */
  method AuthenticateToken(req: Request, verify: string -> Verdict) returns (o: Outcome)
    modifies req
    ensures o == AuthenticateSpec(old(req.authorization), verify).0
    ensures req.user == if o.Next? then AuthenticateSpec(old(req.authorization), verify).1 else old(req.user)
    ensures req.authorization == old(req.authorization)
  {
    var token := ExtractToken(req.authorization);
    if token.None? {
      return ErrorReply(401, "Access Denied", "No authentication token provided");
    }
    var verdict := verify(token.value);
    match verdict
    case Accepted(claims) =>
      req.user := Some(claims);
      o := Next;
    case Expired =>
      o := ErrorReply(401, "Token Expired", "Authentication token has expired");
    case Rejected =>
      o := ErrorReply(403, "Invalid Token", "Authentication token is invalid");
  }

  /** The request is let through iff its token verifies; each refusal has its status. */
  lemma AuthenticateOutcomes(header: Option<string>, verify: string -> Verdict)
    ensures var (o, user) := AuthenticateSpec(header, verify);
      && (o.Next? <==> ExtractToken(header).Some? && verify(ExtractToken(header).value).Accepted?)
      && (o.Next? ==> user == Some(verify(ExtractToken(header).value).claims))
      && (ExtractToken(header).None? ==> o.Respond? && o.resp.status == 401)
      && (ExtractToken(header).Some? && verify(ExtractToken(header).value).Expired? ==> o.Respond? && o.resp.status == 401)
      && (ExtractToken(header).Some? && verify(ExtractToken(header).value).Rejected? ==> o.Respond? && o.resp.status == 403)
      && !o.Forward?
  {
  }

  /** The user `optionalAuth` leaves on the request. */
  function OptionalUser(header: Option<string>, verify: string -> Verdict, previous: Option<Claims>): Option<Claims> {
    match ExtractToken(header)
    case None => previous
    case Some(token) => if verify(token).Accepted? then Some(verify(token).claims) else previous
  }

  /** `optionalAuth`: always pass the request on; set the user only from a token that
      verifies. */
  method OptionalAuth(req: Request, verify: string -> Verdict) returns (o: Outcome)
    modifies req
    ensures o == Next
    ensures req.user == OptionalUser(old(req.authorization), verify, old(req.user))
    ensures req.authorization == old(req.authorization)
  {
    var token := ExtractToken(req.authorization);
    if token.Some? {
      var verdict := verify(token.value);
      if verdict.Accepted? {
        req.user := Some(verdict.claims);
      }
    }
    o := Next;
  }

  /** On any request `optionalAuth` sets a user exactly when `authenticateToken` would
      let the request through, and the same user. */
  lemma OptionalAgreesWithAuthenticate(header: Option<string>, verify: string -> Verdict)
    ensures AuthenticateSpec(header, verify).0.Next? <==> OptionalUser(header, verify, None).Some?
    ensures AuthenticateSpec(header, verify).0.Next? ==> OptionalUser(header, verify, None) == AuthenticateSpec(header, verify).1
  {
  }

  /** `requireRole(roles)` for the user on the request. */
  function RequireRole(roles: seq<string>, user: Option<Claims>): (o: Outcome)
    ensures o.Next? <==> user.Some? && user.value.role in roles
    ensures user.None? ==> o == ErrorReply(401, "Authentication Required", "You must be logged in to access this resource")
    ensures user.Some? && user.value.role !in roles ==>
      o == ErrorReply(403, "Insufficient Permissions", "You do not have permission to access this resource")
  {
    if user.None? then ErrorReply(401, "Authentication Required", "You must be logged in to access this resource")
    else if user.value.role !in roles then
      ErrorReply(403, "Insufficient Permissions", "You do not have permission to access this resource")
    else Next
  }

  /** `authenticateToken` followed by `requireRole(roles)` on a fresh request. */
  function AuthenticateThenRequire(header: Option<string>, verify: string -> Verdict, roles: seq<string>): Outcome {
    var (o, user) := AuthenticateSpec(header, verify);
    if o.Next? then RequireRole(roles, user) else o
  }

  /** Behind `authenticateToken`, a role-gated route is reached exactly by requests whose
      token verifies to claims with one of the roles; a verified user with another role
      gets 403, never 401. */
  lemma RoleGateBehindAuthentication(header: Option<string>, verify: string -> Verdict, roles: seq<string>)
    ensures var o := AuthenticateThenRequire(header, verify, roles);
      && (o.Next? <==> ExtractToken(header).Some? && verify(ExtractToken(header).value).Accepted?
                       && verify(ExtractToken(header).value).claims.role in roles)
      && ((ExtractToken(header).Some? && verify(ExtractToken(header).value).Accepted?
           && verify(ExtractToken(header).value).claims.role !in roles) ==> o.Respond? && o.resp.status == 403)
  {
    AuthenticateOutcomes(header, verify);
  }
}
