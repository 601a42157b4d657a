/** The `/api/auth` routes: registration, the demo login, access-token refresh and
    token verification. Each handler is a chain of guards that answers 400/401/403 or
    builds a success body; signing and verifying JWTs are oracles. Body fields are the
    strings the routes declare (None: the field is absent), except the register
    password, which is any JSON value. */
module AuthRoutes {
  import opened Json
  import opened Text
  import opened Http
  import opened AuthMiddleware

  /** The payload `generateTokens` signs: exactly id, email and role. */
  datatype Payload = Payload(id: string, email: string, role: string)

  /** `jwt.sign(payload, secret, ...)` with the access secret and with the refresh secret. */
  datatype Signer = Signer(access: Payload -> string, refresh: Payload -> string)

  function Identity(c: Claims): Payload {
    Payload(c.id, c.email, c.role)
  }

  /** The characters of `s` from `lo` up to `hi` are matched by `[^\s@]`. */
  predicate PlainRun(s: string, lo: nat, hi: nat)
    requires lo <= hi <= |s|
  {
    forall k :: lo <= k < hi ==> !IsSpace(s[k]) && s[k] != '@'
  }

  /** The register route's pattern `^[^\s@]+@[^\s@]+\.[^\s@]+$` read as a regular
      expression: three non-empty runs of `[^\s@]` joined by an `@` and then a `.`. */
  ghost predicate MatchesEmailPattern(s: string) {
    exists i, j :: 0 < i && i + 1 < j && j + 1 < |s| && s[i] == '@' && s[j] == '.'
      && PlainRun(s, 0, i) && PlainRun(s, i + 1, j) && PlainRun(s, j + 1, |s|)
  }

  /** A `.` strictly inside `d`. */
  predicate InnerDot(d: string) {
    exists q :: 0 < q < |d| - 1 && d[q] == '.'
  }

  /** The test the pattern performs, stated on the string: no whitespace, one `@` with
      something before it, and a domain holding a `.` that is neither its first nor its
      last character. */
  predicate ValidEmail(s: string) {
    NoSpace(s) &&
    match IndexOf(s, '@')
    case None => false
    case Some(a) => a > 0 && Lacks(s[a + 1..], '@') && InnerDot(s[a + 1..])
  }

  lemma EmailCheckIsSound(s: string)
    requires ValidEmail(s)
    ensures MatchesEmailPattern(s)
  {
    var a := IndexOf(s, '@').value;
    var d := s[a + 1..];
    var q :| 0 < q < |d| - 1 && d[q] == '.';
    var j := a + 1 + q;
    forall k | 0 <= k < a ensures s[k] != '@' {
      assert s[..a][k] == s[k];
    }
    forall k | a + 1 <= k < |s| ensures s[k] != '@' {
      assert d[k - a - 1] == s[k];
    }
    assert s[j] == d[q];
    assert PlainRun(s, 0, a) && PlainRun(s, a + 1, j) && PlainRun(s, j + 1, |s|);
  }

  lemma EmailCheckIsComplete(s: string)
    requires MatchesEmailPattern(s)
    ensures ValidEmail(s)
  {
    var i, j :| 0 < i && i + 1 < j && j + 1 < |s| && s[i] == '@' && s[j] == '.'
      && PlainRun(s, 0, i) && PlainRun(s, i + 1, j) && PlainRun(s, j + 1, |s|);
    assert NoSpace(s) by {
      forall k | 0 <= k < |s| ensures !IsSpace(s[k]) {
        if k == i || k == j {
          assert s[k] == '@' || s[k] == '.';
        }
      }
    }
    assert Lacks(s[..i], '@') by {
      forall k | 0 <= k < i ensures s[..i][k] != '@' {
        assert s[..i][k] == s[k];
      }
    }
    IndexOfFirst(s, '@', i);
    var d := s[i + 1..];
    assert Lacks(d, '@') by {
      forall k | 0 <= k < |d| ensures d[k] != '@' {
        assert d[k] == s[i + 1 + k];
        if i + 1 + k == j {
          assert d[k] == '.';
        }
      }
    }
    assert d[j - i - 1] == '.';
  }

  /** The executable check and the regular expression accept the same strings. */
  lemma EmailCheckMatchesPattern(s: string)
    ensures ValidEmail(s) <==> MatchesEmailPattern(s)
  {
    if ValidEmail(s) {
      EmailCheckIsSound(s);
    }
    if MatchesEmailPattern(s) {
      EmailCheckIsComplete(s);
    }
  }

  /** An accepted address holds its `@` at one position only. */
  lemma ValidEmailHasOneAt(s: string, k: nat, l: nat)
    requires ValidEmail(s) && k < l < |s|
    ensures s[k] != '@' || s[l] != '@'
  {
    var a := IndexOf(s, '@').value;
    if k < a {
      assert s[..a][k] == s[k];
    } else if k == a {
      assert s[a + 1..][l - a - 1] == s[l];
    } else {
      assert s[a + 1..][k - a - 1] == s[k];
    }
  }

  function UserJson(id: string, email: string, name: string): Json {
    Obj(map["id" := Str(id), "email" := Str(email), "name" := Str(name), "role" := Str("user")])
  }

  /** The 200/201 body of a successful register or login. */
  function SessionBody(message: string, user: Json, access: string, refresh: string): map<string, Json> {
    map["success" := Bool(true), "message" := Str(message),
        "data" := Obj(map["user" := user, "accessToken" := Str(access), "refreshToken" := Str(refresh)])]
  }

  /** The register body. The password is any JSON value: the route reads its `length`
      and hands it to bcrypt without checking that it is a string. */
  datatype RegisterBody = RegisterBody(email: Option<string>, password: Option<Json>, name: Option<string>)

  /** `password.length < 8` for a truthy password. A string compares its UTF-16 length
      and an array its element count. A number, a boolean or an object without a
      `length` member has no length, and `undefined < 8` is false. */
  predicate ShortPassword(password: Json) {
    match password
    case Str(s) => Utf16Length(s) < 8
    case Arr(items) => |items| < 8
    case Obj(fields) => "length" in fields && fields["length"].Num? && fields["length"].n < 8.0
    case _ => false
  }

  /** The catch branch: `bcrypt.hash` throws for a password that is not a string. */
  const RegistrationFailed :=
    Reply(500, map["error" := Str("Registration Failed"), "message" := Str("An error occurred during registration")])

  /** POST /register, with the generated user id as a parameter. */
  function Register(body: RegisterBody, userId: string, signer: Signer): (r: Response)
    ensures r.status == 201 <==>
      Given(body.email) && body.password.Some? && body.password.value.Str? && Given(body.name)
      && Utf16Length(body.password.value.s) >= 8 && ValidEmail(body.email.value)
    ensures r.status == 500 <==>
      Given(body.email) && Present(body.password) && !body.password.value.Str? && Given(body.name)
      && !ShortPassword(body.password.value) && ValidEmail(body.email.value)
    ensures r.status == 500 ==> r == RegistrationFailed
    ensures r.status != 201 && r.status != 500 ==> r.status == 400 && BodyField(r, "error") == Some(Str("Validation Error"))
    ensures !(Given(body.email) && Present(body.password) && Given(body.name)) ==>
      BodyField(r, "message") == Some(Str("Email, password, and name are required"))
    ensures r.status == 201 ==>
      var p := Payload(userId, body.email.value, "user");
      r.body == Obj(SessionBody("User registered successfully", UserJson(userId, body.email.value, body.name.value),
                                signer.access(p), signer.refresh(p)))
  {
    if !Given(body.email) || !Present(body.password) || !Given(body.name) then
      Reply(400, map["error" := Str("Validation Error"), "message" := Str("Email, password, and name are required")])
    else if ShortPassword(body.password.value) then
      Reply(400, map["error" := Str("Validation Error"), "message" := Str("Password must be at least 8 characters long")])
    else if !ValidEmail(body.email.value) then
      Reply(400, map["error" := Str("Validation Error"), "message" := Str("Please provide a valid email address")])
    else if !body.password.value.Str? then
      RegistrationFailed
    else
      var p := Payload(userId, body.email.value, "user");
      Reply(201, SessionBody("User registered successfully", UserJson(userId, body.email.value, body.name.value),
                             signer.access(p), signer.refresh(p)))
  }

  /** With all three fields given, a short password is reported as such, and a long
      enough one with an address the pattern refuses is reported as a bad address. */
  lemma RegisterChecksInOrder(body: RegisterBody, userId: string, signer: Signer)
    requires Given(body.email) && Present(body.password) && Given(body.name)
    ensures ShortPassword(body.password.value) ==>
      BodyField(Register(body, userId, signer), "message") == Some(Str("Password must be at least 8 characters long"))
    ensures !ShortPassword(body.password.value) && !MatchesEmailPattern(body.email.value) ==>
      BodyField(Register(body, userId, signer), "message") == Some(Str("Please provide a valid email address"))
  {
    EmailCheckMatchesPattern(body.email.value);
  }

  /** A numeric password has no `length`, so the length guard never refuses it: with a
      valid address it reaches bcrypt, which throws, and the answer is 500 whatever its
      value, while the same digits sent as a short string are refused with 400. */
  lemma NumericPasswordSkipsLengthCheck(email: string, n: real, name: string, userId: string, signer: Signer)
    requires ValidEmail(email) && name != "" && n != 0.0
    ensures Register(RegisterBody(Some(email), Some(Num(n)), Some(name)), userId, signer) == RegistrationFailed
    ensures Register(RegisterBody(Some(email), Some(Str("1234567")), Some(name)), userId, signer).status == 400
  {
    assert email != "";
    assert Utf16Length("1234567") == 7;
  }

  const DemoEmail := "demo@example.com"
  const DemoPassword := "password123"
  const DemoUserId := "user_demo_123"

  datatype LoginBody = LoginBody(email: Option<string>, password: Option<string>)

  /** POST /login: only the demo credentials succeed. */
  function Login(body: LoginBody, signer: Signer): (r: Response)
    ensures r.status == 200 <==> body.email == Some(DemoEmail) && body.password == Some(DemoPassword)
    ensures !(Given(body.email) && Given(body.password)) ==>
      r == Reply(400, map["error" := Str("Validation Error"), "message" := Str("Email and password are required")])
    ensures Given(body.email) && Given(body.password) && r.status != 200 ==>
      r == Reply(401, map["error" := Str("Authentication Failed"), "message" := Str("Invalid email or password")])
    ensures r.status == 200 ==>
      var p := Payload(DemoUserId, DemoEmail, "user");
      r.body == Obj(SessionBody("Login successful", UserJson(DemoUserId, DemoEmail, "Demo User"),
                                signer.access(p), signer.refresh(p)))
  {
    if !Given(body.email) || !Given(body.password) then
      Reply(400, map["error" := Str("Validation Error"), "message" := Str("Email and password are required")])
    else if body.email.value == DemoEmail && body.password.value == DemoPassword then
      var p := Payload(DemoUserId, DemoEmail, "user");
      Reply(200, SessionBody("Login successful", UserJson(DemoUserId, DemoEmail, "Demo User"),
                             signer.access(p), signer.refresh(p)))
    else
      Reply(401, map["error" := Str("Authentication Failed"), "message" := Str("Invalid email or password")])
  }

  /** POST /refresh: a new access token for the identity in a valid refresh token. */
  function Refresh(refreshToken: Option<string>, verifyRefresh: string -> Verdict, signer: Signer): (r: Response)
    ensures r.status == 200 <==> Given(refreshToken) && verifyRefresh(refreshToken.value).Accepted?
    ensures !Given(refreshToken) ==> r.status == 400
    ensures Given(refreshToken) && verifyRefresh(refreshToken.value).Expired? ==>
      r.status == 401 && BodyField(r, "error") == Some(Str("Refresh Token Expired"))
    ensures Given(refreshToken) && verifyRefresh(refreshToken.value).Rejected? ==>
      r.status == 403 && BodyField(r, "error") == Some(Str("Invalid Refresh Token"))
    ensures r.status == 200 ==>
      BodyField(r, "data") == Some(Obj(map["accessToken" :=
        Str(signer.access(Identity(verifyRefresh(refreshToken.value).claims)))]))
  {
    if !Given(refreshToken) then
      Reply(400, map["error" := Str("Validation Error"), "message" := Str("Refresh token is required")])
    else match verifyRefresh(refreshToken.value)
      case Accepted(decoded) =>
        Reply(200, map["success" := Bool(true), "message" := Str("Token refreshed successfully"),
                       "data" := Obj(map["accessToken" := Str(signer.access(Identity(decoded)))])])
      case Expired =>
        Reply(401, map["error" := Str("Refresh Token Expired"), "message" := Str("Please log in again")])
      case Rejected =>
        Reply(403, map["error" := Str("Invalid Refresh Token"), "message" := Str("Please log in again")])
  }

  /** The signing and verifying oracles agree for `p`: the access token signed for `p`
      is a single word and verifies back to claims naming `p`. */
  predicate Coherent(signer: Signer, verifyAccess: string -> Verdict, p: Payload) {
    && signer.access(p) != "" && Lacks(signer.access(p), ' ')
    && verifyAccess(signer.access(p)).Accepted?
    && Identity(verifyAccess(signer.access(p)).claims) == p
  }

  /** An access token obtained from /refresh, sent back as `Bearer <token>`, passes
      `authenticateToken` as the same user the refresh token named. */
  lemma RefreshedTokenAuthenticates(refreshToken: string, verifyRefresh: string -> Verdict,
                                    verifyAccess: string -> Verdict, signer: Signer)
    requires refreshToken != "" && verifyRefresh(refreshToken).Accepted?
    requires Coherent(signer, verifyAccess, Identity(verifyRefresh(refreshToken).claims))
    ensures var r := Refresh(Some(refreshToken), verifyRefresh, signer);
      && BodyField(r, "data").Some? && BodyField(r, "data").value.Obj?
      && "accessToken" in BodyField(r, "data").value.fields
      && BodyField(r, "data").value.fields["accessToken"].Str?
      && var token := BodyField(r, "data").value.fields["accessToken"].s;
         var (o, user) := AuthenticateSpec(Some("Bearer " + token), verifyAccess);
         o == Next && user.Some? && Identity(user.value) == Identity(verifyRefresh(refreshToken).claims)
  {
    var token := signer.access(Identity(verifyRefresh(refreshToken).claims));
    BearerRoundTrip(token);
  }

  /** The `data.user` of a successful /verify. */
  function VerifiedUser(c: Claims): Json {
    Obj(map["id" := Str(c.id), "email" := Str(c.email), "role" := Str(c.role)])
  }

  /** GET /verify: report the identity in the bearer token. */
  function Verify(header: Option<string>, verifyAccess: string -> Verdict): (r: Response)
    ensures r.status == 200 <==> ExtractToken(header).Some? && verifyAccess(ExtractToken(header).value).Accepted?
    ensures r.status == 200 ==>
      BodyField(r, "data") == Some(Obj(map["user" := VerifiedUser(verifyAccess(ExtractToken(header).value).claims)]))
    ensures ExtractToken(header).None? ==> r.status == 401 && BodyField(r, "error") == Some(Str("No Token"))
  {
    match ExtractToken(header)
    case None => Reply(401, map["error" := Str("No Token"), "message" := Str("No authentication token provided")])
    case Some(token) =>
      match verifyAccess(token)
      case Accepted(c) =>
        Reply(200, map["success" := Bool(true), "message" := Str("Token is valid"),
                       "data" := Obj(map["user" := VerifiedUser(c)])])
      case Expired => Reply(401, map["error" := Str("Token Expired"), "message" := Str("Authentication token has expired")])
      case Rejected => Reply(403, map["error" := Str("Invalid Token"), "message" := Str("Authentication token is invalid")])
  }

  /** /verify accepts exactly the requests `authenticateToken` lets through, and refuses
      the others with the same status; only the missing-token title differs. */
  lemma VerifyAgreesWithMiddleware(header: Option<string>, verifyAccess: string -> Verdict)
    ensures var (o, _) := AuthenticateSpec(header, verifyAccess);
      var r := Verify(header, verifyAccess);
      && (r.status == 200 <==> o.Next?)
      && (o.Respond? ==> o.resp.status == r.status)
      && (o.Respond? && ExtractToken(header).Some? ==> o.resp == r)
  {
  }
}
