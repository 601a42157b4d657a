/** The browser client against the backend's own routes: what the client does with
    the answers the authentication middleware, the refresh route and the generation
    routes give. */
module EndToEnd {
  import opened Json
  import opened Text
  import opened Browser
  import opened BackendService
  import Http
  import opened AuthMiddleware
  import opened AuthRoutes
  import AiRoutes
  import DemoAuthHelper

  /** The reply the client reads for an Express answer. */
  function ReplyOf(r: Http.Response): Reply {
    Reply(r.status, r.body)
  }

  /** The server answers `req` as an Express outcome that is an answer. */
  predicate AnswersWith(platform: Platform, req: Browser.Request, o: Http.Outcome) {
    o.Respond? && platform.server(req) == Success(ReplyOf(o.resp))
  }

  /** An expired access token with a stored refresh token that the refresh route
      accepts: the client refreshes, stores the newly signed access token, and its one
      retry passes `authenticateToken`. */
  lemma ExpiredAccessTokenRecovers(p: Page, platform: Platform, endpoint: string, verb: string, body: Option<Json>,
                                   verifyAccess: string -> Verdict, verifyRefresh: string -> Verdict, signer: Signer)
    requires LoggedIn(p.storage) && Lacks(p.storage[AccessTokenKey], ' ')
    requires verifyAccess(p.storage[AccessTokenKey]).Expired?
    requires Given(Lookup(p.storage, RefreshTokenKey)) && verifyRefresh(p.storage[RefreshTokenKey]).Accepted?
    requires Coherent(signer, verifyAccess, Identity(verifyRefresh(p.storage[RefreshTokenKey]).claims))
    requires var req := FirstRequest(p, endpoint, verb, body);
      AnswersWith(platform, req, AuthenticateSpec(req.authorization, verifyAccess).0)
    requires var rt := p.storage[RefreshTokenKey];
      platform.server(RefreshRequest(rt)) == Success(ReplyOf(Refresh(Some(rt), verifyRefresh, signer)))
    ensures var ex := RequestSpec(p, platform, endpoint, verb, body);
      var issued := signer.access(Identity(verifyRefresh(p.storage[RefreshTokenKey]).claims));
      && |ex.page.sent| == |p.sent| + 3
      && Lookup(ex.page.storage, AccessTokenKey) == Some(issued)
      && ex.page.sent[|p.sent| + 2].authorization == Some("Bearer " + issued)
      && AuthenticateSpec(ex.page.sent[|p.sent| + 2].authorization, verifyAccess).0 == Http.Next
  {
    var t := p.storage[AccessTokenKey];
    var rt := p.storage[RefreshTokenKey];
    var issued := signer.access(Identity(verifyRefresh(rt).claims));
    var req := FirstRequest(p, endpoint, verb, body);
    BearerRoundTrip(t);
    assert TokenExpired(platform.server(req).value);
    var p1 := p.(sent := p.sent + [req]);
    RefreshIssues(p1, platform, rt, verifyRefresh, signer);
    BearerRoundTrip(issued);
  }

  /** A refresh answered by the refresh route for an accepted refresh token stores the
      access token the route signs. */
  lemma RefreshIssues(p: Page, platform: Platform, rt: string, verifyRefresh: string -> Verdict, signer: Signer)
    requires Lookup(p.storage, RefreshTokenKey) == Some(rt) && rt != "" && verifyRefresh(rt).Accepted?
    requires platform.server(RefreshRequest(rt)) == Success(ReplyOf(Refresh(Some(rt), verifyRefresh, signer)))
    ensures var issued := signer.access(Identity(verifyRefresh(rt).claims));
      && RefreshSpec(p, platform).0
      && RefreshSpec(p, platform).1 ==
           Page(p.storage[AccessTokenKey := issued], p.location, p.sent + [RefreshRequest(rt)])
  {
    var r := Refresh(Some(rt), verifyRefresh, signer);
    assert Member(Some(r.body), "data") == Http.BodyField(r, "data");
  }

  /** The text route behind the client: the client's options reach the model with the
      client's defaults (so the route's own defaults never apply), and a generated text
      comes back to the caller, except an empty one, which the client throws away as a
      failed generation. */
  lemma TextGenerationEndToEnd(prompt: string, maxTokens: Option<Json>, temperature: Option<Json>, model: AiRoutes.Model)
    requires prompt != ""
    ensures var sent := TextRequestBody(prompt, maxTokens, temperature);
      var received := AiRoutes.TextBody(Some(prompt), Member(Some(sent), "maxTokens"), Member(Some(sent), "temperature"));
      && AiRoutes.TextRequest(received) == AiRoutes.TextCall(prompt, OrElse(maxTokens, Num(1000.0)), OrElse(temperature, Num(0.7)))
      && (model(AiRoutes.TextRequest(received)).Success? ==>
            var text := model(AiRoutes.TextRequest(received)).value;
            var o := AiRoutes.GenerateText(received, model);
            && o.Respond?
            && TextResult(o.resp.body) == if text != "" then Success(Str(text)) else Failure(Str("Text generation failed")))
  {
  }

  /** The video route has no video yet: the client's `generateVideo` answers the
      route's placeholder message in place of a video URL. */
  lemma VideoAnswersPlaceholder(prompt: string, duration: Option<Json>, quality: Option<Json>)
    requires prompt != ""
    ensures var sent := VideoRequestBody(prompt, duration, quality);
      var o := AiRoutes.GenerateVideo(AiRoutes.VideoBody(Some(Str(prompt)), Member(Some(sent), "duration"), Member(Some(sent), "quality")));
      && o.Respond?
      && MediaResult(o.resp.body, "videoUrl", "Video generation failed") == Success(Str("Video generation will be available soon"))
  {
  }

  /** A request a route rejects with 400 reaches the caller of a generation call as
      an error carrying the route's error title. */
  lemma RejectionSurfacesTitle(message: string)
    ensures var o := AiRoutes.BadRequest(message);
      && o.Respond? && o.resp.status == 400
      && TextResult(o.resp.body) == Failure(Str("Bad Request"))
      && MediaResult(o.resp.body, "imageUrl", "Image generation failed") == Failure(Str("Bad Request"))
      && ChatResult(o.resp.body) == Failure(Str("Bad Request"))
  {
  }

  /** Against the backend's login route the demo credentials are accepted: the demo
      auto-login stores the signed tokens, reports a login and switches auto-login on,
      and here the helper as written and the corrected one agree. */
  lemma DemoLoginAgainstBackend(p: Page, platform: Platform, signer: Signer)
    requires !LoggedIn(p.storage) && DemoAuthHelper.AutoLoginEnabled(p.storage)
    requires var body := LoginCredentials(DemoAuthHelper.DemoEmail, DemoAuthHelper.DemoPassword);
      platform.server(FirstRequest(p, "/auth/login", "POST", Some(body)))
        == Success(ReplyOf(AuthRoutes.Login(LoginBody(Some(DemoEmail), Some(DemoPassword)), signer)))
    requires signer.access(Payload(DemoUserId, DemoEmail, "user")) != ""
    ensures var (r, q) := DemoAuthHelper.EnsureSpec(p, platform);
      && r && LoggedIn(q.storage) && DemoAuthHelper.AutoLoginEnabled(q.storage)
      && Lookup(q.storage, AccessTokenKey) == Some(signer.access(Payload(DemoUserId, DemoEmail, "user")))
    ensures DemoAuthHelper.EnsureCheckedSpec(p, platform) == DemoAuthHelper.EnsureSpec(p, platform)
  {
    var creds := LoginCredentials(DemoAuthHelper.DemoEmail, DemoAuthHelper.DemoPassword);
    var token := signer.access(Payload(DemoUserId, DemoEmail, "user"));
    var resp := AuthRoutes.Login(LoginBody(Some(DemoEmail), Some(DemoPassword)), signer);
    assert resp.status == 200;
    var data := Member(Some(resp.body), "data");
    assert data.Some? && TextField(data.value, "accessToken") == Some(token);
    assert RequestSpec(p, platform, "/auth/login", "POST", Some(creds)).result == Success(resp.body);
    SuccessfulSessionLogsIn(p, platform, "/auth/login", creds);
    var ex := DemoAuthHelper.DemoLogin(p, platform);
    assert ex.result.Success?;
    var q := DemoAuthHelper.Flagged(ex.page, "true");
    assert Lookup(q.storage, AccessTokenKey) == Lookup(ex.page.storage, AccessTokenKey);
  }
}
