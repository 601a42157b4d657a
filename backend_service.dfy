/** The browser client's service layer: the token store in `localStorage`, the
    request helper that adds the bearer token and recovers once from an expired
    access token, and the session and generation calls built on it. */
module BackendService {
  import opened Json
  import opened Text
  import opened Browser

  const AccessTokenKey := "access_token"
  const RefreshTokenKey := "refresh_token"
  const UserKey := "user_data"

  // ---- TokenManager ----

  /** The stored items after `setTokens(access, refresh, user)`: the access token is
      always written, as its `String(...)` text, so an undefined one is stored as
      `undefined`; the refresh token and the user only when they are truthy, the user
      as its JSON text. */
  function WithTokens(s: Storage, access: Option<Json>, refresh: Option<Json>, user: Option<Json>,
                      platform: Platform): (r: Storage)
    ensures Lookup(r, AccessTokenKey) == Some(StoredText(access, platform.numberText))
    ensures Lookup(r, RefreshTokenKey) ==
      if Present(refresh) then Some(StoredText(refresh, platform.numberText)) else Lookup(s, RefreshTokenKey)
    ensures Lookup(r, UserKey) == if Present(user) then Some(platform.stringify(user.value)) else Lookup(s, UserKey)
    ensures r.Keys == s.Keys + {AccessTokenKey} + (if Present(refresh) then {RefreshTokenKey} else {})
                      + (if Present(user) then {UserKey} else {})
  {
    var s1 := s[AccessTokenKey := StoredText(access, platform.numberText)];
    var s2 := if Present(refresh) then s1[RefreshTokenKey := StoredText(refresh, platform.numberText)] else s1;
    if Present(user) then s2[UserKey := platform.stringify(user.value)] else s2
  }

  /** `setTokens` leaves every key it does not write alone. */
  lemma WithTokensFrame(s: Storage, access: Option<Json>, refresh: Option<Json>, user: Option<Json>,
                        platform: Platform, key: string)
    requires key != AccessTokenKey
    requires Present(refresh) ==> key != RefreshTokenKey
    requires Present(user) ==> key != UserKey
    ensures Lookup(WithTokens(s, access, refresh, user, platform), key) == Lookup(s, key)
  {
  }

  method SetTokens(w: Window, access: Option<Json>, refresh: Option<Json>, user: Option<Json>)
    modifies w
    ensures w.State() == old(w.State()).(storage := WithTokens(old(w.storage), access, refresh, user, w.platform))
  {
    w.SetItem(AccessTokenKey, StoredText(access, w.platform.numberText));
    if Present(refresh) {
      w.SetItem(RefreshTokenKey, StoredText(refresh, w.platform.numberText));
    }
    if Present(user) {
      w.SetItem(UserKey, w.platform.stringify(user.value));
    }
  }

  /** The stored items after `clearTokens()`: exactly the three token keys are gone. */
  function Cleared(s: Storage): (r: Storage)
    ensures r.Keys == s.Keys - {AccessTokenKey, RefreshTokenKey, UserKey}
    ensures forall k :: k in r ==> r[k] == s[k]
  {
    s - {AccessTokenKey, RefreshTokenKey, UserKey}
  }

  method ClearTokens(w: Window)
    modifies w
    ensures w.State() == old(w.State()).(storage := Cleared(old(w.storage)))
  {
    w.RemoveItem(AccessTokenKey);
    w.RemoveItem(RefreshTokenKey);
    w.RemoveItem(UserKey);
  }

  /** `isLoggedIn()`: an access token is stored and it is not empty. */
  predicate LoggedIn(s: Storage)
    ensures LoggedIn(s) <==> AccessTokenKey in s && s[AccessTokenKey] != ""
  {
    Given(Lookup(s, AccessTokenKey))
  }

  /** Storing tokens logs in exactly when the stored access text is not empty: for a
      string token, when it is not empty, and for an undefined one always (its text is
      `undefined`); clearing them always logs out. */
  lemma LoginStateOfTokens(s: Storage, access: Option<Json>, refresh: Option<Json>, user: Option<Json>,
                           platform: Platform)
    ensures LoggedIn(WithTokens(s, access, refresh, user, platform)) <==> StoredText(access, platform.numberText) != ""
    ensures access.Some? && access.value.Str? ==>
      (LoggedIn(WithTokens(s, access, refresh, user, platform)) <==> access.value.s != "")
    ensures access.None? ==> LoggedIn(WithTokens(s, access, refresh, user, platform))
    ensures !LoggedIn(Cleared(s))
  {
  }

  /** `getUser()`: the stored user parsed back, or null when none is stored; a text that
      does not parse throws. */
  function CurrentUser(s: Storage, parse: string -> Result<Json, string>): (r: Result<Json, Json>)
    ensures !Given(Lookup(s, UserKey)) ==> r == Success(Null)
    ensures Given(Lookup(s, UserKey)) ==>
      (r.Success? <==> parse(s[UserKey]).Success?) && (r.Success? ==> r.value == parse(s[UserKey]).value)
  {
    var text := Lookup(s, UserKey);
    if !Given(text) then Success(Null)
    else match parse(text.value)
      case Success(user) => Success(user)
      case Failure(e) => Failure(Str(e))
  }

  /** The user stored by `setTokens` is the user `getUser` returns, when parsing undoes
      stringifying; after `clearTokens` there is none. */
  lemma CurrentUserRoundTrip(s: Storage, access: Option<Json>, refresh: Option<Json>, user: Json, platform: Platform)
    requires Truthy(user) && platform.stringify(user) != ""
    requires platform.parse(platform.stringify(user)) == Success(user)
    ensures CurrentUser(WithTokens(s, access, refresh, Some(user), platform), platform.parse) == Success(user)
    ensures CurrentUser(Cleared(s), platform.parse) == Success(Null)
  {
  }

  // ---- ApiClient ----

  /** The `Authorization` header `makeRequest` adds: only for a truthy stored token. */
  function BearerHeader(token: Option<string>): Option<string> {
    if Given(token) then Some("Bearer " + token.value) else None
  }

  /** `${token}` for a stored item that may be null. */
  function TemplateText(v: Option<string>): string {
    if v.Some? then v.value else "null"
  }

  /** What reading a property of a `null` JSON body throws. */
  const TypeErrorOnNull := Str("TypeError: Cannot read properties of null")

  /** The request `refreshToken()` sends. */
  function RefreshRequest(token: string): Request {
    Request("/auth/refresh", "POST", None, Some(Obj(map["refreshToken" := Str(token)])))
  }

  /** What `refreshToken()` reads from a reply: nothing for a reply that is not `ok`
      or when reading `data.data.accessToken` throws (`data` or `data.data` is null or
      undefined); otherwise that property, which may itself be undefined. */
  function IssuedToken(reply: Reply): Option<Option<Json>> {
    var inner := Member(Some(reply.body), "data");
    if !Ok(reply.status) || Nullish(inner) then None
    else Some(Member(inner, "accessToken"))
  }

  /** `refreshToken()`: whether a new access token was stored, and the page after. */
  function RefreshSpec(p: Page, platform: Platform): (bool, Page) {
    var token := Lookup(p.storage, RefreshTokenKey);
    if !Given(token) then (false, p)
    else
      var req := RefreshRequest(token.value);
      var p1 := p.(sent := p.sent + [req]);
      match platform.server(req)
      case Failure(_) => (false, p1)
      case Success(reply) =>
        match IssuedToken(reply)
        case None => (false, p1)
        case Some(t) => (true, p1.(storage := WithTokens(p1.storage, t, None, None, platform)))
  }

  method RefreshToken(w: Window) returns (refreshed: bool)
    modifies w
    ensures (refreshed, w.State()) == RefreshSpec(old(w.State()), w.platform)
  {
    var token := w.GetItem(RefreshTokenKey);
    if !Given(token) {
      return false;
    }
    var reply := w.Fetch(RefreshRequest(token.value));
    if reply.Failure? {
      return false;
    }
    var issued := IssuedToken(reply.value);
    if issued.None? {
      return false;
    }
    SetTokens(w, issued.value, None, None);
    return true;
  }

  /** Without a stored refresh token nothing is sent and nothing changes; a refresh
      that stores a token replaces the access token and nothing else; one that does
      not leaves the storage alone. */
  lemma RefreshEffects(p: Page, platform: Platform, key: string)
    ensures !Given(Lookup(p.storage, RefreshTokenKey)) ==> RefreshSpec(p, platform) == (false, p)
    ensures var (refreshed, p1) := RefreshSpec(p, platform);
      && p1.location == p.location
      && (refreshed ==> Lookup(p1.storage, AccessTokenKey).Some?)
      && (!refreshed ==> p1.storage == p.storage)
      && (key != AccessTokenKey ==> Lookup(p1.storage, key) == Lookup(p.storage, key))
  {
    var token := Lookup(p.storage, RefreshTokenKey);
    if Given(token) {
      var req := RefreshRequest(token.value);
      var p1 := p.(sent := p.sent + [req]);
      match platform.server(req)
      case Failure(_) =>
      case Success(reply) =>
        match IssuedToken(reply)
        case None =>
        case Some(t) =>
          if key != AccessTokenKey {
            WithTokensFrame(p1.storage, t, None, None, platform, key);
          }
    }
  }

  /** The first request `makeRequest` sends. */
  function FirstRequest(p: Page, endpoint: string, verb: string, body: Option<Json>): Request {
    Request(endpoint, verb, BearerHeader(Lookup(p.storage, AccessTokenKey)), body)
  }

  /** A reply that makes `makeRequest` refresh: 401 with `error` exactly `Token Expired`. */
  predicate TokenExpired(reply: Reply) {
    reply.status == 401 && !reply.body.Null? && Member(Some(reply.body), "error") == Some(Str("Token Expired"))
  }

  /** What a client call yields (the reply body, or what it throws) and the page after. */
  datatype Exchange = Exchange(result: Result<Json, Json>, page: Page)

  /** `makeRequest(endpoint, { method: verb, body })`. */
  function RequestSpec(p: Page, platform: Platform, endpoint: string, verb: string, body: Option<Json>): Exchange {
    var req := FirstRequest(p, endpoint, verb, body);
    var p1 := p.(sent := p.sent + [req]);
    match platform.server(req)
    case Failure(e) => Exchange(Failure(Str(e)), p1)
    case Success(reply) =>
      if reply.status == 401 && reply.body.Null? then Exchange(Failure(TypeErrorOnNull), p1)
      else if !TokenExpired(reply) then Exchange(Success(reply.body), p1)
      else
        var (refreshed, p2) := RefreshSpec(p1, platform);
        if refreshed then
          var retry := req.(authorization := Some("Bearer " + TemplateText(Lookup(p2.storage, AccessTokenKey))));
          var p3 := p2.(sent := p2.sent + [retry]);
          match platform.server(retry)
          case Failure(e) => Exchange(Failure(Str(e)), p3)
          case Success(again) => Exchange(Success(again.body), p3)
        else
          Exchange(Failure(Str("Session expired")), p2.(storage := Cleared(p2.storage), location := "/login"))
  }

  method MakeRequest(w: Window, endpoint: string, verb: string, body: Option<Json>) returns (r: Result<Json, Json>)
    modifies w
    ensures Exchange(r, w.State()) == RequestSpec(old(w.State()), w.platform, endpoint, verb, body)
  {
    var authorization := BearerHeader(w.GetItem(AccessTokenKey));
    var first := w.Fetch(Request(endpoint, verb, authorization, body));
    if first.Failure? {
      return Failure(Str(first.error));
    }
    var reply := first.value;
    if reply.status == 401 && reply.body.Null? {
      return Failure(TypeErrorOnNull);
    }
    if !TokenExpired(reply) {
      return Success(reply.body);
    }
    var refreshed := RefreshToken(w);
    if refreshed {
      authorization := Some("Bearer " + TemplateText(w.GetItem(AccessTokenKey)));
      var second := w.Fetch(Request(endpoint, verb, authorization, body));
      if second.Failure? {
        return Failure(Str(second.error));
      }
      return Success(second.value.body);
    }
    ClearTokens(w);
    w.Navigate("/login");
    return Failure(Str("Session expired"));
  }

  /** The first request carries `Bearer <token>` exactly when a truthy access token is
      stored; earlier requests stay in the log. */
  lemma RequestCarriesBearer(p: Page, platform: Platform, endpoint: string, verb: string, body: Option<Json>)
    ensures var ex := RequestSpec(p, platform, endpoint, verb, body);
      && |ex.page.sent| > |p.sent| && ex.page.sent[..|p.sent|] == p.sent
      && ex.page.sent[|p.sent|] == FirstRequest(p, endpoint, verb, body)
    ensures FirstRequest(p, endpoint, verb, body).authorization.Some? <==> LoggedIn(p.storage)
    ensures LoggedIn(p.storage) ==>
      FirstRequest(p, endpoint, verb, body).authorization == Some("Bearer " + p.storage[AccessTokenKey])
  {
    var req := FirstRequest(p, endpoint, verb, body);
    var p1 := p.(sent := p.sent + [req]);
    assert p1.sent[..|p.sent|] == p.sent;
    match platform.server(req)
    case Failure(_) =>
    case Success(reply) =>
      if TokenExpired(reply) {
        var (refreshed, p2) := RefreshSpec(p1, platform);
        assert p2.sent[..|p1.sent|] == p1.sent;
        if refreshed {
          var retry := req.(authorization := Some("Bearer " + TemplateText(Lookup(p2.storage, AccessTokenKey))));
          assert (p2.sent + [retry])[..|p.sent|] == p.sent;
        } else {
          assert p2.sent[..|p.sent|] == p.sent;
        }
      }
  }

  /** Only a 401 `Token Expired` reply leads to a refresh: any other reply is the result,
      after exactly one request and with the storage untouched. */
  lemma RefreshOnlyOnExpiry(p: Page, platform: Platform, endpoint: string, verb: string, body: Option<Json>)
    requires var first := platform.server(FirstRequest(p, endpoint, verb, body));
      first.Success? && !TokenExpired(first.value) && !(first.value.status == 401 && first.value.body.Null?)
    ensures RequestSpec(p, platform, endpoint, verb, body) ==
      Exchange(Success(platform.server(FirstRequest(p, endpoint, verb, body)).value.body),
               p.(sent := p.sent + [FirstRequest(p, endpoint, verb, body)]))
  {
  }

  /** The request is retried at most once, and only after a refresh that stored a new
      access token; the retry differs from the first request only in carrying that token. */
  lemma AtMostOneRetry(p: Page, platform: Platform, endpoint: string, verb: string, body: Option<Json>)
    ensures var ex := RequestSpec(p, platform, endpoint, verb, body);
      && |p.sent| + 1 <= |ex.page.sent| <= |p.sent| + 3
      && (|ex.page.sent| == |p.sent| + 3 ==>
            && ex.page.sent[|p.sent| + 1] == RefreshRequest(Lookup(p.storage, RefreshTokenKey).value)
            && Lookup(ex.page.storage, AccessTokenKey).Some?
            && ex.page.sent[|p.sent| + 2] == FirstRequest(p, endpoint, verb, body).(authorization :=
                 Some("Bearer " + Lookup(ex.page.storage, AccessTokenKey).value)))
  {
    var req := FirstRequest(p, endpoint, verb, body);
    var p1 := p.(sent := p.sent + [req]);
    match platform.server(req)
    case Failure(_) =>
    case Success(reply) =>
      if !(reply.status == 401 && reply.body.Null?) && TokenExpired(reply) {
        RefreshEffects(p1, platform, AccessTokenKey);
        var (refreshed, p2) := RefreshSpec(p1, platform);
        if !Given(Lookup(p1.storage, RefreshTokenKey)) {
          assert p2 == p1;
        }
      }
  }

  /** A refresh that fails ends the session: the tokens are cleared, the page goes to
      the login screen and `Session expired` is thrown. */
  lemma FailedRefreshEndsSession(p: Page, platform: Platform, endpoint: string, verb: string, body: Option<Json>)
    requires var first := platform.server(FirstRequest(p, endpoint, verb, body));
      first.Success? && TokenExpired(first.value)
    requires !RefreshSpec(p.(sent := p.sent + [FirstRequest(p, endpoint, verb, body)]), platform).0
    ensures var ex := RequestSpec(p, platform, endpoint, verb, body);
      && ex.result == Failure(Str("Session expired"))
      && ex.page.location == "/login"
      && !LoggedIn(ex.page.storage) && Lookup(ex.page.storage, RefreshTokenKey).None?
      && Lookup(ex.page.storage, UserKey).None?
  {
  }

  /** An `ok` refresh reply whose `data` object has no `accessToken` still counts as a
      refresh: the text `undefined` is stored and the request is retried with
      `Bearer undefined`, and the session is not ended. */
  lemma RefreshWithoutTokenRetriesUndefined(p: Page, platform: Platform, endpoint: string, verb: string,
                                            body: Option<Json>, reply: Reply)
    requires var first := platform.server(FirstRequest(p, endpoint, verb, body));
      first.Success? && TokenExpired(first.value)
    requires Given(Lookup(p.storage, RefreshTokenKey))
    requires platform.server(RefreshRequest(p.storage[RefreshTokenKey])) == Success(reply)
    requires Ok(reply.status) && reply.body.Obj? && "data" in reply.body.fields
    requires reply.body.fields["data"].Obj? && "accessToken" !in reply.body.fields["data"].fields
    ensures var ex := RequestSpec(p, platform, endpoint, verb, body);
      && |ex.page.sent| == |p.sent| + 3
      && ex.page.sent[|p.sent| + 2].authorization == Some("Bearer undefined")
      && Lookup(ex.page.storage, AccessTokenKey) == Some("undefined")
      && ex.page.location == p.location
      && Lookup(ex.page.storage, RefreshTokenKey) == Lookup(p.storage, RefreshTokenKey)
  {
    var req := FirstRequest(p, endpoint, verb, body);
    var p1 := p.(sent := p.sent + [req]);
    assert IssuedToken(reply) == Some(None);
    var (refreshed, p2) := RefreshSpec(p1, platform);
    assert refreshed && Lookup(p2.storage, AccessTokenKey) == Some("undefined");
    assert TemplateText(Lookup(p2.storage, AccessTokenKey)) == "undefined";
    assert "Bearer " + "undefined" == "Bearer undefined";
    assert |p2.sent| == |p.sent| + 2;
  }

  // ---- BackendService: sessions ----

  /** `v.key` on a JSON value: reading a property of `null` throws. */
  function Prop(v: Json, key: string): Result<Option<Json>, Json> {
    if v.Null? then Failure(TypeErrorOnNull) else Success(Member(Some(v), key))
  }

  /** The string held at `key` of `v`, if any. */
  function TextField(v: Json, key: string): Option<string> {
    match Member(Some(v), key)
    case Some(Str(t)) => Some(t)
    case _ => None
  }

  /** The storage after a register or login reply: tokens and user are stored only for
      a reply with truthy `success` and `data`, whatever `data` holds. */
  function SessionStorage(s: Storage, resp: Json, platform: Platform): Storage
    requires !resp.Null?
  {
    var data := Member(Some(resp), "data");
    if Present(Member(Some(resp), "success")) && Present(data) then
      WithTokens(s, Member(data, "accessToken"), Member(data, "refreshToken"), Member(data, "user"), platform)
    else s
  }

  /** `register` or `login`: post the credentials; on a reply with truthy `success` and
      `data`, store its tokens and user; answer `response.data`. */
  function SessionSpec(p: Page, platform: Platform, endpoint: string, credentials: Json): Exchange {
    var ex := RequestSpec(p, platform, endpoint, "POST", Some(credentials));
    match ex.result
    case Failure(_) => ex
    case Success(resp) =>
      if resp.Null? then ex.(result := Failure(TypeErrorOnNull))
      else Exchange(Success(Member(Some(resp), "data").GetOr(Null)),
                    ex.page.(storage := SessionStorage(ex.page.storage, resp, platform)))
  }

  function RegisterCredentials(email: string, password: string, name: string): Json {
    Obj(map["email" := Str(email), "password" := Str(password), "name" := Str(name)])
  }

  function LoginCredentials(email: string, password: string): Json {
    Obj(map["email" := Str(email), "password" := Str(password)])
  }

  method Session(w: Window, endpoint: string, credentials: Json) returns (r: Result<Json, Json>)
    modifies w
    ensures Exchange(r, w.State()) == SessionSpec(old(w.State()), w.platform, endpoint, credentials)
  {
    var response := MakeRequest(w, endpoint, "POST", Some(credentials));
    if response.Failure? {
      return response;
    }
    var resp := response.value;
    if resp.Null? {
      return Failure(TypeErrorOnNull);
    }
    var data := Member(Some(resp), "data");
    if Present(Member(Some(resp), "success")) && Present(data) {
      SetTokens(w, Member(data, "accessToken"), Member(data, "refreshToken"), Member(data, "user"));
    }
    return Success(data.GetOr(Null));
  }

  method Register(w: Window, email: string, password: string, name: string) returns (r: Result<Json, Json>)
    modifies w
    ensures Exchange(r, w.State()) ==
      SessionSpec(old(w.State()), w.platform, "/auth/register", RegisterCredentials(email, password, name))
  {
    r := Session(w, "/auth/register", RegisterCredentials(email, password, name));
  }

  method Login(w: Window, email: string, password: string) returns (r: Result<Json, Json>)
    modifies w
    ensures Exchange(r, w.State()) == SessionSpec(old(w.State()), w.platform, "/auth/login", LoginCredentials(email, password))
  {
    r := Session(w, "/auth/login", LoginCredentials(email, password));
  }

  /** A register or login reply without truthy `success` and `data` stores nothing
      beyond what the request itself did, and does not throw. */
  lemma SessionStoresOnlyOnSuccess(p: Page, platform: Platform, endpoint: string, credentials: Json)
    requires var ex := RequestSpec(p, platform, endpoint, "POST", Some(credentials));
      ex.result.Success? && !ex.result.value.Null?
      && !(Present(Member(Some(ex.result.value), "success")) && Present(Member(Some(ex.result.value), "data")))
    ensures var ex := RequestSpec(p, platform, endpoint, "POST", Some(credentials));
      SessionSpec(p, platform, endpoint, credentials) ==
        Exchange(Success(Member(Some(ex.result.value), "data").GetOr(Null)), ex.page)
  {
  }

  /** A successful reply carrying a non-empty access token logs the client in, with the
      reply's refresh token when it has one. */
  lemma SuccessfulSessionLogsIn(p: Page, platform: Platform, endpoint: string, credentials: Json)
    requires var ex := RequestSpec(p, platform, endpoint, "POST", Some(credentials));
      && ex.result.Success? && !ex.result.value.Null?
      && Present(Member(Some(ex.result.value), "success")) && Present(Member(Some(ex.result.value), "data"))
      && Given(TextField(Member(Some(ex.result.value), "data").value, "accessToken"))
    ensures var ex := RequestSpec(p, platform, endpoint, "POST", Some(credentials));
      var data := Member(Some(ex.result.value), "data").value;
      && LoggedIn(SessionSpec(p, platform, endpoint, credentials).page.storage)
      && Lookup(SessionSpec(p, platform, endpoint, credentials).page.storage, AccessTokenKey) == TextField(data, "accessToken")
      && (Given(TextField(data, "refreshToken")) ==>
            Lookup(SessionSpec(p, platform, endpoint, credentials).page.storage, RefreshTokenKey) == TextField(data, "refreshToken"))
  {
  }

  /** A successful reply stores what `data` holds whatever its type: without an
      `accessToken` the text `undefined` is stored, which counts as logged in, and the
      refresh token and the user are stored when truthy regardless. */
  lemma SessionStoresWhateverDataHolds(p: Page, platform: Platform, endpoint: string, credentials: Json)
    requires var ex := RequestSpec(p, platform, endpoint, "POST", Some(credentials));
      && ex.result.Success? && !ex.result.value.Null?
      && Present(Member(Some(ex.result.value), "success")) && Present(Member(Some(ex.result.value), "data"))
    ensures var ex := RequestSpec(p, platform, endpoint, "POST", Some(credentials));
      var data := Member(Some(ex.result.value), "data");
      var q := SessionSpec(p, platform, endpoint, credentials).page;
      && Lookup(q.storage, AccessTokenKey) == Some(StoredText(Member(data, "accessToken"), platform.numberText))
      && (Member(data, "accessToken").None? ==> Lookup(q.storage, AccessTokenKey) == Some("undefined") && LoggedIn(q.storage))
      && (Present(Member(data, "refreshToken")) ==>
            Lookup(q.storage, RefreshTokenKey) == Some(StoredText(Member(data, "refreshToken"), platform.numberText)))
      && (Present(Member(data, "user")) ==>
            Lookup(q.storage, UserKey) == Some(platform.stringify(Member(data, "user").value)))
  {
  }

  /** `logout()`: post to `/auth/logout`, then clear the tokens whether or not the
      request threw. It rethrows what the request threw, and otherwise resolves to
      `undefined` (Null here), whatever the server answered. */
  function LogoutSpec(p: Page, platform: Platform): Exchange {
    var ex := RequestSpec(p, platform, "/auth/logout", "POST", None);
    Exchange(if ex.result.Failure? then ex.result else Success(Null),
             ex.page.(storage := Cleared(ex.page.storage)))
  }

  method Logout(w: Window) returns (r: Result<Json, Json>)
    modifies w
    ensures Exchange(r, w.State()) == LogoutSpec(old(w.State()), w.platform)
  {
    r := MakeRequest(w, "/auth/logout", "POST", None);
    ClearTokens(w);
    if r.Success? {
      r := Success(Null);
    }
  }

  /** After `logout` the client is logged out and no token or user is left, whatever
      the server answered; `logout` throws exactly when the request threw, and never
      hands the server's reply to its caller. */
  lemma LogoutLogsOut(p: Page, platform: Platform)
    ensures var q := LogoutSpec(p, platform).page.storage;
      !LoggedIn(q) && Lookup(q, RefreshTokenKey).None? && Lookup(q, UserKey).None?
    ensures LogoutSpec(p, platform).result.Failure? <==> RequestSpec(p, platform, "/auth/logout", "POST", None).result.Failure?
    ensures LogoutSpec(p, platform).result.Failure? ==>
      LogoutSpec(p, platform).result == RequestSpec(p, platform, "/auth/logout", "POST", None).result
    ensures LogoutSpec(p, platform).result.Success? ==> LogoutSpec(p, platform).result.value == Null
  {
  }

  // ---- BackendService: generation ----

  /** `response.error || fallback`, what the generation calls throw. */
  function Failed(resp: Json, fallback: string): Json {
    OrElse(Member(Some(resp), "error"), Str(fallback))
  }

  /** The outcome of a call: the reply body passed through `select`, when the request
      did not throw. */
  function Selected(ex: Exchange, select: Json -> Result<Json, Json>): Exchange {
    match ex.result
    case Failure(_) => ex
    case Success(resp) => ex.(result := select(resp))
  }

  /** The body `generateText` posts: `maxTokens || 1000`, `temperature || 0.7`. */
  function TextRequestBody(prompt: string, maxTokens: Option<Json>, temperature: Option<Json>): Json {
    Obj(map["prompt" := Str(prompt), "maxTokens" := OrElse(maxTokens, Num(1000.0)),
            "temperature" := OrElse(temperature, Num(0.7))])
  }

  /** `generateText` on the reply: throw unless `success` and `data.text` are truthy,
      otherwise answer the text. */
  function TextResult(resp: Json): (r: Result<Json, Json>)
    ensures resp.Null? ==> r == Failure(TypeErrorOnNull)
    ensures !resp.Null? ==>
      (r.Success? <==> Present(Member(Some(resp), "success")) && Present(Member(Member(Some(resp), "data"), "text")))
    ensures r.Success? ==> Truthy(r.value) && Member(Member(Some(resp), "data"), "text") == Some(r.value)
    ensures !resp.Null? && r.Failure? ==> r.error == Failed(resp, "Text generation failed")
  {
    if resp.Null? then Failure(TypeErrorOnNull)
    else
      var text := Member(Member(Some(resp), "data"), "text");
      if !Present(Member(Some(resp), "success")) || !Present(text) then Failure(Failed(resp, "Text generation failed"))
      else Success(text.value)
  }

  /** Image, video and audio generation on the reply: throw unless `success` is
      truthy, otherwise answer `data[key] || data.placeholder || ''`. */
  function MediaResult(resp: Json, key: string, fallback: string): (r: Result<Json, Json>)
    ensures resp.Null? ==> r == Failure(TypeErrorOnNull)
    ensures !resp.Null? ==> (r.Success? <==> Present(Member(Some(resp), "success")))
    ensures r.Success? && Present(Member(Member(Some(resp), "data"), key)) ==>
      r.value == Member(Member(Some(resp), "data"), key).value
    ensures r.Success? && !Present(Member(Member(Some(resp), "data"), key)) ==>
      r.value == OrElse(Member(Member(Some(resp), "data"), "placeholder"), Str(""))
    ensures !resp.Null? && r.Failure? ==> r.error == Failed(resp, fallback)
  {
    if resp.Null? then Failure(TypeErrorOnNull)
    else if !Present(Member(Some(resp), "success")) then Failure(Failed(resp, fallback))
    else
      var data := Member(Some(resp), "data");
      Success(OrElse(Member(data, key), OrElse(Member(data, "placeholder"), Str(""))))
  }

  /** `transcribeAudio` on the reply: throw unless `success` is truthy, otherwise
      answer `data.transcript || ''`. */
  function TranscriptResult(resp: Json): (r: Result<Json, Json>)
    ensures resp.Null? ==> r == Failure(TypeErrorOnNull)
    ensures !resp.Null? ==> (r.Success? <==> Present(Member(Some(resp), "success")))
    ensures r.Success? ==> r.value == OrElse(Member(Member(Some(resp), "data"), "transcript"), Str(""))
    ensures !resp.Null? && r.Failure? ==> r.error == Failed(resp, "Audio transcription failed")
  {
    if resp.Null? then Failure(TypeErrorOnNull)
    else if !Present(Member(Some(resp), "success")) then Failure(Failed(resp, "Audio transcription failed"))
    else Success(OrElse(Member(Member(Some(resp), "data"), "transcript"), Str("")))
  }

  /** `chat` on the reply: throw unless `success` and `data` are truthy, otherwise
      answer `data`. */
  function ChatResult(resp: Json): (r: Result<Json, Json>)
    ensures resp.Null? ==> r == Failure(TypeErrorOnNull)
    ensures !resp.Null? ==> (r.Success? <==> Present(Member(Some(resp), "success")) && Present(Member(Some(resp), "data")))
    ensures r.Success? ==> Some(r.value) == Member(Some(resp), "data")
    ensures !resp.Null? && r.Failure? ==> r.error == Failed(resp, "Chat request failed")
  {
    if resp.Null? then Failure(TypeErrorOnNull)
    else if !Present(Member(Some(resp), "success")) || !Present(Member(Some(resp), "data")) then
      Failure(Failed(resp, "Chat request failed"))
    else Success(Member(Some(resp), "data").value)
  }

  function ImageRequestBody(prompt: string, aspectRatio: Option<Json>, quality: Option<Json>): Json {
    Obj(map["prompt" := Str(prompt), "aspectRatio" := OrElse(aspectRatio, Str("1:1")),
            "quality" := OrElse(quality, Str("standard"))])
  }

  function VideoRequestBody(prompt: string, duration: Option<Json>, quality: Option<Json>): Json {
    Obj(map["prompt" := Str(prompt), "duration" := OrElse(duration, Num(5.0)),
            "quality" := OrElse(quality, Str("standard"))])
  }

  function AudioRequestBody(text: string, voice: Option<Json>, speed: Option<Json>, language: Option<Json>): Json {
    Obj(map["text" := Str(text), "voice" := OrElse(voice, Str("default")), "speed" := OrElse(speed, Num(1.0)),
            "language" := OrElse(language, Str("en"))])
  }

  function TranscribeRequestBody(audioUrl: string, language: Option<string>): Json {
    Obj(map["audioUrl" := Str(audioUrl), "language" := Str(if Given(language) then language.value else "auto")])
  }

  /** The body `chat` posts; an undefined conversation id or system prompt is left out. */
  function ChatRequestBody(message: string, conversationId: Option<string>, systemPrompt: Option<string>): Json {
    Obj(map["message" := Str(message)]
        + OptField("conversationId", if conversationId.Some? then Some(Str(conversationId.value)) else None)
        + OptField("systemPrompt", if systemPrompt.Some? then Some(Str(systemPrompt.value)) else None))
  }

  method GenerateText(w: Window, prompt: string, maxTokens: Option<Json>, temperature: Option<Json>)
    returns (r: Result<Json, Json>)
    modifies w
    ensures Exchange(r, w.State()) ==
      Selected(RequestSpec(old(w.State()), w.platform, "/ai/text/generate", "POST",
                           Some(TextRequestBody(prompt, maxTokens, temperature))), TextResult)
  {
    r := MakeRequest(w, "/ai/text/generate", "POST", Some(TextRequestBody(prompt, maxTokens, temperature)));
    if r.Success? {
      r := TextResult(r.value);
    }
  }

  method GenerateImage(w: Window, prompt: string, aspectRatio: Option<Json>, quality: Option<Json>)
    returns (r: Result<Json, Json>)
    modifies w
    ensures Exchange(r, w.State()) ==
      Selected(RequestSpec(old(w.State()), w.platform, "/ai/image/generate", "POST",
                           Some(ImageRequestBody(prompt, aspectRatio, quality))),
               resp => MediaResult(resp, "imageUrl", "Image generation failed"))
  {
    r := MakeRequest(w, "/ai/image/generate", "POST", Some(ImageRequestBody(prompt, aspectRatio, quality)));
    if r.Success? {
      r := MediaResult(r.value, "imageUrl", "Image generation failed");
    }
  }

  method GenerateVideo(w: Window, prompt: string, duration: Option<Json>, quality: Option<Json>)
    returns (r: Result<Json, Json>)
    modifies w
    ensures Exchange(r, w.State()) ==
      Selected(RequestSpec(old(w.State()), w.platform, "/ai/video/generate", "POST",
                           Some(VideoRequestBody(prompt, duration, quality))),
               resp => MediaResult(resp, "videoUrl", "Video generation failed"))
  {
    r := MakeRequest(w, "/ai/video/generate", "POST", Some(VideoRequestBody(prompt, duration, quality)));
    if r.Success? {
      r := MediaResult(r.value, "videoUrl", "Video generation failed");
    }
  }

  method GenerateAudio(w: Window, text: string, voice: Option<Json>, speed: Option<Json>, language: Option<Json>)
    returns (r: Result<Json, Json>)
    modifies w
    ensures Exchange(r, w.State()) ==
      Selected(RequestSpec(old(w.State()), w.platform, "/ai/audio/generate", "POST",
                           Some(AudioRequestBody(text, voice, speed, language))),
               resp => MediaResult(resp, "audioUrl", "Audio generation failed"))
  {
    r := MakeRequest(w, "/ai/audio/generate", "POST", Some(AudioRequestBody(text, voice, speed, language)));
    if r.Success? {
      r := MediaResult(r.value, "audioUrl", "Audio generation failed");
    }
  }

  method TranscribeAudio(w: Window, audioUrl: string, language: Option<string>) returns (r: Result<Json, Json>)
    modifies w
    ensures Exchange(r, w.State()) ==
      Selected(RequestSpec(old(w.State()), w.platform, "/ai/audio/transcribe", "POST",
                           Some(TranscribeRequestBody(audioUrl, language))), TranscriptResult)
  {
    r := MakeRequest(w, "/ai/audio/transcribe", "POST", Some(TranscribeRequestBody(audioUrl, language)));
    if r.Success? {
      r := TranscriptResult(r.value);
    }
  }

  method Chat(w: Window, message: string, conversationId: Option<string>, systemPrompt: Option<string>)
    returns (r: Result<Json, Json>)
    modifies w
    ensures Exchange(r, w.State()) ==
      Selected(RequestSpec(old(w.State()), w.platform, "/ai/chat", "POST",
                           Some(ChatRequestBody(message, conversationId, systemPrompt))), ChatResult)
  {
    r := MakeRequest(w, "/ai/chat", "POST", Some(ChatRequestBody(message, conversationId, systemPrompt)));
    if r.Success? {
      r := ChatResult(r.value);
    }
  }
}
