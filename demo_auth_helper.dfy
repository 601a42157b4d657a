/** The client's demo auto-login: log in with the demo account unless already logged
    in or auto-login was switched off, and remember the outcome in the
    `demo_auto_login` item of `localStorage`. */
module DemoAuthHelper {
  import opened Json
  import opened Browser
  import opened BackendService

  const DemoEmail := "demo@example.com"
  const DemoPassword := "password123"
  const AutoLoginKey := "demo_auto_login"

  /** `isAutoLoginEnabled()`: anything but the exact text `false`, absence included. */
  predicate AutoLoginEnabled(s: Storage)
    ensures AutoLoginEnabled(s) <==> AutoLoginKey !in s || s[AutoLoginKey] != "false"
  {
    Lookup(s, AutoLoginKey) != Some("false")
  }

  /** The page after the flag is set to `value`. */
  function Flagged(p: Page, value: string): Page {
    p.(storage := p.storage[AutoLoginKey := value])
  }

  /** The demo login request and its effects. */
  function DemoLogin(p: Page, platform: Platform): Exchange {
    SessionSpec(p, platform, "/auth/login", LoginCredentials(DemoEmail, DemoPassword))
  }

  /** `ensureDemoLogin()` as written: whether it reports a login, and the page after.
      Any login call that does not throw counts as a success. */
  function EnsureSpec(p: Page, platform: Platform): (bool, Page) {
    if LoggedIn(p.storage) then (true, p)
    else if Lookup(p.storage, AutoLoginKey) == Some("false") then (false, p)
    else
      var ex := DemoLogin(p, platform);
      if ex.result.Failure? then (false, Flagged(ex.page, "false"))
      else (true, Flagged(ex.page, "true"))
  }

  method EnsureDemoLogin(w: Window) returns (r: bool)
    modifies w
    ensures (r, w.State()) == EnsureSpec(old(w.State()), w.platform)
  {
    if LoggedIn(w.storage) {
      return true;
    }
    var autoLogin := w.GetItem(AutoLoginKey);
    if autoLogin == Some("false") {
      return false;
    }
    var login := Login(w, DemoEmail, DemoPassword);
    if login.Failure? {
      w.SetItem(AutoLoginKey, "false");
      return false;
    }
    w.SetItem(AutoLoginKey, "true");
    return true;
  }

  /** Already logged in: true, with nothing read, written or sent. Auto-login switched
      off: false, with nothing written or sent. */
  lemma EnsureShortCircuits(p: Page, platform: Platform)
    ensures LoggedIn(p.storage) ==> EnsureSpec(p, platform) == (true, p)
    ensures !LoggedIn(p.storage) && !AutoLoginEnabled(p.storage) ==> EnsureSpec(p, platform) == (false, p)
  {
  }

  /** An attempt that returns false leaves auto-login switched off, so unless the
      attempt still left a token behind, the next call returns false without sending
      anything, until auto-login is enabled again. */
  lemma FailureIsSticky(p: Page, platform: Platform)
    requires !EnsureSpec(p, platform).0
    ensures !AutoLoginEnabled(EnsureSpec(p, platform).1.storage)
    ensures var q := EnsureSpec(p, platform).1;
      !LoggedIn(q.storage) ==> EnsureSpec(q, platform) == (false, q)
  {
  }

  /** The finding: a login reply without `success` (the auth rate limiter's 429, say)
      does not throw, so `ensureDemoLogin` reports a login and switches auto-login on
      although no token was stored. */
  lemma RateLimitedLoginReportedAsSuccess()
    ensures var platform := Platform(
        _ => Success(Reply(429, Obj(map["error" := Str("Too many authentication attempts, please try again later.")]))),
        _ => "", _ => Failure(""), _ => "");
      var (r, q) := EnsureSpec(Page(map[], "/", []), platform);
      r && Lookup(q.storage, AutoLoginKey) == Some("true") && !LoggedIn(q.storage)
  {
    var platform := Platform(
        _ => Success(Reply(429, Obj(map["error" := Str("Too many authentication attempts, please try again later.")]))),
        _ => "", _ => Failure(""), _ => "");
    var p := Page(map[], "/", []);
    var ex := DemoLogin(p, platform);
    assert ex.page.storage == map[];
  }

  /** `ensureDemoLogin()` as intended: the attempt counts as a login exactly when it
      left an access token behind; otherwise auto-login is switched off as for a thrown
      error. */
  function EnsureCheckedSpec(p: Page, platform: Platform): (bool, Page) {
    if LoggedIn(p.storage) then (true, p)
    else if Lookup(p.storage, AutoLoginKey) == Some("false") then (false, p)
    else
      var ex := DemoLogin(p, platform);
      if !LoggedIn(ex.page.storage) then (false, Flagged(ex.page, "false"))
      else (true, Flagged(ex.page, "true"))
  }

  method EnsureDemoLoginChecked(w: Window) returns (r: bool)
    modifies w
    ensures (r, w.State()) == EnsureCheckedSpec(old(w.State()), w.platform)
  {
    if LoggedIn(w.storage) {
      return true;
    }
    var autoLogin := w.GetItem(AutoLoginKey);
    if autoLogin == Some("false") {
      return false;
    }
    var _ := Login(w, DemoEmail, DemoPassword);
    if !LoggedIn(w.storage) {
      w.SetItem(AutoLoginKey, "false");
      return false;
    }
    w.SetItem(AutoLoginKey, "true");
    return true;
  }

  /** The corrected helper reports a login exactly when the client is logged in
      afterwards, and leaves auto-login on exactly when it reports one. */
  lemma CheckedReportsLogin(p: Page, platform: Platform)
    ensures var (r, q) := EnsureCheckedSpec(p, platform);
      && (r <==> LoggedIn(q.storage))
      && (!LoggedIn(p.storage) && AutoLoginEnabled(p.storage) ==> (AutoLoginEnabled(q.storage) <==> r))
  {
    if !LoggedIn(p.storage) && AutoLoginEnabled(p.storage) {
      var ex := DemoLogin(p, platform);
      assert Lookup(Flagged(ex.page, "false").storage, AccessTokenKey) == Lookup(ex.page.storage, AccessTokenKey);
      assert Lookup(Flagged(ex.page, "true").storage, AccessTokenKey) == Lookup(ex.page.storage, AccessTokenKey);
    }
  }

  /** The two agree whenever the login throws exactly when it leaves no token behind. */
  lemma CheckedAgreesOnRealOutcomes(p: Page, platform: Platform)
    requires DemoLogin(p, platform).result.Failure? <==> !LoggedIn(DemoLogin(p, platform).page.storage)
    ensures EnsureCheckedSpec(p, platform) == EnsureSpec(p, platform)
  {
  }

  /** `enableAutoLogin()` and `disableAutoLogin()`. */
  method SetAutoLogin(w: Window, enabled: bool)
    modifies w
    ensures w.State() == Flagged(old(w.State()), if enabled then "true" else "false")
  {
    w.SetItem(AutoLoginKey, if enabled then "true" else "false");
  }

  lemma AutoLoginSwitch(p: Page)
    ensures AutoLoginEnabled(Flagged(p, "true").storage) && !AutoLoginEnabled(Flagged(p, "false").storage)
    ensures Lookup(p.storage, AutoLoginKey).None? ==> AutoLoginEnabled(p.storage)
    ensures LoggedIn(Flagged(p, "true").storage) == LoggedIn(p.storage)
    ensures LoggedIn(Flagged(p, "false").storage) == LoggedIn(p.storage)
  {
    assert Lookup(Flagged(p, "true").storage, AccessTokenKey) == Lookup(p.storage, AccessTokenKey);
    assert Lookup(Flagged(p, "false").storage, AccessTokenKey) == Lookup(p.storage, AccessTokenKey);
  }

  /** `manualDemoLogin()`: log in; only when that does not throw, switch auto-login on.
      It rethrows what the login threw and otherwise resolves to `undefined` (Null
      here), not to the login's answer. */
  function ManualSpec(p: Page, platform: Platform): Exchange {
    var ex := DemoLogin(p, platform);
    if ex.result.Failure? then ex else Exchange(Success(Null), Flagged(ex.page, "true"))
  }

  method ManualDemoLogin(w: Window) returns (r: Result<Json, Json>)
    modifies w
    ensures Exchange(r, w.State()) == ManualSpec(old(w.State()), w.platform)
  {
    r := Login(w, DemoEmail, DemoPassword);
    if r.Success? {
      SetAutoLogin(w, true);
      r := Success(Null);
    }
  }

  /** A manual login that throws leaves the flag as it was and rethrows; one that
      returns switches auto-login on and resolves to `undefined`. */
  lemma ManualLoginFlag(p: Page, platform: Platform)
    ensures var ex := ManualSpec(p, platform);
      && (ex.result.Failure? <==> DemoLogin(p, platform).result.Failure?)
      && (ex.result.Failure? ==> ex.result == DemoLogin(p, platform).result)
      && (ex.result.Failure? ==>
            Lookup(ex.page.storage, AutoLoginKey) == Lookup(DemoLogin(p, platform).page.storage, AutoLoginKey))
      && (ex.result.Success? ==> ex.result.value == Null && Lookup(ex.page.storage, AutoLoginKey) == Some("true"))
  {
  }
}
