/**
 * Logging the bot in and restoring its cookies: the decisions of `Bot._login` and
 * `Bot._authenticate`, as functions of the page's script and state and of the two cookie
 * stores (the provider's cookie file and the process-wide session cache).
 */
module Authentication {
  import opened Wrappers
  import opened Strings
  import opened Errors
  import opened Driver
  import opened Site
  import opened Navigation
  import opened Elements
  import opened LoginForm

  const NO_CACHED_COOKIES := "No cached cookies found."
  const UNKNOWN_ERROR := "unknown error"

  /** Where the page stands after the login page was loaded or the form was submitted. */
  datatype Landing = AtRecent | AtLogin | Elsewhere(url: string)

  /**
   * The three-way test of `_login`: the URL contains the recent-files URL, else it equals the
   * login URL, else it is anywhere else.
   */
  function ClassifyLanding(url: string): (l: Landing)
    ensures l == AtRecent <==> Contains(url, RECENT_URL)
    ensures l == AtLogin <==> !Contains(url, RECENT_URL) && url == LOGIN_URL
    ensures l.Elsewhere? <==> !Contains(url, RECENT_URL) && url != LOGIN_URL
    ensures l.Elsewhere? ==> l.url == url
  {
    if Contains(url, RECENT_URL) then AtRecent
    else if url == LOGIN_URL then AtLogin
    else Elsewhere(url)
  }

  /** The login page itself is classified as the login page: it is too short to hold the recent URL. */
  lemma LoginUrlIsAtLogin()
    ensures ClassifyLanding(LOGIN_URL) == AtLogin
  {
    if Contains(LOGIN_URL, RECENT_URL) {
      ContainsLength(LOGIN_URL, RECENT_URL);
    }
  }

  /** How `_login` ended. */
  datatype LoginResult =
    | AlreadyLoggedIn              // the login page redirected to the recent files; nothing cached
    | LoggedIn(cookies: seq<Cookie>) // the form was accepted; these cookies are cached
    | LoginFailed(error: Error)

  /** The message `_login` reports when the form came back with the login page. */
  function RejectionMessage(parsed: Option<string>): (m: string)
    ensures parsed.Some? ==> m == parsed.value
    ensures parsed.None? ==> m == UNKNOWN_ERROR
  {
    parsed.GetOr(UNKNOWN_ERROR)
  }

  /**
   * The verdict of `_login` once the form went through, by the URL reached: the recent files
   * log the bot in with the page's cookies; the login page fails with the parsed form error (or
   * "unknown error"), unless parsing itself fails, whose error escapes as it is; any other page
   * fails with "Unexpectedly redirected to "<url>"".
   */
  function Verdict(sc: Script, s: PageState): (res: (PageState, LoginResult))
    ensures Extends(res.0, s)
    ensures res.1 != AlreadyLoggedIn
    ensures res.1.LoggedIn? <==> Contains(s.url, RECENT_URL)
    ensures res.1.LoggedIn? ==> res == (s, LoggedIn(sc.cookies))
    ensures ClassifyLanding(s.url) == AtLogin ==>
              var (t, parsed) := ParseLoginFormErrorSpec(sc, s);
              res.0 == t &&
              (parsed.Failed? ==> res.1 == LoginFailed(parsed.error)) &&
              (parsed.Ok? ==> res.1 == LoginFailed(NewAuthorizationError(FromString(RejectionMessage(parsed.value)))) &&
                              res.1.error.message == AUTHORIZATION_PREFIX + RejectionMessage(parsed.value))
    ensures ClassifyLanding(s.url).Elsewhere? ==>
              res.0 == s && res.1 == LoginFailed(NewAuthorizationError(FromString("Unexpectedly redirected to \"" + s.url + "\""))) &&
              res.1.error.message == AUTHORIZATION_PREFIX + "Unexpectedly redirected to \"" + s.url + "\""
  {
    match ClassifyLanding(s.url)
    case AtRecent => (s, LoggedIn(sc.cookies))
    case AtLogin =>
      var (t, parsed) := ParseLoginFormErrorSpec(sc, s);
      if parsed.Failed? then (t, LoginFailed(parsed.error))
      else (t, LoginFailed(NewAuthorizationError(FromString(RejectionMessage(parsed.value)))))
    case Elsewhere(u) =>
      (s, LoginFailed(NewAuthorizationError(FromString("Unexpectedly redirected to \"" + u + "\""))))
  }

  /**
   * Submitting the form and waiting for the navigation it causes; a failure of either is
   * reported as an AuthorizationError wrapping it, otherwise the URL reached decides.
   */
  function Submit(sc: Script, s: PageState, auth: AuthData, interactionDelay: nat, typingDelay: nat)
    : (res: (PageState, LoginResult))
    ensures Extends(res.0, s)
    ensures res.1 != AlreadyLoggedIn
    ensures var (s1, f) := SubmitLoginFormSpec(sc, s, auth, interactionDelay, typingDelay);
            var (s2, n) := NavStep(sc, s1, AwaitNavigation(None));
            && (f.Thrown? ==> res == (s1, LoginFailed(NewAuthorizationError(FromError(f.error)))))
            && (f.Done? && n.Thrown? ==> res == (s2, LoginFailed(NewAuthorizationError(FromError(n.error)))))
            && (f.Done? && n.Done? ==> res == Verdict(sc, s2))
  {
    var (s1, f) := SubmitLoginFormSpec(sc, s, auth, interactionDelay, typingDelay);
    if f.Thrown? then (s1, LoginFailed(NewAuthorizationError(FromError(f.error))))
    else
      var (s2, n) := NavStep(sc, s1, AwaitNavigation(None));
      assert Extends(s2, s1) && Extends(s1, s);
      ExtendsTrans(s2, s1, s);
      if n.Thrown? then (s2, LoginFailed(NewAuthorizationError(FromError(n.error))))
      else
        var v := Verdict(sc, s2);
        ExtendsTrans(v.0, s2, s);
        v
  }

  /**
   * `_login(page)`: load the login page (a failure escapes as it is); when that already leads
   * to the recent files, stop without submitting anything; otherwise submit the form.
   */
  function LoginSpec(sc: Script, s: PageState, auth: AuthData, interactionDelay: nat, typingDelay: nat)
    : (res: (PageState, LoginResult))
    ensures Extends(res.0, s) && |res.0.trace| > |s.trace| && res.0.trace[|s.trace|] == Navigate(LOGIN_URL)
    ensures var (s1, g) := NavStep(sc, s, Navigate(LOGIN_URL));
            && (g.Thrown? ==> res == (s1, LoginFailed(g.error)))
            && (g.Done? && Contains(s1.url, RECENT_URL) ==> res == (s1, AlreadyLoggedIn))
            && (g.Done? && !Contains(s1.url, RECENT_URL) ==> res == Submit(sc, s1, auth, interactionDelay, typingDelay))
    ensures res.1 == AlreadyLoggedIn ==> res.0.trace == s.trace + [Navigate(LOGIN_URL)]
  {
    var (s1, g) := NavStep(sc, s, Navigate(LOGIN_URL));
    if g.Thrown? then (s1, LoginFailed(g.error))
    else if Contains(s1.url, RECENT_URL) then (s1, AlreadyLoggedIn)
    else
      var r := Submit(sc, s1, auth, interactionDelay, typingDelay);
      assert Extends(s1, s);
      ExtendsTrans(r.0, s1, s);
      assert r.0.trace[|s.trace|] == r.0.trace[..|s1.trace|][|s.trace|];
      r
  }

  /**
   * A successful login issued exactly: the login page load, the ten form actions, and the wait
   * for the navigation; the URL reached shows the recent files, and the cookies are the page's.
   */
  lemma LoggedInTrace(sc: Script, s: PageState, auth: AuthData, interactionDelay: nat, typingDelay: nat)
    requires LoginSpec(sc, s, auth, interactionDelay, typingDelay).1.LoggedIn?
    ensures var (t, r) := LoginSpec(sc, s, auth, interactionDelay, typingDelay);
            && r.cookies == sc.cookies && Contains(t.url, RECENT_URL)
            && t.trace == s.trace + [Navigate(LOGIN_URL)] + FormActions(auth, interactionDelay, typingDelay) + [AwaitNavigation(None)]
  {
    var s1 := NavStep(sc, s, Navigate(LOGIN_URL)).0;
    var s2 := SubmitLoginFormSpec(sc, s1, auth, interactionDelay, typingDelay).0;
    FormActionsShape(auth, interactionDelay, typingDelay);
    assert FormActions(auth, interactionDelay, typingDelay)[..10] == FormActions(auth, interactionDelay, typingDelay);
  }

  /** The two cookie stores: the provider's cookie file and `SESSION_DATA.cookies`. */
  datatype Stores = Stores(provider: Option<seq<Cookie>>, cached: Option<seq<Cookie>>)

  /** What `_login` leaves in the stores: a successful login writes the same cookies to both. */
  function AfterLogin(stores: Stores, r: LoginResult): (t: Stores)
    ensures r.LoggedIn? ==> t.provider == Some(r.cookies) && t.cached == Some(r.cookies)
    ensures !r.LoggedIn? ==> t == stores
  {
    if r.LoggedIn? then Stores(Some(r.cookies), Some(r.cookies)) else stores
  }

  /** `(await provider.getCookies()) || SESSION_DATA.cookies`: the provider's cookies take precedence. */
  function CookiesToRestore(stores: Stores): (c: Option<seq<Cookie>>)
    ensures stores.provider.Some? ==> c == stores.provider
    ensures stores.provider.None? ==> c == stores.cached
  {
    if stores.provider.Some? then stores.provider else stores.cached
  }

  /**
   * The `try` block of `_authenticate`: install the cookies to restore and wait for the redirects
   * they cause; when there are none, fail with an AuthorizationError wrapping
   * `Error("No cached cookies found.")`.
   */
  function Restore(sc: Script, t: PageState, stores: Stores): (res: (PageState, Outcome))
    ensures Extends(res.0, t)
    ensures CookiesToRestore(stores).None? ==>
              res == (t, Thrown(NewAuthorizationError(FromError(Plain(NO_CACHED_COOKIES)))))
    ensures CookiesToRestore(stores).Some? ==>
              res.1 == Done && |res.0.trace| > |t.trace| &&
              res.0.trace[|t.trace|] == InstallCookies(CookiesToRestore(stores).value) &&
              res.0 == Redirects(sc, Record(t, InstallCookies(CookiesToRestore(stores).value)),
                                 DEFAULT_REDIRECTS_LIMIT, DEFAULT_REDIRECT_TIMEOUT)
  {
    var cookies := CookiesToRestore(stores);
    if cookies.None? then (t, Thrown(NewAuthorizationError(FromError(Plain(NO_CACHED_COOKIES)))))
    else
      var t1 := Record(t, InstallCookies(cookies.value));
      var t2 := Redirects(sc, t1, DEFAULT_REDIRECTS_LIMIT, DEFAULT_REDIRECT_TIMEOUT);
      assert t2.trace[|t.trace|] == t1.trace[|t.trace|];
      assert t2.trace[..|t.trace|] == t1.trace[..|t.trace|];
      (t2, Done)
  }

  /**
   * `_authenticate(page)`: always log in first (a login failure escapes as it is), then restore
   * cookies from the stores as `_login` left them.
   */
  function AuthenticateSpec(sc: Script, s: PageState, auth: AuthData, interactionDelay: nat, typingDelay: nat,
                            stores: Stores): (res: (PageState, Stores, Outcome))
    ensures Extends(res.0, LoginSpec(sc, s, auth, interactionDelay, typingDelay).0)
    ensures res.1 == AfterLogin(stores, LoginSpec(sc, s, auth, interactionDelay, typingDelay).1)
    ensures LoginSpec(sc, s, auth, interactionDelay, typingDelay).1.LoginFailed? ==>
              res == (LoginSpec(sc, s, auth, interactionDelay, typingDelay).0, stores,
                      Thrown(LoginSpec(sc, s, auth, interactionDelay, typingDelay).1.error))
    ensures !LoginSpec(sc, s, auth, interactionDelay, typingDelay).1.LoginFailed? ==>
              var r := Restore(sc, LoginSpec(sc, s, auth, interactionDelay, typingDelay).0, res.1);
              res.0 == r.0 && res.2 == r.1
  {
    var (t, l) := LoginSpec(sc, s, auth, interactionDelay, typingDelay);
    if l.LoginFailed? then (t, stores, Thrown(l.error))
    else
      var stores1 := AfterLogin(stores, l);
      var (t1, r) := Restore(sc, t, stores1);
      (t1, stores1, r)
  }

  /** A successful login restores exactly the cookies it has just read from the page. */
  lemma FreshLoginRestoresPageCookies(sc: Script, s: PageState, auth: AuthData, interactionDelay: nat, typingDelay: nat,
                                      stores: Stores)
    requires LoginSpec(sc, s, auth, interactionDelay, typingDelay).1.LoggedIn?
    ensures var res := AuthenticateSpec(sc, s, auth, interactionDelay, typingDelay, stores);
            var t := LoginSpec(sc, s, auth, interactionDelay, typingDelay).0;
            res.2 == Done && res.0.trace[|t.trace|] == InstallCookies(sc.cookies)
  {
  }

  /**
   * With both stores empty (as at the start of a run, whose cookie file has just been deleted), a
   * login page that already shows the recent files makes authentication fail with
   * "Authorization failed | No cached cookies found.".
   */
  lemma AlreadyLoggedInWithEmptyStores(sc: Script, s: PageState, auth: AuthData, interactionDelay: nat, typingDelay: nat)
    requires LoginSpec(sc, s, auth, interactionDelay, typingDelay).1 == AlreadyLoggedIn
    ensures var res := AuthenticateSpec(sc, s, auth, interactionDelay, typingDelay, Stores(None, None));
            res.2.Thrown? && res.2.error.message == AUTHORIZATION_PREFIX + NO_CACHED_COOKIES
  {
  }
}
