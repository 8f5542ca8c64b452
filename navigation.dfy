/**
 * Navigation helpers: settling redirects (`waitForRedirects`), guarded navigation (`goTo`),
 * the authentication probe (`checkAuth`) and the three page wrappers that build a site URL
 * and replace any failure by a message naming the id.
 */
module Navigation {
  import opened Wrappers
  import opened Strings
  import opened Errors
  import opened Driver
  import opened Site

  const DEFAULT_REDIRECTS_LIMIT := 10
  const DEFAULT_REDIRECT_TIMEOUT := 7000
  /** `goTo` settles redirects with this per-hop timeout and the default hop limit. */
  const GOTO_REDIRECT_TIMEOUT := 5000
  const PAGE_LOADING_FAILED := "Page loading failed."

  // ---------------------------------------------------------------- waitForRedirects

  /**
   * Navigation waits until the page has consumed the navigation answers below `stop`,
   * ending (silently) right after the first one that is rejected.
   */
  function RedirectsUntil(sc: Script, s: PageState, stop: nat, timeout: nat): PageState
    decreases stop - s.navs
  {
    if stop <= s.navs then s
    else
      var (s1, r) := NavStep(sc, s, AwaitNavigation(Some(timeout)));
      if r.Thrown? then s1 else RedirectsUntil(sc, s1, stop, timeout)
  }

  /**
   * The waits below `stop` only move the URL and the navigation count, append one navigation
   * wait per answer consumed, and stop early only right after a rejected answer.
   */
  lemma {:induction false} RedirectsUntilShape(sc: Script, s: PageState, stop: nat, timeout: nat)
    ensures var t := RedirectsUntil(sc, s, stop, timeout);
            && (t.url == s.url || t.navs > s.navs)
            && t.replies == s.replies && t.idles == s.idles && s.navs <= t.navs
            && t.trace == s.trace + Repeat(AwaitNavigation(Some(timeout)), t.navs - s.navs)
            && (stop <= s.navs ==> t == s)
            && (stop > s.navs ==> s.navs < t.navs <= stop)
            && (forall i :: s.navs <= i < t.navs - 1 ==> sc.navigations(i).Landed?)
            && (stop > s.navs && t.navs < stop ==> sc.navigations(t.navs - 1).NavRejected?)
    decreases stop - s.navs
  {
    if stop > s.navs {
      var (s1, r) := NavStep(sc, s, AwaitNavigation(Some(timeout)));
      if r.Done? {
        RedirectsUntilShape(sc, s1, stop, timeout);
        var t := RedirectsUntil(sc, s1, stop, timeout);
        assert Repeat(AwaitNavigation(Some(timeout)), t.navs - s.navs)
            == [AwaitNavigation(Some(timeout))] + Repeat(AwaitNavigation(Some(timeout)), t.navs - s1.navs);
      } else {
        assert Repeat(AwaitNavigation(Some(timeout)), 1) == [AwaitNavigation(Some(timeout))];
      }
    }
  }

  /**
   * The page ends on the URL of the last answer that landed: the final one, or the one before a
   * final rejection; with no landed answer among those consumed, the URL is unchanged.
   */
  lemma {:induction false} RedirectsUntilUrl(sc: Script, s: PageState, stop: nat, timeout: nat)
    ensures var t := RedirectsUntil(sc, s, stop, timeout);
            && (t.navs == s.navs ==> t.url == s.url)
            && (t.navs > s.navs && sc.navigations(t.navs - 1).Landed? ==> t.url == sc.navigations(t.navs - 1).url)
            && (t.navs > s.navs + 1 && sc.navigations(t.navs - 1).NavRejected? ==>
                  sc.navigations(t.navs - 2).Landed? && t.url == sc.navigations(t.navs - 2).url)
            && (t.navs == s.navs + 1 && sc.navigations(s.navs).NavRejected? ==> t.url == s.url)
    decreases stop - s.navs
  {
    if stop > s.navs {
      var (s1, r) := NavStep(sc, s, AwaitNavigation(Some(timeout)));
      if r.Done? {
        RedirectsUntilShape(sc, s1, stop, timeout);
        RedirectsUntilUrl(sc, s1, stop, timeout);
      }
    }
  }

  /**
   * The page after `waitForRedirects`: up to `limit` navigation waits, stopping (silently)
   * after the first one that is rejected. The page ends on the URL of the last answer that landed.
   */
  function Redirects(sc: Script, s: PageState, limit: int, timeout: nat): (t: PageState)
    ensures t.url == s.url || t.navs > s.navs
    ensures t.navs == s.navs ==> t.url == s.url
    ensures t.navs > s.navs && sc.navigations(t.navs - 1).Landed? ==> t.url == sc.navigations(t.navs - 1).url
    ensures t.navs > s.navs + 1 && sc.navigations(t.navs - 1).NavRejected? ==>
              sc.navigations(t.navs - 2).Landed? && t.url == sc.navigations(t.navs - 2).url
    ensures t.navs == s.navs + 1 && sc.navigations(s.navs).NavRejected? ==> t.url == s.url
    ensures t.replies == s.replies && t.idles == s.idles && s.navs <= t.navs
    ensures t.trace == s.trace + Repeat(AwaitNavigation(Some(timeout)), t.navs - s.navs)
    ensures limit <= 0 ==> t == s
    ensures limit > 0 ==> s.navs < t.navs <= s.navs + limit
    ensures forall i :: s.navs <= i < t.navs - 1 ==> sc.navigations(i).Landed?
    ensures limit > 0 && t.navs < s.navs + limit ==> sc.navigations(t.navs - 1).NavRejected?
  {
    if limit <= 0 then s
    else
      RedirectsUntilShape(sc, s, s.navs + limit, timeout);
      RedirectsUntilUrl(sc, s, s.navs + limit, timeout);
      RedirectsUntil(sc, s, s.navs + limit, timeout)
  }

  /** Number of navigation answers that land, counted from `from` up to the first rejection, capped at `n`. */
  function LeadingLandings(navigations: nat -> Nav, from: nat, n: nat): (k: nat)
    ensures k <= n
    decreases n
  {
    if n == 0 || navigations(from).NavRejected? then 0
    else 1 + LeadingLandings(navigations, from + 1, n - 1)
  }

  function Min(a: int, b: int): int { if a <= b then a else b }

  /** The number of waits is min(limit, k + 1), k being the landings before the first rejection. */
  lemma {:induction false} RedirectWaitCount(sc: Script, s: PageState, limit: int, timeout: nat)
    ensures Redirects(sc, s, limit, timeout).navs - s.navs
         == if limit <= 0 then 0 else Min(limit, LeadingLandings(sc.navigations, s.navs, limit) + 1)
    decreases if limit <= 0 then 0 else limit
  {
    if limit > 0 {
      var (s1, r) := NavStep(sc, s, AwaitNavigation(Some(timeout)));
      if r.Done? {
        RedirectWaitCount(sc, s1, limit - 1, timeout);
      }
    }
  }

  /** `waitForRedirects(page, { redirectsLimit, timeout })`; it never throws. */
  method WaitForRedirects(page: Page, redirectsLimit: Option<int>, timeout: Option<nat>)
    modifies page
    ensures page.State()
         == Redirects(page.script, old(page.State()),
                      redirectsLimit.GetOr(DEFAULT_REDIRECTS_LIMIT), timeout.GetOr(DEFAULT_REDIRECT_TIMEOUT))
  {
    var limit := redirectsLimit.GetOr(DEFAULT_REDIRECTS_LIMIT);
    var hopTimeout := timeout.GetOr(DEFAULT_REDIRECT_TIMEOUT);
    ghost var start := page.State();
    ghost var goal := Redirects(page.script, start, limit, hopTimeout);
    var i := 0;
    while i < limit
      invariant 0 <= i && (limit > 0 ==> i <= limit)
      invariant page.navs == start.navs + i
      invariant limit <= 0 ==> page.State() == start
      invariant limit > 0 ==> RedirectsUntil(page.script, page.State(), start.navs + limit, hopTimeout) == goal
      decreases limit - i
    {
      var r := page.WaitForNavigation(Some(hopTimeout));
      if r.Thrown? {
        return;
      }
      i := i + 1;
    }
  }

  /** One hop of `Redirects`. */
  lemma RedirectsUnfold(sc: Script, s: PageState, limit: int, timeout: nat)
    requires limit > 0
    ensures var (s1, r) := NavStep(sc, s, AwaitNavigation(Some(timeout)));
            Redirects(sc, s, limit, timeout) == if r.Thrown? then s1 else Redirects(sc, s1, limit - 1, timeout)
  {
    var (s1, r) := NavStep(sc, s, AwaitNavigation(Some(timeout)));
    if r.Done? && limit == 1 {
      assert RedirectsUntil(sc, s1, s.navs + limit, timeout) == s1;
    }
  }

  // ---------------------------------------------------------------- goTo

  /**
   * `goTo(page, target)`: nothing happens when the URL already contains the target;
   * otherwise navigate, settle redirects, and fail unless the URL then contains the target.
   */
  function GoToSpec(sc: Script, s: PageState, target: string): (res: (PageState, Outcome))
    ensures Contains(s.url, target) ==> res == (s, Done)
    ensures res.1.Done? ==> Contains(res.0.url, target)
    ensures !Contains(s.url, target) ==> |s.trace| < |res.0.trace| && res.0.trace[..|s.trace| + 1] == s.trace + [Navigate(target)]
    ensures !Contains(s.url, target) && sc.navigations(s.navs).NavRejected? ==>
              res == (NavStep(sc, s, Navigate(target)).0, Thrown(Plain(sc.navigations(s.navs).message)))
    ensures !Contains(s.url, target) && sc.navigations(s.navs).Landed? ==>
              res.0 == Redirects(sc, NavStep(sc, s, Navigate(target)).0, DEFAULT_REDIRECTS_LIMIT, GOTO_REDIRECT_TIMEOUT)
    ensures !Contains(s.url, target) && sc.navigations(s.navs).Landed? ==>
              (res.1 == Done <==> Contains(res.0.url, target)) &&
              (res.1 != Done ==> res.1 == Thrown(Plain(PAGE_LOADING_FAILED))) &&
              (exists w :: 1 <= w <= DEFAULT_REDIRECTS_LIMIT &&
                 res.0.trace == s.trace + [Navigate(target)] + Repeat(AwaitNavigation(Some(GOTO_REDIRECT_TIMEOUT)), w))
  {
    if Contains(s.url, target) then (s, Done)
    else
      var (s1, g) := NavStep(sc, s, Navigate(target));
      if g.Thrown? then (s1, g)
      else
        var s2 := Redirects(sc, s1, DEFAULT_REDIRECTS_LIMIT, GOTO_REDIRECT_TIMEOUT);
        assert s2.trace == s.trace + [Navigate(target)] + Repeat(AwaitNavigation(Some(GOTO_REDIRECT_TIMEOUT)), s2.navs - s1.navs);
        if Contains(s2.url, target) then (s2, Done) else (s2, Thrown(Plain(PAGE_LOADING_FAILED)))
  }

  /** `goTo(page, target)`. */
  method GoTo(page: Page, target: string) returns (r: Outcome)
    modifies page
    ensures (page.State(), r) == GoToSpec(page.script, old(page.State()), target)
  {
    if Contains(page.url, target) {
      return Done;
    }
    r := page.Goto(target);
    if r.Thrown? {
      return;
    }
    WaitForRedirects(page, None, Some(GOTO_REDIRECT_TIMEOUT));
    if !Contains(page.url, target) {
      return Thrown(Plain(PAGE_LOADING_FAILED));
    }
    return Done;
  }

  /**
   * When the load lands on `u` and no redirect follows (the first redirect wait is rejected),
   * `goTo` stays on `u` and succeeds exactly when `u` contains the target.
   */
  lemma GoToWithoutRedirect(sc: Script, s: PageState, target: string)
    requires !Contains(s.url, target) && sc.navigations(s.navs).Landed? && sc.navigations(s.navs + 1).NavRejected?
    ensures GoToSpec(sc, s, target).0.url == sc.navigations(s.navs).url
    ensures GoToSpec(sc, s, target).1.Done? <==> Contains(sc.navigations(s.navs).url, target)
  {
  }

  /**
   * When the load lands, one redirect lands on `v` and the next wait is rejected, `goTo` ends
   * on `v` and succeeds exactly when `v` contains the target.
   */
  lemma GoToAfterOneRedirect(sc: Script, s: PageState, target: string)
    requires !Contains(s.url, target) && sc.navigations(s.navs).Landed?
    requires sc.navigations(s.navs + 1).Landed? && sc.navigations(s.navs + 2).NavRejected?
    ensures GoToSpec(sc, s, target).0.url == sc.navigations(s.navs + 1).url
    ensures GoToSpec(sc, s, target).1.Done? <==> Contains(sc.navigations(s.navs + 1).url, target)
  {
    var s1 := NavStep(sc, s, Navigate(target)).0;
    RedirectWaitCount(sc, s1, DEFAULT_REDIRECTS_LIMIT, GOTO_REDIRECT_TIMEOUT);
  }

  // ---------------------------------------------------------------- checkAuth

  /** `checkAuth(page)`: is the page (after at most one navigation to the recent-files area) authenticated? */
  function CheckAuthSpec(sc: Script, s: PageState): (res: (PageState, Result<bool>))
    ensures Contains(s.url, RECENT_URL) ==> res == (s, Ok(true))
    ensures !Contains(s.url, RECENT_URL) ==>
              res.0.trace == s.trace + [Navigate(RECENT_URL)] && res.0.navs == s.navs + 1 &&
              (res.1.Failed? <==> sc.navigations(s.navs).NavRejected?)
    ensures res.1.Ok? ==> (res.1.value <==> Contains(res.0.url, RECENT_URL))
    ensures !Contains(s.url, RECENT_URL) && sc.navigations(s.navs).Landed? ==>
              res.0.url == sc.navigations(s.navs).url &&
              res.1 == Ok(Contains(sc.navigations(s.navs).url, RECENT_URL))
    ensures !Contains(s.url, RECENT_URL) && sc.navigations(s.navs).NavRejected? ==>
              res.0.url == s.url && res.1 == Failed(Plain(sc.navigations(s.navs).message))
  {
    if Contains(s.url, RECENT_URL) then (s, Ok(true))
    else
      var (t, g) := NavStep(sc, s, Navigate(RECENT_URL));
      if g.Thrown? then (t, Failed(g.error)) else (t, Ok(Contains(t.url, RECENT_URL)))
  }

  /** Once `checkAuth` has answered true, asking again answers true without navigating. */
  lemma CheckAuthStable(sc: Script, s: PageState)
    requires CheckAuthSpec(sc, s).1 == Ok(true)
    ensures CheckAuthSpec(sc, CheckAuthSpec(sc, s).0) == (CheckAuthSpec(sc, s).0, Ok(true))
  {
  }

  /** `checkAuth(page)`. */
  method CheckAuth(page: Page) returns (r: Result<bool>)
    modifies page
    ensures (page.State(), r) == CheckAuthSpec(page.script, old(page.State()))
  {
    if Contains(page.url, RECENT_URL) {
      return Ok(true);
    }
    var g := page.Goto(RECENT_URL);
    if g.Thrown? {
      return Failed(g.error);
    }
    return Ok(Contains(page.url, RECENT_URL));
  }

  // ---------------------------------------------------------------- goToFilePage / goToProjectPage / goToTeamPage

  function FilePageUrl(fileId: string): string { FILE_URL_BASE + fileId }
  function ProjectPageUrl(projectId: string): string { PROJECT_URL_BASE + projectId }
  function TeamPageUrl(teamId: string): string { TEAM_URL_BASE + teamId }

  function FileLoadingFailed(fileId: string): string { "File with id \"" + fileId + "\" page loading failed!" }
  function ProjectLoadingFailed(projectId: string): string { "Project with id \"" + projectId + "\" page loading failed!" }
  function TeamLoadingFailed(teamId: string): string { "Team with id \"" + teamId + "\" page loading failed!" }

  /** Distinct ids give distinct page URLs, so every wrapper targets exactly one page. */
  lemma PageUrlsInjective(a: string, b: string)
    ensures FilePageUrl(a) == FilePageUrl(b) ==> a == b
    ensures ProjectPageUrl(a) == ProjectPageUrl(b) ==> a == b
    ensures TeamPageUrl(a) == TeamPageUrl(b) ==> a == b
  {
    if FilePageUrl(a) == FilePageUrl(b) {
      assert a == FilePageUrl(a)[|FILE_URL_BASE|..];
    }
    if ProjectPageUrl(a) == ProjectPageUrl(b) {
      assert a == ProjectPageUrl(a)[|PROJECT_URL_BASE|..];
    }
    if TeamPageUrl(a) == TeamPageUrl(b) {
      assert a == TeamPageUrl(a)[|TEAM_URL_BASE|..];
    }
  }

  /**
   * `goTo(page, url)` whose failure, whatever its message, is replaced by `Error(message)`.
   * This is the shared shape of the three page wrappers.
   */
  function GoToOrFail(sc: Script, s: PageState, url: string, message: string): (res: (PageState, Outcome))
    ensures res.0 == GoToSpec(sc, s, url).0
    ensures res.1.Done? <==> GoToSpec(sc, s, url).1.Done?
    ensures res.1.Done? ==> Contains(res.0.url, url)
    ensures res.1.Thrown? ==> res.1.error == Plain(message)
  {
    var (t, g) := GoToSpec(sc, s, url);
    if g.Thrown? then (t, Thrown(Plain(message))) else (t, Done)
  }

  /** `goToFilePage(page, fileId)`. */
  method GoToFilePage(page: Page, fileId: string) returns (r: Outcome)
    modifies page
    ensures (page.State(), r) == GoToOrFail(page.script, old(page.State()), FilePageUrl(fileId), FileLoadingFailed(fileId))
  {
    r := GoTo(page, FILE_URL_BASE + fileId);
    if r.Thrown? {
      r := Thrown(Plain(FileLoadingFailed(fileId)));
    }
  }

  /** `goToProjectPage(page, projectId)`. */
  method GoToProjectPage(page: Page, projectId: string) returns (r: Outcome)
    modifies page
    ensures (page.State(), r) == GoToOrFail(page.script, old(page.State()), ProjectPageUrl(projectId), ProjectLoadingFailed(projectId))
  {
    r := GoTo(page, PROJECT_URL_BASE + projectId);
    if r.Thrown? {
      r := Thrown(Plain(ProjectLoadingFailed(projectId)));
    }
  }

  /** `goToTeamPage(page, teamId)`. */
  method GoToTeamPage(page: Page, teamId: string) returns (r: Outcome)
    modifies page
    ensures (page.State(), r) == GoToOrFail(page.script, old(page.State()), TeamPageUrl(teamId), TeamLoadingFailed(teamId))
  {
    r := GoTo(page, TEAM_URL_BASE + teamId);
    if r.Thrown? {
      r := Thrown(Plain(TeamLoadingFailed(teamId)));
    }
  }
}
