/**
 * The `Bot` class: its fields, the process-wide session data, and the cookie provider, with each
 * method proved to follow the run's specification functions.
 */
module Orchestrator {
  import opened Wrappers
  import opened Strings
  import opened Errors
  import opened Driver
  import opened Site
  import opened Navigation
  import opened Elements
  import opened LoginForm
  import opened LocalCopy
  import opened Authentication
  import opened Backup

  /** `SESSION_DATA`: cookies cached by the last successful login, and the date the run started. */
  class SessionData {
    var cookies: Option<seq<Cookie>>
    var date: Option<string>

    constructor ()
      ensures cookies == None && date == None
    {
      cookies, date := None, None;
    }
  }

  /** The file-system cookie provider: the cookie file's content, `None` when it is missing or unreadable. */
  class CookiesProvider {
    var file: Option<seq<Cookie>>

    constructor (file: Option<seq<Cookie>>)
      ensures this.file == file
    {
      this.file := file;
    }

    /** `getCookies()`: the stored cookies; a missing or corrupt file reads as nothing. */
    method GetCookies() returns (c: Option<seq<Cookie>>)
      ensures c == file
    {
      c := file;
    }

    /** `setCookies(cookies)`: the file now holds exactly these cookies. */
    method SetCookies(cookies: seq<Cookie>)
      modifies this
      ensures file == Some(cookies)
    {
      file := Some(cookies);
    }

    /** Deleting the cookie file. */
    method Remove()
      modifies this
      ensures file == None
    {
      file := None;
    }
  }

  class Bot {
    const authData: AuthData
    const projectsIds: seq<string>
    const figmaAccessToken: string
    const settings: Settings
    const platform: string
    const fetchProject: (string, string) -> Result<Project>
    const session: SessionData
    const cookiesProvider: CookiesProvider
    var browser: Browser?
    /** The steps of the runs so far, in order. */
    ghost var history: seq<Milestone>

    /**
     * `new Bot(options)`, sharing `session` with every other bot of the process; `cookieFile` is
     * what the cookie file holds, `platform` is `process.platform`, and `fetchProject` answers
     * the catalog requests.
     */
    constructor (options: BotOptions, session: SessionData, cookieFile: Option<seq<Cookie>>, platform: string,
                 fetchProject: (string, string) -> Result<Project>)
      ensures settings == Configure(options)
      ensures authData == options.authData && projectsIds == options.projectsIds
      ensures figmaAccessToken == options.figmaAccessToken
      ensures this.session == session && this.platform == platform && this.fetchProject == fetchProject
      ensures fresh(cookiesProvider) && cookiesProvider.file == cookieFile
      ensures browser == null && history == []
    {
      authData, projectsIds, figmaAccessToken := options.authData, options.projectsIds, options.figmaAccessToken;
      settings := Configure(options);
      this.platform, this.fetchProject, this.session := platform, fetchProject, session;
      cookiesProvider := new CookiesProvider(cookieFile);
      browser := null;
      history := [];
    }

    /** The two cookie stores as they stand. */
    function CookieStores(): Stores
      reads session, cookiesProvider
    {
      Stores(cookiesProvider.file, session.cookies)
    }

    /** The inputs of a run in `browser`, begun on `date`. */
    function EnvFor(pageScripts: nat -> Script, date: string): Env
    {
      Env(settings, platform, date, figmaAccessToken, fetchProject, pageScripts)
    }

    /** The inputs of the current run. */
    function CurrentEnv(): Env
      reads this, browser, session
      requires browser != null && session.date.Some?
    {
      EnvFor(browser.pageScripts, session.date.value)
    }

    /** `_login(page)`. */
    method Login(page: Page) returns (r: Outcome)
      modifies page, session, cookiesProvider
      ensures var (t, l) := LoginSpec(page.script, old(page.State()), authData, settings.interactionDelay, settings.typingDelay);
              && page.State() == t
              && r == (if l.LoginFailed? then Thrown(l.error) else Done)
              && CookieStores() == AfterLogin(old(CookieStores()), l)
      ensures session.date == old(session.date)
    {
      ghost var s0 := page.State();
      r := page.Goto(LOGIN_URL);
      if r.Thrown? {
        return;
      }
      if Contains(page.url, RECENT_URL) {
        return Done;
      }
      ghost var s1 := page.State();
      r := SubmitLoginForm(page, authData, settings.interactionDelay, settings.typingDelay);
      if r.Thrown? {
        return Thrown(NewAuthorizationError(FromError(r.error)));
      }
      r := page.WaitForNavigation(None);
      if r.Thrown? {
        return Thrown(NewAuthorizationError(FromError(r.error)));
      }
      ghost var s3 := page.State();
      assert Submit(page.script, s1, authData, settings.interactionDelay, settings.typingDelay) == Verdict(page.script, s3);
      if Contains(page.url, RECENT_URL) {
        var cookies := page.Cookies();
        session.cookies := Some(cookies);
        cookiesProvider.SetCookies(cookies);
        r := Done;
      } else if page.url == LOGIN_URL {
        var parsed := ParseLoginFormError(page);
        if parsed.Failed? {
          return Thrown(parsed.error);
        }
        r := Thrown(NewAuthorizationError(FromString(RejectionMessage(parsed.value))));
      } else {
        r := Thrown(NewAuthorizationError(FromString("Unexpectedly redirected to \"" + page.url + "\"")));
      }
    }

    /** `_authenticate(page)`. */
    method Authenticate(page: Page) returns (r: Outcome)
      modifies page, session, cookiesProvider
      ensures var (t, st, o) := AuthenticateSpec(page.script, old(page.State()), authData, settings.interactionDelay,
                                                 settings.typingDelay, old(CookieStores()));
              page.State() == t && CookieStores() == st && r == o
      ensures session.date == old(session.date)
    {
      r := Login(page);
      if r.Thrown? {
        return;
      }
      var fromFile := cookiesProvider.GetCookies();
      var cookies := if fromFile.Some? then fromFile else session.cookies;
      if cookies.None? {
        return Thrown(NewAuthorizationError(FromError(Plain(NO_CACHED_COOKIES))));
      }
      page.Perform(InstallCookies(cookies.value));
      WaitForRedirects(page, None, None);
      r := Done;
    }

    /**
     * `_backupFile(file, projectName)`: nothing at all without a browser; otherwise the file is
     * visited in the next tab as `loop` says.
     */
    method BackupFile(ghost loop: Loop, ghost env: Env, file: FileRef, projectName: string) returns (r: Outcome)
      requires browser != null ==> session.date.Some? && env == CurrentEnv() && Drives(loop, env)
      modifies this, browser
      ensures browser == old(browser)
      ensures old(browser) == null ==> r == Done && history == old(history)
      ensures old(browser) != null ==>
                var (trace, o) := loop.visit(projectName, old(browser.pagesOpened), file);
                && r == o
                && history == old(history) + [FileVisited(projectName, file, trace, o)]
                && browser.pagesOpened == old(browser.pagesOpened) + 1 && browser.closed == old(browser.closed)
    {
      if browser == null {
        return Done;
      }
      ghost var tab := browser.pagesOpened;
      assert loop.visit(projectName, tab, file) == VisitResult(env, projectName, tab, file);
      var page := browser.NewPage();
      r := VisitFile(env, tab, page, file, projectName);
      history := history + [FileVisited(projectName, file, page.trace, r)];
    }

    /** The body of `_backupFile` in its fresh tab: open the file page, then save a local copy. */
    method VisitFile(ghost env: Env, ghost tab: nat, page: Page, file: FileRef, projectName: string) returns (r: Outcome)
      requires session.date == Some(env.date) && env.settings == settings && env.platform == platform
      requires page.State() == Initial() && page.script == env.pageScripts(tab)
      modifies page
      ensures (page.trace, r) == VisitResult(env, projectName, tab, file)
    {
      r := GoToFilePage(page, file.id);
      if r.Thrown? {
        return;
      }
      page.Perform(Pause(settings.interactionDelay));
      r := page.WaitForFunction();
      if r.Thrown? {
        return;
      }
      page.Perform(Pause(settings.interactionDelay));
      page.Perform(AllowDownloads(DownloadPath(BACKUP_DIR, session.date.value, projectName)));
      var _ := SaveLocalCopy(page, platform, settings.interactionDelay, settings.typingDelay, settings.downloadTimeout);
      r := Done;
    }

    /** The `for` loop of `_backupProject`: back up `files` in order, stopping at the first failure. */
    method BackupFiles(ghost loop: Loop, ghost env: Env, projectName: string, files: seq<FileRef>) returns (r: Outcome)
      requires browser != null && session.date.Some? && env == CurrentEnv() && Drives(loop, env)
      modifies this, browser
      ensures browser == old(browser)
      ensures var p := FilesSpec(loop, old(browser.pagesOpened), projectName, files);
              && r == p.outcome
              && history == old(history) + p.milestones
              && browser.pagesOpened == p.tabs && browser.closed == old(browser.closed)
    {
      ghost var goal := FilesSpec(loop, browser.pagesOpened, projectName, files);
      ghost var rest := goal;
      ghost var h0 := history;
      ghost var done: seq<Milestone> := [];
      assert files[0..] == files;
      r := Done;
      var i := 0;
      while i < |files|
        invariant 0 <= i <= |files|
        invariant browser == old(browser) && browser.closed == old(browser.closed)
        invariant session.date == old(session.date) && CurrentEnv() == env
        invariant r == Done && history == h0 + done
        invariant rest == FilesSpec(loop, browser.pagesOpened, projectName, files[i..])
        invariant goal.tabs == rest.tabs && goal.milestones == done + rest.milestones && goal.outcome == rest.outcome
      {
        ghost var tabs := browser.pagesOpened;
        ghost var visit := loop.visit(projectName, tabs, files[i]);
        ghost var m := FileVisited(projectName, files[i], visit.0, visit.1);
        r := BackupFile(loop, env, files[i], projectName);
        FilesStep(loop, tabs, projectName, files, i);
        AppendAssociates(h0, done, [m]);
        if r.Thrown? {
          return;
        }
        ghost var next := FilesSpec(loop, tabs + 1, projectName, files[i + 1..]);
        AppendAssociates(done, [m], next.milestones);
        done, rest := done + [m], next;
        i := i + 1;
      }
      assert files[i..] == [];
    }

    /** `_backupProject(projectId)`: fetch the project, then back up its files in catalog order. */
    method BackupProject(ghost loop: Loop, ghost env: Env, projectId: string) returns (r: Outcome)
      requires browser != null && session.date.Some? && env == CurrentEnv() && Drives(loop, env)
      modifies this, browser
      ensures browser == old(browser)
      ensures var p := ProjectSpec(loop, old(browser.pagesOpened), projectId);
              && r == p.outcome
              && history == old(history) + p.milestones
              && browser.pagesOpened == p.tabs && browser.closed == old(browser.closed)
    {
      var project := fetchProject(projectId, figmaAccessToken);
      assert project == loop.fetch(projectId);
      if project.Failed? {
        return Thrown(project.error);
      }
      var projectName := project.value.name;
      var files := FileRefs(project.value.files);
      history := history + [ProjectFetched(projectId, projectName)];
      r := BackupFiles(loop, env, projectName, files);
    }

    /** The `for` loop of `_backupProjects`: back up the projects in order, stopping at the first failure. */
    method BackupProjectList(ghost loop: Loop, ghost env: Env) returns (r: Outcome)
      requires browser != null && session.date.Some? && env == CurrentEnv() && Drives(loop, env)
      modifies this, browser
      ensures browser == old(browser)
      ensures var p := ProjectsSpec(loop, old(browser.pagesOpened), projectsIds);
              && r == p.outcome
              && history == old(history) + p.milestones
              && browser.pagesOpened == p.tabs && browser.closed == old(browser.closed)
    {
      ghost var goal := ProjectsSpec(loop, browser.pagesOpened, projectsIds);
      ghost var rest := goal;
      ghost var h0 := history;
      ghost var done: seq<Milestone> := [];
      assert projectsIds[0..] == projectsIds;
      r := Done;
      var i := 0;
      while i < |projectsIds|
        invariant 0 <= i <= |projectsIds|
        invariant browser == old(browser) && browser.closed == old(browser.closed)
        invariant session.date == old(session.date) && CurrentEnv() == env
        invariant r == Done && history == h0 + done
        invariant rest == ProjectsSpec(loop, browser.pagesOpened, projectsIds[i..])
        invariant goal.tabs == rest.tabs && goal.milestones == done + rest.milestones && goal.outcome == rest.outcome
      {
        ghost var tabs := browser.pagesOpened;
        ghost var first := ProjectSpec(loop, tabs, projectsIds[i]);
        r := BackupProject(loop, env, projectsIds[i]);
        ProjectsStep(loop, tabs, projectsIds, i);
        AppendAssociates(h0, done, first.milestones);
        if r.Thrown? {
          return;
        }
        ghost var next := ProjectsSpec(loop, first.tabs, projectsIds[i + 1..]);
        AppendAssociates(done, first.milestones, next.milestones);
        done, rest := done + first.milestones, next;
        i := i + 1;
      }
      assert projectsIds[i..] == [];
    }

    /** `stop()`: close the browser if there is one, and forget it; stopping again changes nothing. */
    method Stop()
      modifies this, browser
      ensures browser == null && history == old(history)
      ensures old(browser) != null ==> old(browser).closed && old(browser).pagesOpened == old(browser.pagesOpened)
    {
      if browser != null {
        browser.Close();
      }
      browser := null;
    }

    /**
     * `_backupProjects()`: nothing without a browser; otherwise authenticate on its first tab,
     * back up the projects in order (as `loop` says), and on the first failure stop and throw a
     * BackupError.
     */
    method BackupProjects(ghost loop: Loop, ghost env: Env) returns (r: Outcome)
      requires browser != null ==> session.date.Some? && env == CurrentEnv() && Drives(loop, env)
      modifies this, browser, session, cookiesProvider, if browser == null then {} else {browser.firstPage}
      ensures session.date == old(session.date)
      ensures old(browser) == null ==>
                r == Done && browser == null && history == old(history) && CookieStores() == old(CookieStores())
      ensures old(browser) != null ==>
                var (t, st, p) := RunSpec(loop, settings, old(browser.pagesOpened), old(browser.firstPage.script),
                                          old(browser.firstPage.State()), authData, old(CookieStores()), projectsIds);
                && old(browser).firstPage.State() == t
                && CookieStores() == st
                && r == p.outcome
                && history == old(history) + p.milestones
                && old(browser).pagesOpened == p.tabs
                && (r.Done? ==> browser == old(browser) && browser.closed == old(browser.closed))
                && (r.Thrown? ==> browser == null && old(browser).closed)
    {
      if browser == null {
        return Done;
      }
      var page := browser.firstPage;
      r := Authenticate(page);
      if r.Thrown? {
        Stop();
        return Thrown(NewBackupError(FromError(r.error)));
      }
      ghost var h0 := old(history);
      ghost var p := ProjectsSpec(loop, browser.pagesOpened, projectsIds);
      history := history + [Authenticated];
      r := BackupProjectList(loop, env);
      AppendAssociates(h0, [Authenticated], p.milestones);
      if r.Thrown? {
        Stop();
        return Thrown(NewBackupError(FromError(r.error)));
      }
    }

    /**
     * `start()` with `launched` as the browser puppeteer launches and `now` as the clock's ISO
     * reading: record the date, delete the cookie file, and run the backup.
     */
    method Start(launched: Browser, now: string) returns (r: Outcome)
      modifies this, session, cookiesProvider, launched, launched.firstPage
      ensures session.date == Some(now)
      ensures var (t, st, p) := RunSpec(LoopOf(EnvFor(launched.pageScripts, now)), settings, old(launched.pagesOpened),
                                        launched.firstPage.script, old(launched.firstPage.State()),
                                        authData, Stores(None, old(session.cookies)), projectsIds);
              && launched.firstPage.State() == t
              && CookieStores() == st
              && r == p.outcome
              && history == old(history) + p.milestones
              && launched.pagesOpened == p.tabs
              && (r.Done? <==> browser == launched)
              && (r.Done? ==> launched.closed == old(launched.closed))
              && (r.Thrown? ==> browser == null && launched.closed)
    {
      browser := launched;
      session.date := Some(now);
      cookiesProvider.Remove();
      ghost var env := EnvFor(launched.pageScripts, now);
      LoopOfDrives(env);
      r := BackupProjects(LoopOf(env), env);
    }
  }

  /** Regrouping the history; stated once so that the loop bodies never reason about sequence equality. */
  lemma AppendAssociates(a: seq<Milestone>, b: seq<Milestone>, c: seq<Milestone>)
    ensures (a + b) + c == a + (b + c)
  {
  }
}
