# figma-backup bot, modelled in Dafny

The figma-backup bot logs into the Figma web application with a headless browser. It then downloads a
local copy of every file of the projects it is given. This project models that bot:

- the `Bot` class: its option defaults, the login, cookie caching and authentication, the
  project and file loops, `start` and `stop`;
- the browser helpers it relies on: `waitForRedirects`, `goTo`, the three page wrappers, `checkAuth`,
  `findElementHandle`, `parseLoginFormError`, `submitLoginForm`, `saveLocalCopy`;
- its two error classes;
- the interactive wizard's prompt validators and its conversion of the answers into bot options.

The browser is abstract (module `Driver`). A page has a URL and an append-only trace of the actions
the bot issued on it. What the remote site answers is an oracle (`Script`) fixed when the tab is opened:
- the i-th navigation lands on a URL or is rejected;
- the i-th element wait or click resolves or is rejected;
- the i-th network-idle wait reaches idleness or times out;
- element queries return the matching elements.

Given the oracles, every run is deterministic. Each helper is specified twice:
- a pure function of the oracle and the page state (`GoToSpec`, `SubmitLoginFormSpec`, …), whose
  contracts and lemmas state what the helper promises;
- an imperative method on the `Page` object, proved equal to that function.

The `Bot` class (module `Orchestrator`) does the same at the top. Its methods update the browser, the
process-wide session data, the cookie file and a ghost history of the run's steps. They are proved
to follow `RunSpec` (module `Backup`), about which the ordering and failure properties are proved.

Modules:
- `Wrappers`, `Strings`: the Option type and the string operations the code uses.
- `Errors`, `Site`, `Driver`: the error classes, the fixed URLs and selectors, and the abstract browser.
- `Elements`, `Navigation`, `LoginForm`, `LocalCopy`: the helpers under `bin/utils`.
- `Authentication`, `Backup`, `Orchestrator`: `bin/Bot.ts`.
- `Wizard`: `bin/index.interactive.ts`.

## Model

| member | source | states |
|---|---|---|
| Errors.CauseError | bin/errors/AuthorizationError.ts:12 | The wrapped error is the given error itself, or a new plain error carrying the given string. |
| Errors.NewAuthorizationError | bin/errors/AuthorizationError.ts:4-17 | Name is "AuthorizationError". The message is "Authorization failed \| " followed by the wrapped error's message. `getError()` returns the given error, or `Error(s)` for a string. |
| Errors.NewBackupError | bin/errors/BackupError.ts:4-15 | Name is "BackupError". The message is "Backup failed \| " followed by the wrapped error's message. `getError()` returns the given error, or `Error(s)` for a string. |
| Errors.WrapUnwrap | bin/errors/AuthorizationError.ts:4-17 | For either wrapper, `getError()` gives back an error whose message is the given text, and the wrapper's message is the prefix followed by that text. |
| Errors.WrappingLengthens | bin/errors/BackupError.ts:4-15 | A wrapper's message is strictly longer than the text it wraps. |
| Errors.BackupOfAuthorization | bin/Bot.ts:241-249 | An authorization failure escaping the run reads "Backup failed \| Authorization failed \| " followed by the reason. |
| Strings.Split | bin/index.interactive.ts:116 | Splitting at a separator yields one piece per separator plus one, and no piece contains the separator. |
| Strings.JoinSplit | bin/index.interactive.ts:116 | Joining the pieces of a split with the separator gives back the original string. |
| Strings.SplitJoin | bin/index.interactive.ts:116 | A non-empty list of separator-free pieces survives a join followed by a split. |
| Strings.SplitNoSeparator | bin/index.interactive.ts:116 | A string without the separator splits into itself alone. |
| Strings.ToLower | bin/index.interactive.ts:46 | Lower-casing keeps the length and leaves no capital letter. Each capital becomes its small letter, and every other character is kept. |
| Strings.ToLowerIdempotent | bin/index.interactive.ts:46 | Lower-casing twice is lower-casing once, and a string without capitals is unchanged. |
| Elements.SelectorClause | bin/utils/findElementHandle.ts:45-49 | The "that matches selector" clause is empty exactly for the empty selector. An absent selector is printed as "undefined". |
| Elements.LastMatching | bin/utils/findElementHandle.ts:20-38 | None exactly when no candidate matches. Otherwise the result is a matching candidate that no later candidate matches (the last match wins). |
| Elements.LastMatch | bin/utils/findElementHandle.ts:22-38 | The scanning loop, in which every match overwrites the target, returns `LastMatching`. |
| Elements.FindElementSpec | bin/utils/findElementHandle.ts:8-50 | A selector wait is issued only for a non-empty selector; its timeout fails with "Element that matches selector … not found.". Once the wait resolved (or none was needed), the call succeeds iff some element of `selector \|\| "*"` matches the pattern (then it returns the last match), or, without a pattern, iff there is any element (then it returns the first). When nothing is found the error is "Element… with innerHTML … not found.". URL and navigations are untouched, and one reply is consumed exactly when a selector wait is issued. |
| Elements.FindElementHandle | bin/utils/findElementHandle.ts:8-50 | The method on a page ends in the state and result `FindElementSpec` gives. |
| Elements.LoginFormError | bin/utils/parseLoginFormError.ts:13-22 | "Invalid email" iff the email input's class contains "invalidInput"; "Invalid password" iff only the password input's does; null iff neither does. |
| Elements.ParseLoginFormErrorSpec | bin/utils/parseLoginFormError.ts:4-23 | A failed lookup of the email input escapes unchanged, and so does a failed lookup of the password input after it. When both are found, the answer is `LoginFormError` of their classes. On success both inputs were awaited in order. URL and navigations are untouched. |
| Elements.ParseLoginFormError | bin/utils/parseLoginFormError.ts:4-23 | The method on a page ends in the state and result `ParseLoginFormErrorSpec` gives. |
| LoginForm.FormActionsShape | bin/utils/submitLoginForm.ts:17-35 | A full submission has ten actions: five waits of `interactionDelay`, three clicks, and two typing actions at `typingDelay` that type the email and then the password. The submit click comes last. |
| LoginForm.FormActionsCount | bin/utils/submitLoginForm.ts:17-35 | For any property of actions, the number of form actions having it, counted action by action. |
| LoginForm.FormActionsTyped | bin/utils/submitLoginForm.ts:23-31 | The texts typed are exactly the email, then the password. |
| LoginForm.FillField | bin/utils/submitLoginForm.ts:17-23 | Wait, then click. A rejected click throws the driver's error right after it. Otherwise wait and type the text. Exactly one reply is consumed. |
| LoginForm.SubmitLoginFormSpec | bin/utils/submitLoginForm.ts:10-36 | The trace grows by the prefix of the ten form actions that ends at the first rejected click (2, 6 or 10 actions), with one reply consumed per click. The call succeeds iff all three clicks resolve, and a failure carries the rejected click's error. URL and navigations are untouched. |
| LoginForm.SubmitLoginForm | bin/utils/submitLoginForm.ts:10-36 | The method on a page ends in the state and result `SubmitLoginFormSpec` gives. |
| LocalCopy.ModifierKey | bin/utils/saveLocalCopy.ts:26-27 | "Meta" iff the platform is "darwin", "Control" otherwise. |
| LocalCopy.TimeoutSeconds | bin/utils/saveLocalCopy.ts:80-82 | The seconds in the timeout message are `Math.round(downloadTimeout / 1000)`, with halves rounded up. |
| LocalCopy.LocalCopyCloses | bin/utils/saveLocalCopy.ts:33-88 | The page is closed once per failed lookup plus once in `finally`: one to three times. |
| LocalCopy.LocalCopyEnds | bin/utils/saveLocalCopy.ts:85-88 | Whatever the lookups found, the call ends by waiting twice the interaction delay and closing the page. |
| LocalCopy.LocalCopyCommand | bin/utils/saveLocalCopy.ts:44-68 | "save local copy" is typed exactly once, at the typing delay, and confirmed by exactly one Enter after it. The idle wait uses the download timeout and a quiet window of 5000 ms plus the interaction delay. |
| LocalCopy.Lookup | bin/utils/saveLocalCopy.ts:33-42 | A palette lookup waits for its selector with the interaction delay as timeout. A timeout adds a wait and a close and is otherwise swallowed. |
| LocalCopy.Confirm | bin/utils/saveLocalCopy.ts:59-88 | Enter, the idle wait, then the `finally` wait and close. The report is "downloaded" iff idleness was reached, else a timeout of the rounded seconds. |
| LocalCopy.SaveLocalCopySpec | bin/utils/saveLocalCopy.ts:15-89 | The trace grows by the chord, the command and the confirmation, with the give-up steps of each failed lookup. Two replies and one idle answer are consumed, and the call never fails. |
| LocalCopy.SaveLocalCopy | bin/utils/saveLocalCopy.ts:15-89 | The method on a page ends in the state and report `SaveLocalCopySpec` gives. |
| Navigation.RedirectsUntilShape | bin/utils/waitForRedirects.ts:11-16 | The redirect waits only move the URL and the navigation count, and append one navigation wait per answer consumed. They stop early only right after a rejected answer. |
| Navigation.RedirectsUntilUrl | bin/utils/waitForRedirects.ts:11-16 | The page ends on the URL of the last answer that landed: the final answer if it landed, else the one before the final rejection. With no landed answer it keeps its URL. |
| Navigation.Redirects | bin/utils/waitForRedirects.ts:8-17 | At most `limit` waits and at least one when `limit > 0`. All but the last landed; stopping before the limit means the last was rejected. A rejection is swallowed. The page ends on the URL of the last landed answer, or keeps its URL when none landed. |
| Navigation.RedirectWaitCount | bin/utils/waitForRedirects.ts:11-16 | The number of waits is min(limit, landings before the first rejection + 1), and 0 for a non-positive limit. |
| Navigation.RedirectsUnfold | bin/utils/waitForRedirects.ts:11-16 | One turn of the loop: a rejected wait ends it, a landed one leaves `limit - 1` waits. |
| Navigation.WaitForRedirects | bin/utils/waitForRedirects.ts:8-17 | The loop, with defaults 10 waits and 7000 ms, ends in the state `Redirects` gives. |
| Navigation.GoToSpec | bin/utils/goTo.ts:4-11 | Nothing happens when the URL already contains the target. Otherwise the target is loaded; a rejected load fails with the driver's error. After the load, the page is the one `Redirects` leaves with 10 waits of 5000 ms, so it is on the URL of the last landed answer. Success holds iff that URL contains the target; otherwise the error is "Page loading failed.". |
| Navigation.GoTo | bin/utils/goTo.ts:4-11 | The method on a page ends in the state and outcome `GoToSpec` gives. |
| Navigation.GoToWithoutRedirect | bin/utils/goTo.ts:7-10 | When the load lands on a URL and no redirect follows, `goTo` stays there and succeeds iff that URL contains the target. |
| Navigation.GoToAfterOneRedirect | bin/utils/goTo.ts:7-10 | When the load lands and one redirect lands on a URL before the next wait is rejected, `goTo` ends on that URL and succeeds iff it contains the target. |
| Navigation.CheckAuthSpec | bin/utils/checkAuth.ts:5-16 | True without navigating when the URL shows the recent files. Otherwise one navigation there. When it lands, the page is on the landed URL and the answer is whether that URL shows the recent files. When it is rejected, the page keeps its URL and the call fails with the driver's error. |
| Navigation.CheckAuthStable | bin/utils/checkAuth.ts:5-16 | After `checkAuth` answered true, asking again answers true and issues nothing. |
| Navigation.CheckAuth | bin/utils/checkAuth.ts:5-16 | The method on a page ends in the state and result `CheckAuthSpec` gives. |
| Navigation.PageUrlsInjective | bin/utils/goToFilePage.ts:4-10 | Distinct ids give distinct file, project and team page URLs. |
| Navigation.GoToOrFail | bin/utils/goToFilePage.ts:4-10 | Same page state as `goTo`, and success iff `goTo` succeeds (then the URL contains the page URL). Any failure becomes the wrapper's own message. |
| Navigation.GoToFilePage | bin/utils/goToFilePage.ts:4-10 | `goTo` on the file URL; any failure becomes `File with id "<id>" page loading failed!`. |
| Navigation.GoToProjectPage | bin/utils/goToProjectPage.ts:4-10 | `goTo` on the project URL; any failure becomes `Project with id "<id>" page loading failed!`. |
| Navigation.GoToTeamPage | bin/utils/goToTeamPage.ts:4-10 | `goTo` on the team URL; any failure becomes `Team with id "<id>" page loading failed!`. |
| Authentication.ClassifyLanding | bin/Bot.ts:122-139 | Three disjoint cases: the URL contains the recent-files URL; else it equals the login URL; else anywhere else. |
| Authentication.LoginUrlIsAtLogin | bin/Bot.ts:132 | The login page itself falls in the login case: it cannot contain the longer recent-files URL. |
| Authentication.RejectionMessage | bin/Bot.ts:134 | The parsed form error, or "unknown error" when there is none. |
| Authentication.Verdict | bin/Bot.ts:122-139 | Logged in iff the URL shows the recent files, and then the cookies are the page's. On the login page the error is exactly `new AuthorizationError(parsed error or "unknown error")`, so its message is "Authorization failed \| " followed by that text. A failure of the parsing itself escapes unwrapped. Anywhere else the error is exactly `new AuthorizationError("Unexpectedly redirected to \"<url>\"")`, whose `getError()` is the plain error with that text. |
| Authentication.Submit | bin/Bot.ts:106-120 | A failure of the form submission or of the navigation wait is wrapped in an AuthorizationError. Otherwise `Verdict` decides. |
| Authentication.LoginSpec | bin/Bot.ts:91-140 | The login page is loaded first, and a failed load escapes as it is. If that already shows the recent files, the login stops with nothing cached and nothing else issued. Otherwise the form is submitted. |
| Authentication.LoggedInTrace | bin/Bot.ts:91-140 | A successful login issued exactly the page load, the ten form actions and one navigation wait, and it caches the page's cookies. |
| Authentication.AfterLogin | bin/Bot.ts:125-131 | A successful login writes the same cookies to the session cache and the cookie file. Any other outcome leaves both untouched. |
| Authentication.CookiesToRestore | bin/Bot.ts:149-150 | The cookie file's cookies take precedence over the session cache. |
| Authentication.Restore | bin/Bot.ts:147-163 | With no cookies to restore, the error is AuthorizationError wrapping `Error("No cached cookies found.")`. Otherwise the cookies are installed and up to 10 redirects of 7000 ms are awaited. |
| Authentication.AuthenticateSpec | bin/Bot.ts:142-164 | Always log in first, and a login failure escapes as it is. Then restore cookies from the stores as the login left them. |
| Authentication.FreshLoginRestoresPageCookies | bin/Bot.ts:142-164 | After a successful login, authentication succeeds and installs exactly the cookies the login read from the page. |
| Authentication.AlreadyLoggedInWithEmptyStores | bin/Bot.ts:98-104 | With both stores empty, a login page that already shows the recent files makes authentication fail with "Authorization failed \| No cached cookies found.". |
| Backup.Configure | bin/Bot.ts:68-89 | Each omitted option takes its default (debug false, 2000 ms, 30000 ms, 100 ms). Each supplied one, zero included, is kept. |
| Backup.FileRefs | bin/Bot.ts:227-230 | The file records keep the catalog's order and length; each takes the file's name and its key as id. |
| Backup.SaveFile | bin/Bot.ts:186-214 | Wait, then wait for the progress bar to go; that wait's failure ends the step with its error. Otherwise wait, allow downloads into `<backup dir>/<run date>/<project name>`, then save a local copy, which never fails. The URL and navigations are untouched; a failure consumes one reply, a success three replies and one idle answer. |
| Backup.BackupFileSpec | bin/Bot.ts:166-215 | In a fresh tab, open the file page; a failure ends the step with `File with id "<id>" page loading failed!`. Otherwise save the file. |
| Backup.FilesSpec | bin/Bot.ts:232 | The file loop opens one tab per file visited, visits at most all files, and visits all of them iff it succeeds. A failure means at least one visit took place. The per-file order is in `FilesInOrder`. |
| Backup.ProjectsSpec | bin/Bot.ts:244-245 | The project loop never closes tabs: the tab count only grows. The order of fetches is in `ProjectsInOrder`. |
| Backup.RunSpec | bin/Bot.ts:235-250 | Tabs only grow; a failure is always a BackupError; the first step, if any, is the authentication. The ordering is in `RunOrder`. |
| Backup.ProjectSpec | bin/Bot.ts:217-233 | A failed catalog fetch ends the step with that error. Otherwise the fetch is recorded, then the files are visited in catalog order. |
| Backup.FilesInOrder | bin/Bot.ts:232 | The files are visited in order, each in the next fresh tab, under the project's name. A loop without failure visits them all. |
| Backup.FilesStopAtFailure | bin/Bot.ts:232 | Every visit before the last succeeded. A failure is the last visit and the loop's outcome. |
| Backup.ProjectsInOrder | bin/Bot.ts:244-245 | The fetched project ids are a prefix of the configured ids, all of them when the loop succeeds. |
| Backup.ProjectsAppend | bin/Bot.ts:244-245 | The loop over `a + b` is the loop over `a`, then, unless that failed, the loop over `b` in the tabs that follow. |
| Backup.ProjectsLastFailure | bin/Bot.ts:244-245 | In the project loop, a failed file visit is the last step and the loop's outcome. |
| Backup.RunOrder | bin/Bot.ts:241-245 | Authentication comes first, and a failed authentication takes no other step. Projects are then fetched in the order given, all of them on success. |
| Backup.RunFailureIsWrapped | bin/Bot.ts:246-249 | Whatever fails, the run throws a BackupError wrapping that very error, with message "Backup failed \| " followed by the error's message. |
| Backup.FileNavigationFailureAbortsRun | bin/Bot.ts:180 | A file page that fails to load is the last step of the run, which throws the BackupError wrapping its error. |
| Orchestrator.SessionData.constructor | bin/Bot.ts:52 | The session starts with no cookies and no date. |
| Orchestrator.CookiesProvider.GetCookies | bin/FileSystemCookiesProvider.ts:12-19 | The stored cookies; a missing or unreadable file reads as nothing. |
| Orchestrator.CookiesProvider.SetCookies | bin/FileSystemCookiesProvider.ts:21-23 | The file then holds exactly the given cookies. |
| Orchestrator.CookiesProvider.Remove | bin/Bot.ts:261 | The cookie file is gone. |
| Orchestrator.Bot.constructor | bin/Bot.ts:68-89 | The settings are `Configure(options)`; credentials, ids and token are kept; there is no browser yet. |
| Orchestrator.Bot.Login | bin/Bot.ts:91-140 | The page ends as `LoginSpec` says. It throws iff the login failed, and the cookie stores are as `AfterLogin` leaves them. |
| Orchestrator.Bot.Authenticate | bin/Bot.ts:142-164 | Page, cookie stores and outcome are those of `AuthenticateSpec`. |
| Orchestrator.Bot.BackupFile | bin/Bot.ts:166-215 | Without a browser nothing happens. Otherwise exactly one tab is opened and visited as the run's file visit says, and the visit is appended to the history. |
| Orchestrator.Bot.VisitFile | bin/Bot.ts:180-214 | The fresh tab ends with the trace, and the call with the outcome, of `BackupFileSpec`. |
| Orchestrator.Bot.BackupFiles | bin/Bot.ts:232 | Outcome, history and tabs opened are those of `FilesSpec`. |
| Orchestrator.Bot.BackupProject | bin/Bot.ts:217-233 | Outcome, history and tabs opened are those of `ProjectSpec`. |
| Orchestrator.Bot.BackupProjectList | bin/Bot.ts:244-245 | Outcome, history and tabs opened are those of the project loop `ProjectsSpec`. |
| Orchestrator.Bot.Stop | bin/Bot.ts:269-274 | The browser, if any, is closed and forgotten; the history is unchanged. |
| Orchestrator.Bot.BackupProjects | bin/Bot.ts:235-250 | Without a browser nothing happens. Otherwise the first tab, the cookie stores, the outcome and the history follow `RunSpec`. On failure the bot is stopped (browser closed and forgotten). |
| Orchestrator.Bot.Start | bin/Bot.ts:252-267 | The run date is recorded and the cookie file deleted. The run then follows `RunSpec` over the launched browser, with only the session cache as a cookie source. The launched browser opens exactly the tabs `RunSpec` counts. The bot keeps the browser iff the run succeeds, and after a success the browser is still open. |
| Wizard.ValidateEmail | bin/index.interactive.ts:42-50 | "This argument is required!" iff empty. "Email address is invalid!" iff non-empty and the lower-cased value fails the e-mail check. Accepted iff non-empty and it passes. |
| Wizard.RequireValue | bin/index.interactive.ts:56-60 | Accepted iff non-empty; the rejection is "This argument is required!". |
| Wizard.EmailImpliesRequired | bin/index.interactive.ts:42-69 | An accepted e-mail is a non-empty answer, and the e-mail prompt reports "required" exactly when the other prompts do. |
| Wizard.ToBotOptions | bin/index.interactive.ts:113-120 | The credentials and token are carried over. The ids are the pieces of the answer split at every space; they contain no space and join back to the answer. The timeout is in whole minutes of milliseconds and the interaction delay in whole seconds of milliseconds. The typing delay is kept and debug is left out. |
| Wizard.WizardSettings | bin/index.interactive.ts:113-120 | The bot then keeps timeout × 60000, delay × 1000 and the typing delay, with debug off; none of its own defaults applies. |
| Wizard.WizardDefaults | bin/index.interactive.ts:84-119 | The prompt defaults of 5 minutes, 2 seconds and 100 ms reach the bot as 300000, 2000 and 100 ms. |
| Wizard.DoubleSpaceGivesEmptyId | bin/index.interactive.ts:116 | Nothing validates the id list: two spaces in a row yield an empty project id between the two ids. |

## Left out

- The automation driver, the web site and the Figma REST API are oracles. Every page action is an entry in the page's trace. Navigations, element waits, clicks and network-idle waits take their answers in order from the tab's script.
- Actions issued on a page that was already closed (`saveLocalCopy` goes on after a failed lookup closes the page) behave as on an open page; the driver's reaction to them is not modelled.
- `wait(ms)` is a `Pause` action. `waitAndNavigate` is folded differently at each call site:
  - around `page.goto` (`bin/Bot.ts:95`, `bin/utils/checkAuth.ts:13`) the wait and the load form one `Navigate` step that consumes one navigation answer;
  - around `submitLoginForm` (`bin/Bot.ts:110`) the wait becomes a separate `AwaitNavigation` step issued after the form actions;
  - around `goToFilePage` (`bin/Bot.ts:180`) the extra navigation wait is dropped: only the steps of `goToFilePage` are modelled. A timeout of that extra wait, which would fail the file visit, is not modelled.
- `setDefaultNavigationTimeout`, logging, spinners and the timer have no effect on the modelled state and are left out.
- The clock (`new Date()`) and `process.platform` are parameters of `Start` and of the bot. The run date is an opaque string rather than `toISOString()` of a date.
- `fetchProject` and the project catalog are a function parameter. `fetchTeamProjects`, `getNextSiblingHandle` and `click` are not used by the modelled core.
- `page.setCookie`, `page.cookies`, `setDownloadBehavior` and the key presses never fail in the model.
- Orchestrator.CookiesProvider.GetCookies: a corrupt cookie file reads as `None`, as in the source, but JSON parsing and the file system themselves are not modelled.
- Backup.SaveFile: the download directory is the triple (backup directory, run date, project name), not a joined path. The root directory constants are fixed strings.
- The creation of the root and backup directories in `start` is left out; only the deletion of the cookie file is modelled.
- Orchestrator.Bot.BackupFile: `SESSION_DATA.date!` is a precondition (the date is set whenever a browser is), rather than a crash when it is missing.
- Elements.FindElementSpec: a regular expression is a predicate on strings plus its printed source. The state a global-flag regular expression keeps between tests is not modelled.
- Strings.ToLower: maps ASCII letters only; the full Unicode case mapping of `toLowerCase` is not modelled.
- Wizard.ValidateEmail: the external e-mail validator is an arbitrary predicate passed in.
- Wizard.ToBotOptions: the answers are natural numbers. Undefined answers, non-integer and negative numbers and NaN from the number prompts are not modelled, nor are the prompt library and the screen output of the wizard.
- Concurrency: `waitAndNavigate` runs the navigation wait and the wrapped step together with `Promise.all` (`bin/Bot.ts:95`, `bin/Bot.ts:110`, `bin/Bot.ts:180`, `bin/utils/checkAuth.ts:13`). The model folds each such pair into sequential steps, per call site as listed above. Interleavings of the two promises are not modelled.
- Orchestrator.Bot.Login: `setCookies` (a file write) never fails in the model. In the source its rejection escapes `_login` unwrapped.
- Orchestrator.Bot.BackupFile: `browser.newPage()` never fails in the model.
- LocalCopy.SaveLocalCopySpec: `page.close()` never fails in the model.
- Orchestrator.Bot.BackupProjects: `browser.close()` inside the `catch` at `bin/Bot.ts:247` never fails in the model. In the source its rejection would replace the BackupError.
