/**
 * An abstract browser standing in for the automation driver.
 *
 * A page has a current URL and an append-only trace of the actions issued on it. What the
 * remote site does in answer is an oracle fixed when the page is opened (`Script`): the
 * i-th navigation on the page lands on a URL or is rejected, the i-th element wait or click
 * resolves or is rejected, the i-th network-idle wait reaches idleness or times out, and
 * element queries return the elements matching a selector. The page consumes the oracle
 * in order, so every run is deterministic once the oracle is given.
 */
module Driver {
  import opened Wrappers
  import opened Errors

  /** The oracle's answer to a navigation: where the page ends up, or the driver's rejection. */
  datatype Nav = Landed(url: string) | NavRejected(message: string)

  /** The oracle's answer to an element wait or a click. */
  datatype Reply = Resolved | Rejected(message: string)

  /** An element handle with the two DOM properties the bot reads. */
  datatype Element = Element(handle: nat, innerHTML: string, className: string)

  /** A session cookie; opaque to the bot. */
  datatype Cookie = Cookie(name: string, value: string, domain: string, path: string)

  /** The download directory `<backup dir>/<run date>/<project name>`. */
  datatype DownloadPath = DownloadPath(backupDir: string, runDate: string, projectName: string)

  /** Everything the bot can do to a page. */
  datatype Action =
    | Navigate(url: string)                              // page.goto, with the navigation it starts
    | AwaitNavigation(timeout: Option<nat>)              // page.waitForNavigation (None: page default)
    | Pause(ms: nat)                                     // wait(ms)
    | ClickOn(selector: string)                          // page.click
    | TypeText(text: string, delay: nat)                 // page.keyboard.type, `delay` ms per character
    | KeyDown(key: string)
    | KeyPress(key: string)
    | KeyUp(key: string)
    | AwaitSelector(selector: string, timeout: Option<nat>) // page.waitForSelector
    | AwaitLoaded                                        // page.waitForFunction: no progress bar left
    | AllowDownloads(path: DownloadPath)                 // Page.setDownloadBehavior
    | AwaitNetworkIdle(limit: nat, idleTime: nat)        // page.waitForNetworkIdle
    | InstallCookies(cookies: seq<Cookie>)               // page.setCookie
    | ClosePage                                          // page.close

  /** The remote side of one page, fixed when the page is opened. */
  datatype Script = Script(
    navigations: nat -> Nav,
    replies: nat -> Reply,
    idle: nat -> bool,
    dom: string -> seq<Element>,
    cookies: seq<Cookie>)

  /** Everything about a page that its actions change. */
  datatype PageState = PageState(url: string, trace: seq<Action>, navs: nat, replies: nat, idles: nat)

  const BLANK_URL := "about:blank"

  /** A freshly opened tab. */
  function Initial(): PageState
  {
    PageState(BLANK_URL, [], 0, 0, 0)
  }

  /** An action with no outcome: only the trace grows. */
  function Record(s: PageState, a: Action): PageState
  {
    s.(trace := s.trace + [a])
  }

  /** A navigation: consumes the next navigation answer and moves the page when it lands. */
  function NavStep(sc: Script, s: PageState, a: Action): (PageState, Outcome)
  {
    var t := s.(trace := s.trace + [a], navs := s.navs + 1);
    match sc.navigations(s.navs)
    case Landed(u) => (t.(url := u), Done)
    case NavRejected(m) => (t, Thrown(Plain(m)))
  }

  /** An element wait or a click: consumes the next reply. */
  function ReplyStep(sc: Script, s: PageState, a: Action): (PageState, Outcome)
  {
    var t := s.(trace := s.trace + [a], replies := s.replies + 1);
    match sc.replies(s.replies)
    case Resolved => (t, Done)
    case Rejected(m) => (t, Thrown(Plain(m)))
  }

  /** A network-idle wait: consumes the next idle answer (true: idle was reached in time). */
  function IdleStep(sc: Script, s: PageState, a: Action): (PageState, bool)
  {
    (s.(trace := s.trace + [a], idles := s.idles + 1), sc.idle(s.idles))
  }

  /** `t` was reached from `s` by issuing further actions: the trace only grows. */
  predicate Extends(t: PageState, s: PageState)
  {
    |s.trace| <= |t.trace| && t.trace[..|s.trace|] == s.trace
  }

  /** Growing the trace twice grows it. */
  lemma ExtendsTrans(u: PageState, t: PageState, s: PageState)
    requires Extends(u, t) && Extends(t, s)
    ensures Extends(u, s)
  {
    assert u.trace[..|s.trace|] == u.trace[..|t.trace|][..|s.trace|];
  }

  /** `n` copies of one action. */
  function Repeat(a: Action, n: nat): (r: seq<Action>)
    ensures |r| == n
    ensures forall i :: 0 <= i < n ==> r[i] == a
  {
    if n == 0 then [] else [a] + Repeat(a, n - 1)
  }

  /** Number of actions in `trace` of the kind `p` selects. */
  function CountOf(trace: seq<Action>, p: Action -> bool): nat
  {
    if trace == [] then 0 else (if p(trace[0]) then 1 else 0) + CountOf(trace[1..], p)
  }

  /** Counting distributes over concatenation of traces. */
  lemma {:induction false} CountOfAppend(a: seq<Action>, b: seq<Action>, p: Action -> bool)
    ensures CountOf(a + b, p) == CountOf(a, p) + CountOf(b, p)
    decreases |a|
  {
    if a != [] {
      assert (a + b)[1..] == a[1..] + b;
      CountOfAppend(a[1..], b, p);
    } else {
      assert a + b == b;
    }
  }

  /** Counting a two-action trace. */
  lemma CountOfPair(a: Action, b: Action, p: Action -> bool)
    ensures CountOf([a, b], p) == (if p(a) then 1 else 0) + (if p(b) then 1 else 0)
  {
    assert [a, b][1..] == [b];
    assert [b][1..] == [];
    assert CountOf([b], p) == (if p(b) then 1 else 0) + CountOf([], p);
    assert CountOf([a, b], p) == (if p(a) then 1 else 0) + CountOf([b], p);
  }

  /** Counting a four-action trace. */
  lemma CountOfQuad(a: Action, b: Action, c: Action, d: Action, p: Action -> bool)
    ensures CountOf([a, b, c, d], p)
         == (if p(a) then 1 else 0) + (if p(b) then 1 else 0) + (if p(c) then 1 else 0) + (if p(d) then 1 else 0)
  {
    assert [a, b, c, d] == [a, b] + [c, d];
    CountOfAppend([a, b], [c, d], p);
    CountOfPair(a, b, p);
    CountOfPair(c, d, p);
  }

  /** Counting over a trace assembled from five parts. */
  lemma CountOfFive(a: seq<Action>, b: seq<Action>, c: seq<Action>, d: seq<Action>, e: seq<Action>, p: Action -> bool)
    ensures CountOf(a + b + c + d + e, p) == CountOf(a, p) + CountOf(b, p) + CountOf(c, p) + CountOf(d, p) + CountOf(e, p)
  {
    CountOfAppend(a + b + c + d, e, p);
    CountOfAppend(a + b + c, d, p);
    CountOfAppend(a + b, c, p);
    CountOfAppend(a, b, p);
  }

  predicate IsClose(a: Action) { a.ClosePage? }
  predicate IsPause(a: Action) { a.Pause? }
  predicate IsClick(a: Action) { a.ClickOn? }
  predicate IsTyping(a: Action) { a.TypeText? }
  predicate IsEnter(a: Action) { a.KeyPress? && a.key == "Enter" }

  /** A browser tab driven through the abstract driver. */
  class Page {
    const script: Script
    var url: string
    var trace: seq<Action>
    var navs: nat
    var replies: nat
    var idles: nat

    function State(): PageState
      reads this
    {
      PageState(url, trace, navs, replies, idles)
    }

    constructor (script: Script)
      ensures this.script == script && State() == Initial()
    {
      this.script := script;
      url, trace := BLANK_URL, [];
      navs, replies, idles := 0, 0, 0;
    }

    /** `page.goto(target)`, together with the navigation it triggers. */
    method Goto(target: string) returns (r: Outcome)
      modifies this
      ensures (State(), r) == NavStep(script, old(State()), Navigate(target))
    {
      trace := trace + [Navigate(target)];
      match script.navigations(navs) {
        case Landed(u) =>
          url := u;
          r := Done;
        case NavRejected(m) =>
          r := Thrown(Plain(m));
      }
      navs := navs + 1;
    }

    /** `page.waitForNavigation({ timeout })`. */
    method WaitForNavigation(timeout: Option<nat>) returns (r: Outcome)
      modifies this
      ensures (State(), r) == NavStep(script, old(State()), AwaitNavigation(timeout))
    {
      trace := trace + [AwaitNavigation(timeout)];
      match script.navigations(navs) {
        case Landed(u) =>
          url := u;
          r := Done;
        case NavRejected(m) =>
          r := Thrown(Plain(m));
      }
      navs := navs + 1;
    }

    /** `page.click(selector)`. */
    method Click(selector: string) returns (r: Outcome)
      modifies this
      ensures (State(), r) == ReplyStep(script, old(State()), ClickOn(selector))
    {
      r := Answer(ClickOn(selector));
    }

    /** `page.waitForSelector(selector, { timeout })`. */
    method WaitForSelector(selector: string, timeout: Option<nat>) returns (r: Outcome)
      modifies this
      ensures (State(), r) == ReplyStep(script, old(State()), AwaitSelector(selector, timeout))
    {
      r := Answer(AwaitSelector(selector, timeout));
    }

    /** `page.waitForFunction(() => !document.querySelector(progress bar))`. */
    method WaitForFunction() returns (r: Outcome)
      modifies this
      ensures (State(), r) == ReplyStep(script, old(State()), AwaitLoaded)
    {
      r := Answer(AwaitLoaded);
    }

    /** Issues `a` and takes the next reply as its outcome. */
    method Answer(a: Action) returns (r: Outcome)
      modifies this
      ensures (State(), r) == ReplyStep(script, old(State()), a)
    {
      trace := trace + [a];
      match script.replies(replies) {
        case Resolved => r := Done;
        case Rejected(m) => r := Thrown(Plain(m));
      }
      replies := replies + 1;
    }

    /** `page.waitForNetworkIdle({ timeout, idleTime })`; false when the timeout struck first. */
    method WaitForNetworkIdle(timeout: nat, idleTime: nat) returns (idle: bool)
      modifies this
      ensures (State(), idle) == IdleStep(script, old(State()), AwaitNetworkIdle(timeout, idleTime))
    {
      trace := trace + [AwaitNetworkIdle(timeout, idleTime)];
      idle := script.idle(idles);
      idles := idles + 1;
    }

    /** An action the driver always carries out (typing, keys, timers, cookies, downloads, close). */
    method Perform(a: Action)
      modifies this
      ensures State() == Record(old(State()), a)
    {
      trace := trace + [a];
    }

    /** `page.$$(selector)`: every element matching the selector, in document order. */
    function QueryAll(selector: string): seq<Element>
    {
      script.dom(selector)
    }

    /** `page.$(selector)`: the first matching element, or null. */
    function Query(selector: string): (e: Option<Element>)
      ensures e.Some? <==> |QueryAll(selector)| > 0
      ensures e.Some? ==> e.value == QueryAll(selector)[0]
    {
      var all := script.dom(selector);
      if |all| == 0 then None else Some(all[0])
    }

    /** `page.cookies()`. */
    function Cookies(): seq<Cookie>
    {
      script.cookies
    }
  }

  /** A launched browser: its first tab, and the scripts of the tabs `newPage()` will open. */
  class Browser {
    const firstPage: Page
    const pageScripts: nat -> Script
    var pagesOpened: nat
    var closed: bool

    constructor (firstPage: Page, pageScripts: nat -> Script)
      ensures this.firstPage == firstPage && this.pageScripts == pageScripts
      ensures pagesOpened == 0 && !closed
    {
      this.firstPage := firstPage;
      this.pageScripts := pageScripts;
      pagesOpened, closed := 0, false;
    }

    /** `browser.newPage()`: a fresh blank tab driven by the next page script. */
    method NewPage() returns (p: Page)
      modifies this
      ensures fresh(p) && p.script == pageScripts(old(pagesOpened)) && p.State() == Initial()
      ensures pagesOpened == old(pagesOpened) + 1 && closed == old(closed)
    {
      p := new Page(pageScripts(pagesOpened));
      pagesOpened := pagesOpened + 1;
    }

    /** `browser.close()`. */
    method Close()
      modifies this
      ensures closed && pagesOpened == old(pagesOpened)
    {
      closed := true;
    }
  }
}
