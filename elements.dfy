/**
 * DOM decision helpers: `findElementHandle` (wait for a selector, then pick an element
 * by selector and inner HTML) and `parseLoginFormError` (which login input was rejected).
 */
module Elements {
  import opened Wrappers
  import opened Strings
  import opened Errors
  import opened Driver
  import opened Site

  /** The `innerHTML` search option: a string compared exactly, or a regular expression. */
  datatype Pattern =
    | Literal(text: string)
    | Regex(source: string, test: string -> bool)   // `source` is what String(regex) prints

  predicate Matches(p: Pattern, html: string)
  {
    match p
    case Literal(t) => html == t
    case Regex(_, test) => test(html)
  }

  /** JavaScript truthiness of the optional options: an empty string counts as absent. */
  predicate SelectorGiven(selector: Option<string>) { selector.Some? && selector.value != "" }
  predicate PatternGiven(innerHTML: Option<Pattern>)
  {
    innerHTML.Some? && !(innerHTML.value.Literal? && innerHTML.value.text == "")
  }

  /** `selector || "*"`. */
  function SelectorOrAny(selector: Option<string>): string
  {
    if SelectorGiven(selector) then selector.value else "*"
  }

  /** `String(selector)`: "undefined" when absent. */
  function ShowSelector(selector: Option<string>): string
  {
    if selector.Some? then selector.value else "undefined"
  }

  /** `String(innerHTML)`. */
  function ShowPattern(innerHTML: Option<Pattern>): string
  {
    match innerHTML
    case None => "undefined"
    case Some(Literal(t)) => t
    case Some(Regex(src, _)) => src
  }

  function SelectorNotFound(selector: string): string
  {
    "Element that matches selector \"" + selector + "\" not found."
  }

  /**
   * `String(selector) && clause`: the "that matches selector" clause, dropped only when
   * `String(selector)` is falsy, which happens for the empty selector alone (an absent
   * selector prints as "undefined").
   */
  function SelectorClause(selector: Option<string>): (c: string)
    ensures c == "" <==> selector == Some("")
    ensures selector != Some("") ==> c == " that matches selector \"" + ShowSelector(selector) + "\""
    ensures selector == None ==> c == " that matches selector \"" + "undefined" + "\""
  {
    if ShowSelector(selector) == "" then "" else " that matches selector \"" + ShowSelector(selector) + "\""
  }

  /** The error `findElementHandle` throws when no element was found. */
  function ElementNotFound(selector: Option<string>, innerHTML: Option<Pattern>): string
  {
    "Element" + SelectorClause(selector) + " with innerHTML \"" + ShowPattern(innerHTML) + "\" not found."
  }

  /** The last candidate whose inner HTML matches, scanning the whole list. */
  function LastMatching(handles: seq<Element>, p: Pattern): (found: Option<Element>)
    ensures found.None? <==> forall i :: 0 <= i < |handles| ==> !Matches(p, handles[i].innerHTML)
    ensures found.Some? ==>
              exists i :: 0 <= i < |handles| && handles[i] == found.value && Matches(p, handles[i].innerHTML) &&
                          forall j :: i < j < |handles| ==> !Matches(p, handles[j].innerHTML)
  {
    if handles == [] then None
    else
      var last := handles[|handles| - 1];
      if Matches(p, last.innerHTML) then Some(last)
      else
        var found := LastMatching(handles[..|handles| - 1], p);
        assert forall i :: 0 <= i < |handles| - 1 ==> handles[..|handles| - 1][i] == handles[i];
        found
  }

  /** The scan of `findElementHandle`: every match overwrites the target, the loop never breaks. */
  method LastMatch(handles: seq<Element>, p: Pattern) returns (target: Option<Element>)
    ensures target == LastMatching(handles, p)
  {
    target := None;
    for i := 0 to |handles|
      invariant target == LastMatching(handles[..i], p)
    {
      assert handles[..i + 1][..i] == handles[..i];
      if Matches(p, handles[i].innerHTML) {
        target := Some(handles[i]);
      }
    }
    assert handles[..|handles|] == handles;
  }

  /** `findElementHandle(page, { selector, innerHTML })`. */
  function FindElementSpec(sc: Script, s: PageState, selector: Option<string>, innerHTML: Option<Pattern>)
    : (res: (PageState, Result<Element>))
    ensures res.0.trace == s.trace + (if SelectorGiven(selector) then [AwaitSelector(selector.value, None)] else [])
    ensures res.0.url == s.url && res.0.navs == s.navs && res.0.idles == s.idles
    ensures res.0.replies == s.replies + (if SelectorGiven(selector) then 1 else 0)
    ensures SelectorGiven(selector) && sc.replies(s.replies).Rejected? ==>
              res.1 == Failed(Plain(SelectorNotFound(selector.value)))
    ensures res.1.Ok? && PatternGiven(innerHTML) ==>
              var all := sc.dom(SelectorOrAny(selector));
              exists i :: 0 <= i < |all| && all[i] == res.1.value && Matches(innerHTML.value, all[i].innerHTML) &&
                          forall j :: i < j < |all| ==> !Matches(innerHTML.value, all[j].innerHTML)
    ensures res.1.Ok? && !PatternGiven(innerHTML) ==>
              var all := sc.dom(SelectorOrAny(selector));
              |all| > 0 && res.1.value == all[0]
    ensures res.1.Failed? && !(SelectorGiven(selector) && sc.replies(s.replies).Rejected?) ==>
              res.1.error == Plain(ElementNotFound(selector, innerHTML))
    ensures !(SelectorGiven(selector) && sc.replies(s.replies).Rejected?) && PatternGiven(innerHTML) ==>
              var all := sc.dom(SelectorOrAny(selector));
              (res.1.Ok? <==> exists i :: 0 <= i < |all| && Matches(innerHTML.value, all[i].innerHTML))
    ensures !(SelectorGiven(selector) && sc.replies(s.replies).Rejected?) && !PatternGiven(innerHTML) ==>
              (res.1.Ok? <==> |sc.dom(SelectorOrAny(selector))| > 0)
  {
    var (s1, w) := if SelectorGiven(selector) then ReplyStep(sc, s, AwaitSelector(selector.value, None)) else (s, Done);
    if w.Thrown? then (s1, Failed(Plain(SelectorNotFound(selector.value))))
    else
      var all := sc.dom(SelectorOrAny(selector));
      var target := if PatternGiven(innerHTML) then LastMatching(all, innerHTML.value)
                    else if |all| == 0 then None else Some(all[0]);
      if target.Some? then (s1, Ok(target.value)) else (s1, Failed(Plain(ElementNotFound(selector, innerHTML))))
  }

  /** `findElementHandle(page, { selector, innerHTML })`. */
  method FindElementHandle(page: Page, selector: Option<string>, innerHTML: Option<Pattern>) returns (r: Result<Element>)
    modifies page
    ensures (page.State(), r) == FindElementSpec(page.script, old(page.State()), selector, innerHTML)
  {
    if SelectorGiven(selector) {
      var w := page.WaitForSelector(selector.value, None);
      if w.Thrown? {
        return Failed(Plain(SelectorNotFound(selector.value)));
      }
    }
    var target: Option<Element>;
    if PatternGiven(innerHTML) {
      var handles := page.QueryAll(SelectorOrAny(selector));
      target := LastMatch(handles, innerHTML.value);
    } else {
      target := page.Query(SelectorOrAny(selector));
    }
    if target.Some? {
      return Ok(target.value);
    }
    return Failed(Plain(ElementNotFound(selector, innerHTML)));
  }

  /** The classification inside `parseLoginFormError`: the email input is checked first. */
  function LoginFormError(emailClass: string, passwordClass: string): (r: Option<string>)
    ensures r == Some("Invalid email") <==> Contains(emailClass, INVALID_INPUT)
    ensures r == Some("Invalid password") <==> !Contains(emailClass, INVALID_INPUT) && Contains(passwordClass, INVALID_INPUT)
    ensures r == None <==> !Contains(emailClass, INVALID_INPUT) && !Contains(passwordClass, INVALID_INPUT)
  {
    if Contains(emailClass, INVALID_INPUT) then Some("Invalid email")
    else if Contains(passwordClass, INVALID_INPUT) then Some("Invalid password")
    else None
  }

  /** `parseLoginFormError(page)`: look up the email input, then the password input, then classify. */
  function ParseLoginFormErrorSpec(sc: Script, s: PageState): (res: (PageState, Result<Option<string>>))
    ensures res.0.url == s.url && res.0.navs == s.navs && Extends(res.0, s)
    ensures FindElementSpec(sc, s, Some(EMAIL_INPUT), None).1.Failed? ==>
              res == (FindElementSpec(sc, s, Some(EMAIL_INPUT), None).0, Failed(FindElementSpec(sc, s, Some(EMAIL_INPUT), None).1.error))
    ensures var (s1, e) := FindElementSpec(sc, s, Some(EMAIL_INPUT), None);
            var (s2, p) := FindElementSpec(sc, s1, Some(PASSWORD_INPUT), None);
            && (e.Ok? && p.Failed? ==> res == (s2, Failed(p.error)))
            && (e.Ok? && p.Ok? ==> res == (s2, Ok(LoginFormError(e.value.className, p.value.className))))
    ensures res.1.Ok? ==>
              res.0.trace == s.trace + [AwaitSelector(EMAIL_INPUT, None), AwaitSelector(PASSWORD_INPUT, None)] &&
              |sc.dom(EMAIL_INPUT)| > 0 && |sc.dom(PASSWORD_INPUT)| > 0 &&
              res.1.value == LoginFormError(sc.dom(EMAIL_INPUT)[0].className, sc.dom(PASSWORD_INPUT)[0].className)
  {
    var (s1, e) := FindElementSpec(sc, s, Some(EMAIL_INPUT), None);
    if e.Failed? then (s1, Failed(e.error))
    else
      var (s2, p) := FindElementSpec(sc, s1, Some(PASSWORD_INPUT), None);
      if p.Failed? then (s2, Failed(p.error))
      else (s2, Ok(LoginFormError(e.value.className, p.value.className)))
  }

  /** `parseLoginFormError(page)`. */
  method ParseLoginFormError(page: Page) returns (r: Result<Option<string>>)
    modifies page
    ensures (page.State(), r) == ParseLoginFormErrorSpec(page.script, old(page.State()))
  {
    var email := FindElementHandle(page, Some(EMAIL_INPUT), None);
    if email.Failed? {
      return Failed(email.error);
    }
    var password := FindElementHandle(page, Some(PASSWORD_INPUT), None);
    if password.Failed? {
      return Failed(password.error);
    }
    return Ok(LoginFormError(email.value.className, password.value.className));
  }
}
