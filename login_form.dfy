/** `submitLoginForm`: the fixed wait/click/type script that fills and submits the login form. */
module LoginForm {
  import opened Errors
  import opened Driver
  import opened Site

  /** The account credentials (`IAuthData`). */
  datatype AuthData = AuthData(email: string, password: string)

  /** The ten actions of a submission that meets no failing click. */
  function FormActions(auth: AuthData, interactionDelay: nat, typingDelay: nat): seq<Action>
  {
    [ Pause(interactionDelay), ClickOn(EMAIL_INPUT),
      Pause(interactionDelay), TypeText(auth.email, typingDelay),
      Pause(interactionDelay), ClickOn(PASSWORD_INPUT),
      Pause(interactionDelay), TypeText(auth.password, typingDelay),
      Pause(interactionDelay), ClickOn(SUBMIT_BUTTON) ]
  }

  /** The texts typed in a trace, in order. */
  function Typed(trace: seq<Action>): seq<string>
  {
    if trace == [] then []
    else (if trace[0].TypeText? then [trace[0].text] else []) + Typed(trace[1..])
  }

  /**
   * Shape of a full submission: five waits of `interactionDelay`, three clicks, two typing
   * actions at `typingDelay` that type the email then the password, and the submit click last.
   */
  lemma {:induction false} FormActionsShape(auth: AuthData, interactionDelay: nat, typingDelay: nat)
    ensures var r := FormActions(auth, interactionDelay, typingDelay);
            && |r| == 10
            && r[9] == ClickOn(SUBMIT_BUTTON)
            && CountOf(r, IsPause) == 5
            && CountOf(r, IsClick) == 3
            && CountOf(r, IsTyping) == 2
            && (forall i :: 0 <= i < |r| && r[i].Pause? ==> r[i].ms == interactionDelay)
            && (forall i :: 0 <= i < |r| && r[i].TypeText? ==> r[i].delay == typingDelay)
            && Typed(r) == [auth.email, auth.password]
  {
    var r := FormActions(auth, interactionDelay, typingDelay);
    FormActionsCount(auth, interactionDelay, typingDelay, IsPause);
    FormActionsCount(auth, interactionDelay, typingDelay, IsClick);
    FormActionsCount(auth, interactionDelay, typingDelay, IsTyping);
    FormActionsTyped(auth, interactionDelay, typingDelay);
  }

  /** How many of the form's actions satisfy `p`: five waits, three clicks and two typing actions. */
  lemma FormActionsCount(auth: AuthData, d: nat, t: nat, p: Action -> bool)
    ensures CountOf(FormActions(auth, d, t), p)
         == (if p(Pause(d)) then 5 else 0)
          + (if p(ClickOn(EMAIL_INPUT)) then 1 else 0) + (if p(TypeText(auth.email, t)) then 1 else 0)
          + (if p(ClickOn(PASSWORD_INPUT)) then 1 else 0) + (if p(TypeText(auth.password, t)) then 1 else 0)
          + (if p(ClickOn(SUBMIT_BUTTON)) then 1 else 0)
  {
    var p1, p2, p3 := [Pause(d), ClickOn(EMAIL_INPUT)], [Pause(d), TypeText(auth.email, t)], [Pause(d), ClickOn(PASSWORD_INPUT)];
    var p4, p5 := [Pause(d), TypeText(auth.password, t)], [Pause(d), ClickOn(SUBMIT_BUTTON)];
    assert FormActions(auth, d, t) == p1 + p2 + p3 + p4 + p5;
    CountOfAppend(p1 + p2 + p3 + p4, p5, p);
    CountOfAppend(p1 + p2 + p3, p4, p);
    CountOfAppend(p1 + p2, p3, p);
    CountOfAppend(p1, p2, p);
    CountOfPair(Pause(d), ClickOn(EMAIL_INPUT), p);
    CountOfPair(Pause(d), TypeText(auth.email, t), p);
    CountOfPair(Pause(d), ClickOn(PASSWORD_INPUT), p);
    CountOfPair(Pause(d), TypeText(auth.password, t), p);
    CountOfPair(Pause(d), ClickOn(SUBMIT_BUTTON), p);
  }

  /** The form types the email, then the password, and nothing else. */
  lemma FormActionsTyped(auth: AuthData, d: nat, t: nat)
    ensures Typed(FormActions(auth, d, t)) == [auth.email, auth.password]
  {
    var p1, p2, p3 := [Pause(d), ClickOn(EMAIL_INPUT)], [Pause(d), TypeText(auth.email, t)], [Pause(d), ClickOn(PASSWORD_INPUT)];
    var p4, p5 := [Pause(d), TypeText(auth.password, t)], [Pause(d), ClickOn(SUBMIT_BUTTON)];
    assert FormActions(auth, d, t) == p1 + p2 + p3 + p4 + p5;
    TypedAppend(p1 + p2 + p3 + p4, p5);
    TypedAppend(p1 + p2 + p3, p4);
    TypedAppend(p1 + p2, p3);
    TypedAppend(p1, p2);
    TypedPair(Pause(d), ClickOn(EMAIL_INPUT));
    TypedPair(Pause(d), TypeText(auth.email, t));
    TypedPair(Pause(d), ClickOn(PASSWORD_INPUT));
    TypedPair(Pause(d), TypeText(auth.password, t));
    TypedPair(Pause(d), ClickOn(SUBMIT_BUTTON));
  }

  lemma {:induction false} TypedAppend(a: seq<Action>, b: seq<Action>)
    ensures Typed(a + b) == Typed(a) + Typed(b)
    decreases |a|
  {
    if a == [] {
      assert a + b == b;
    } else {
      assert (a + b)[1..] == a[1..] + b;
      TypedAppend(a[1..], b);
    }
  }

  lemma TypedPair(a: Action, b: Action)
    ensures Typed([a, b]) == (if a.TypeText? then [a.text] else []) + (if b.TypeText? then [b.text] else [])
  {
    assert [a, b][1..] == [b];
    assert [b][1..] == [];
    assert Typed([b]) == (if b.TypeText? then [b.text] else []) + Typed([]);
    assert Typed([a, b]) == (if a.TypeText? then [a.text] else []) + Typed([b]);
  }

  /** The prefixes of the form's actions at which a rejected click stops the submission. */
  lemma FormPrefixes(auth: AuthData, d: nat, t: nat)
    ensures FormActions(auth, d, t)[..2] == [Pause(d), ClickOn(EMAIL_INPUT)]
    ensures FormActions(auth, d, t)[..6] == [Pause(d), ClickOn(EMAIL_INPUT)] + [Pause(d), TypeText(auth.email, t), Pause(d), ClickOn(PASSWORD_INPUT)]
    ensures FormActions(auth, d, t)[..10]
         == [Pause(d), ClickOn(EMAIL_INPUT)] + [Pause(d), TypeText(auth.email, t), Pause(d), ClickOn(PASSWORD_INPUT)]
          + [Pause(d), TypeText(auth.password, t), Pause(d), ClickOn(SUBMIT_BUTTON)]
  {
  }

  /** How many of the form's actions are issued: the script stops at the first rejected click. */
  function FormProgress(sc: Script, s: PageState): nat
  {
    if sc.replies(s.replies).Rejected? then 2
    else if sc.replies(s.replies + 1).Rejected? then 6
    else 10
  }

  /** How many of the three clicks are attempted: one reply is consumed per click. */
  function ClicksIssued(sc: Script, s: PageState): nat
  {
    if sc.replies(s.replies).Rejected? then 1
    else if sc.replies(s.replies + 1).Rejected? then 2
    else 3
  }

  /** Focusing one field and typing into it: wait, click, and when the click lands, wait and type. */
  function FillField(sc: Script, s: PageState, field: string, text: string, interactionDelay: nat, typingDelay: nat)
    : (res: (PageState, Outcome))
    ensures res.0.url == s.url && res.0.navs == s.navs && res.0.idles == s.idles
    ensures res.0.replies == s.replies + 1
    ensures res.1.Thrown? <==> sc.replies(s.replies).Rejected?
    ensures res.1.Thrown? ==> res.0.trace == s.trace + [Pause(interactionDelay), ClickOn(field)]
    ensures res.1.Thrown? ==> res.1.error == Plain(sc.replies(s.replies).message)
    ensures res.1.Done? ==> res.0.trace == s.trace + [Pause(interactionDelay), ClickOn(field), Pause(interactionDelay), TypeText(text, typingDelay)]
  {
    var (s1, c) := ReplyStep(sc, Record(s, Pause(interactionDelay)), ClickOn(field));
    if c.Thrown? then (s1, c)
    else (Record(Record(s1, Pause(interactionDelay)), TypeText(text, typingDelay)), c)
  }

  /** `submitLoginForm(page, authData, { interactionDelay, typingDelay })`. */
  function SubmitLoginFormSpec(sc: Script, s: PageState, auth: AuthData, interactionDelay: nat, typingDelay: nat)
    : (res: (PageState, Outcome))
    ensures res.0.url == s.url && res.0.navs == s.navs && res.0.idles == s.idles
    ensures res.0.trace == s.trace + FormActions(auth, interactionDelay, typingDelay)[..FormProgress(sc, s)]
    ensures res.0.replies == s.replies + ClicksIssued(sc, s)
    ensures res.1.Done? <==> FormProgress(sc, s) == 10 && sc.replies(s.replies + 2).Resolved?
    ensures res.1.Thrown? ==> res.1.error == Plain(sc.replies(res.0.replies - 1).message)
  {
    var d, t := interactionDelay, typingDelay;
    FormPrefixes(auth, d, t);
    var (s1, c1) := FillField(sc, s, EMAIL_INPUT, auth.email, d, t);
    if c1.Thrown? then
      assert FormProgress(sc, s) == 2;
      (s1, c1)
    else
      var (s2, c2) := FillField(sc, s1, PASSWORD_INPUT, auth.password, d, t);
      if c2.Thrown? then
        assert FormProgress(sc, s) == 6;
        (s2, c2)
      else
        assert FormProgress(sc, s) == 10;
        ReplyStep(sc, Record(s2, Pause(d)), ClickOn(SUBMIT_BUTTON))
  }

  /** `submitLoginForm(page, authData, { interactionDelay, typingDelay })`. */
  method SubmitLoginForm(page: Page, auth: AuthData, interactionDelay: nat, typingDelay: nat) returns (r: Outcome)
    modifies page
    ensures (page.State(), r) == SubmitLoginFormSpec(page.script, old(page.State()), auth, interactionDelay, typingDelay)
  {
    // Focus and fill the email field.
    page.Perform(Pause(interactionDelay));
    r := page.Click(EMAIL_INPUT);
    if r.Thrown? {
      return;
    }
    page.Perform(Pause(interactionDelay));
    page.Perform(TypeText(auth.email, typingDelay));
    // Focus and fill the password field.
    page.Perform(Pause(interactionDelay));
    r := page.Click(PASSWORD_INPUT);
    if r.Thrown? {
      return;
    }
    page.Perform(Pause(interactionDelay));
    page.Perform(TypeText(auth.password, typingDelay));
    // Submit.
    page.Perform(Pause(interactionDelay));
    r := page.Click(SUBMIT_BUTTON);
  }
}
