/**
 * The interactive wizard: the `validate` callbacks of its prompts and the conversion of the
 * answers into the bot's options. The e-mail checker is an external library, so it is a
 * parameter: any predicate on strings.
 */
module Wizard {
  import opened Wrappers
  import opened Strings
  import opened LoginForm
  import opened Backup

  const REQUIRED := "This argument is required!"
  const INVALID_EMAIL := "Email address is invalid!"

  /** The prompt defaults, in the units the wizard asks for. */
  const DEFAULT_TIMEOUT_MINUTES := 5
  const DEFAULT_DELAY_SECONDS := 2
  const DEFAULT_TYPING_MS := 100

  /** What a `validate` callback returns: `true`, or the message shown to the user. */
  datatype Validation = Accepted | Rejected(message: string)

  /** The e-mail prompt: required first, then the external check on the lower-cased value. */
  function ValidateEmail(value: string, isEmail: string -> bool): (v: Validation)
    ensures v == Rejected(REQUIRED) <==> value == ""
    ensures v == Rejected(INVALID_EMAIL) <==> value != "" && !isEmail(ToLower(value))
    ensures v == Accepted <==> value != "" && isEmail(ToLower(value))
  {
    if |value| == 0 then Rejected(REQUIRED)
    else if !isEmail(ToLower(value)) then Rejected(INVALID_EMAIL)
    else Accepted
  }

  /** The password and access-token prompts: any non-empty answer is accepted. */
  function RequireValue(value: string): (v: Validation)
    ensures v == Accepted <==> value != ""
    ensures v.Rejected? ==> v.message == REQUIRED
  {
    if |value| == 0 then Rejected(REQUIRED) else Accepted
  }

  /** The e-mail prompt is stricter than a plain required prompt, and both agree on the empty answer. */
  lemma EmailImpliesRequired(value: string, isEmail: string -> bool)
    ensures ValidateEmail(value, isEmail).Accepted? ==> RequireValue(value).Accepted?
    ensures ValidateEmail(value, isEmail) == Rejected(REQUIRED) <==> RequireValue(value) == Rejected(REQUIRED)
  {
  }

  /** The wizard's answers (`Data`), numbers as naturals. */
  datatype Answers = Answers(
    email: string,
    password: string,
    accessToken: string,
    projectsIds: string,
    downloadTimeout: nat,   // minutes
    interactionDelay: nat,  // seconds
    typingDelay: nat)       // milliseconds

  /**
   * `startBot`: the options handed to `new Bot`. The id list is split at every space, and the
   * pieces joined with spaces give the answer back; timeouts and delays become milliseconds.
   */
  function ToBotOptions(a: Answers): (o: BotOptions)
    ensures o.authData == AuthData(a.email, a.password) && o.figmaAccessToken == a.accessToken
    ensures Join(o.projectsIds, ' ') == a.projectsIds
    ensures |o.projectsIds| == Occurrences(a.projectsIds, ' ') + 1
    ensures forall i :: 0 <= i < |o.projectsIds| ==> ' ' !in o.projectsIds[i]
    ensures o.downloadTimeout.Some? && o.downloadTimeout.value / 60000 == a.downloadTimeout
    ensures o.downloadTimeout.value % 60000 == 0
    ensures o.interactionDelay.Some? && o.interactionDelay.value / 1000 == a.interactionDelay
    ensures o.interactionDelay.value % 1000 == 0
    ensures o.typingDelay == Some(a.typingDelay) && o.debug == None
  {
    JoinSplit(a.projectsIds, ' ');
    BotOptions(AuthData(a.email, a.password), Split(a.projectsIds, ' '), a.accessToken, None,
               Some(a.interactionDelay * 1000), Some(a.downloadTimeout * 60 * 1000), Some(a.typingDelay))
  }

  /**
   * The bot's own defaults never apply to a wizard run: every delay is supplied, and the bot
   * keeps exactly the converted values.
   */
  lemma WizardSettings(a: Answers)
    ensures var s := Configure(ToBotOptions(a));
            && s.downloadTimeout == a.downloadTimeout * 60000
            && s.interactionDelay == a.interactionDelay * 1000
            && s.typingDelay == a.typingDelay
            && !s.debug
  {
    var o := ToBotOptions(a);
    assert o.downloadTimeout.value == a.downloadTimeout * 60000;
    assert o.interactionDelay.value == a.interactionDelay * 1000;
  }

  /** The prompt defaults, 5 minutes, 2 seconds and 100 ms, reach the bot as 300000, 2000 and 100 ms. */
  lemma WizardDefaults(email: string, password: string, accessToken: string, ids: string)
    ensures var s := Configure(ToBotOptions(Answers(email, password, accessToken, ids, DEFAULT_TIMEOUT_MINUTES,
                                                     DEFAULT_DELAY_SECONDS, DEFAULT_TYPING_MS)));
            s.downloadTimeout == 300000 && s.interactionDelay == 2000 && s.typingDelay == 100
  {
    WizardSettings(Answers(email, password, accessToken, ids, DEFAULT_TIMEOUT_MINUTES, DEFAULT_DELAY_SECONDS, DEFAULT_TYPING_MS));
  }

  /** Nothing validates the id list: two spaces in a row give an empty id between the two ids. */
  lemma DoubleSpaceGivesEmptyId(a: Answers, first: string, second: string)
    requires ' ' !in first && ' ' !in second
    requires a.projectsIds == first + "  " + second
    ensures ToBotOptions(a).projectsIds == [first, "", second]
  {
    var parts := [first, "", second];
    assert forall i :: 0 <= i < |parts| ==> ' ' !in parts[i];
    SplitJoin(parts, ' ');
    assert Join(parts, ' ') == first + [' '] + Join(["", second], ' ');
    assert Join(["", second], ' ') == "" + [' '] + second;
    assert first + [' '] + ("" + [' '] + second) == first + "  " + second;
  }
}
