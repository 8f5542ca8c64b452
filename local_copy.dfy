/**
 * `saveLocalCopy`: open the command palette with the platform's modifier chord, type the
 * export command, confirm it, then infer completion from network idleness. A failed palette
 * or result lookup waits and closes the page but does not stop the script, and the final
 * step always waits and closes the page again.
 */
module LocalCopy {
  import opened Wrappers
  import opened Errors
  import opened Driver
  import opened Site

  const COMMAND := "save local copy"
  /** Quiet window the network must keep, on top of the interaction delay. */
  const BASE_IDLE_TIME := 5000

  /** What the download step reports: idleness was reached, or the timeout struck after `seconds`. */
  datatype Download = Downloaded | TimedOut(seconds: nat)

  /** The modifier of the palette chord: Meta on macOS (`process.platform` "darwin"), Control elsewhere. */
  function ModifierKey(platform: string): (key: string)
    ensures key == "Meta" <==> platform == "darwin"
    ensures key == "Control" <==> platform != "darwin"
  {
    if platform == "darwin" then "Meta" else "Control"
  }

  /** `Math.round(x)`: the nearest integer, halves rounded up. */
  function MathRound(x: real): int
  {
    (x + 0.5).Floor
  }

  /** Seconds printed in the timeout message: `Math.round(downloadTimeout / 1000)`. */
  function TimeoutSeconds(downloadTimeout: nat): (seconds: nat)
    ensures seconds == MathRound(downloadTimeout as real / 1000.0)
  {
    var q := (downloadTimeout + 500) / 1000;
    assert 1000 * q <= downloadTimeout + 500 < 1000 * q + 1000;
    assert (q as real) <= downloadTimeout as real / 1000.0 + 0.5 < (q as real) + 1.0;
    q
  }

  /** The palette chord and the wait for the search box. */
  function Chord(key: string, interactionDelay: nat): seq<Action>
  {
    [KeyDown(key), KeyPress("KeyP"), KeyUp(key), AwaitSelector(PALETTE_SEARCH, Some(interactionDelay))]
  }

  /** The two steps issued when a palette lookup fails: wait, then close the page. */
  function GiveUp(found: bool, interactionDelay: nat): seq<Action>
  {
    if found then [] else [Pause(interactionDelay), ClosePage]
  }

  /** Typing the command and waiting for its result entry. */
  function Command(interactionDelay: nat, typingDelay: nat): seq<Action>
  {
    [TypeText(COMMAND, typingDelay), AwaitSelector(PALETTE_RESULT, Some(interactionDelay))]
  }

  /** Confirming, waiting for idleness, and the `finally` wait and close. */
  function Finish(interactionDelay: nat, downloadTimeout: nat): seq<Action>
  {
    [KeyPress("Enter"), AwaitNetworkIdle(downloadTimeout, BASE_IDLE_TIME + interactionDelay),
     Pause(2 * interactionDelay), ClosePage]
  }

  /**
   * The actions one call issues, given whether the palette search box and the command result
   * appeared in time.
   */
  function LocalCopyActions(key: string, interactionDelay: nat, typingDelay: nat, downloadTimeout: nat,
                            paletteFound: bool, resultFound: bool): seq<Action>
  {
    Chord(key, interactionDelay) + GiveUp(paletteFound, interactionDelay) + Command(interactionDelay, typingDelay)
    + GiveUp(resultFound, interactionDelay) + Finish(interactionDelay, downloadTimeout)
  }

  /** One call closes the page once per failed lookup plus once in `finally`: between one and three closes. */
  lemma LocalCopyCloses(key: string, interactionDelay: nat, typingDelay: nat, downloadTimeout: nat,
                        paletteFound: bool, resultFound: bool)
    ensures var r := LocalCopyActions(key, interactionDelay, typingDelay, downloadTimeout, paletteFound, resultFound);
            && CountOf(r, IsClose) == 1 + (if paletteFound then 0 else 1) + (if resultFound then 0 else 1)
            && 1 <= CountOf(r, IsClose) <= 3
  {
    var d := interactionDelay;
    var g1, g2 := GiveUp(paletteFound, d), GiveUp(resultFound, d);
    CountOfFive(Chord(key, d), g1, Command(d, typingDelay), g2, Finish(d, downloadTimeout), IsClose);
    CountOfQuad(KeyDown(key), KeyPress("KeyP"), KeyUp(key), AwaitSelector(PALETTE_SEARCH, Some(d)), IsClose);
    CountOfQuad(KeyPress("Enter"), AwaitNetworkIdle(downloadTimeout, BASE_IDLE_TIME + d), Pause(2 * d), ClosePage, IsClose);
    CountOfPair(TypeText(COMMAND, typingDelay), AwaitSelector(PALETTE_RESULT, Some(d)), IsClose);
    CountOfPair(Pause(d), ClosePage, IsClose);
    assert CountOf([], IsClose) == 0;
  }

  /** Whatever the lookups found, the call issues at least eight actions and ends by waiting twice the interaction delay and closing. */
  lemma LocalCopyEnds(key: string, interactionDelay: nat, typingDelay: nat, downloadTimeout: nat,
                      paletteFound: bool, resultFound: bool)
    ensures var r := LocalCopyActions(key, interactionDelay, typingDelay, downloadTimeout, paletteFound, resultFound);
            && |r| >= 8
            && r[|r| - 2..] == [Pause(2 * interactionDelay), ClosePage]
  {
    var r := LocalCopyActions(key, interactionDelay, typingDelay, downloadTimeout, paletteFound, resultFound);
    assert r[|r| - 2..] == Finish(interactionDelay, downloadTimeout)[2..];
  }

  /**
   * The command text is typed exactly once, at `typingDelay` per character, and confirmed by
   * exactly one Enter, which follows the typing; the idle wait uses `downloadTimeout` and a
   * quiet window of 5000 ms plus the interaction delay.
   */
  lemma LocalCopyCommand(key: string, interactionDelay: nat, typingDelay: nat, downloadTimeout: nat,
                         paletteFound: bool, resultFound: bool)
    ensures var r := LocalCopyActions(key, interactionDelay, typingDelay, downloadTimeout, paletteFound, resultFound);
            && CountOf(r, IsTyping) == 1
            && CountOf(r, IsEnter) == 1
            && |r| >= 8
            && r[4 + |GiveUp(paletteFound, interactionDelay)|] == TypeText(COMMAND, typingDelay)
            && 4 + |GiveUp(paletteFound, interactionDelay)| < |r| - 4
            && r[|r| - 4] == KeyPress("Enter")
            && r[|r| - 3] == AwaitNetworkIdle(downloadTimeout, BASE_IDLE_TIME + interactionDelay)
  {
    var d := interactionDelay;
    var g1, g2 := GiveUp(paletteFound, d), GiveUp(resultFound, d);
    var r := LocalCopyActions(key, d, typingDelay, downloadTimeout, paletteFound, resultFound);
    var c, g, f := Chord(key, d), Command(d, typingDelay), Finish(d, downloadTimeout);
    CountOfFive(c, g1, g, g2, f, IsTyping);
    CountOfFive(c, g1, g, g2, f, IsEnter);
    CountOfQuad(c[0], c[1], c[2], c[3], IsTyping);
    CountOfQuad(c[0], c[1], c[2], c[3], IsEnter);
    CountOfQuad(f[0], f[1], f[2], f[3], IsTyping);
    CountOfQuad(f[0], f[1], f[2], f[3], IsEnter);
    CountOfPair(g[0], g[1], IsTyping);
    CountOfPair(g[0], g[1], IsEnter);
    CountOfPair(Pause(d), ClosePage, IsTyping);
    CountOfPair(Pause(d), ClosePage, IsEnter);
    assert CountOf([], IsTyping) == 0 && CountOf([], IsEnter) == 0;
    assert c == [c[0], c[1], c[2], c[3]] && f == [f[0], f[1], f[2], f[3]] && g == [g[0], g[1]];
    assert r[4 + |g1|] == Command(d, typingDelay)[0];
    assert r[|r| - 4..] == Finish(d, downloadTimeout);
  }

  /**
   * One palette lookup: the steps leading to it, the wait for `selector`, and on a timeout the
   * wait and close of the `catch` branch.
   */
  function Lookup(sc: Script, s: PageState, lead: seq<Action>, selector: string, interactionDelay: nat): (t: PageState)
    ensures t.url == s.url && t.navs == s.navs && t.idles == s.idles && t.replies == s.replies + 1
    ensures t.trace == s.trace + lead + [AwaitSelector(selector, Some(interactionDelay))]
                       + GiveUp(sc.replies(s.replies).Resolved?, interactionDelay)
  {
    var (t, found) := ReplyStep(sc, s.(trace := s.trace + lead), AwaitSelector(selector, Some(interactionDelay)));
    if found.Thrown? then Record(Record(t, Pause(interactionDelay)), ClosePage) else t
  }

  /** Confirming the command, waiting for the network to go idle, and the `finally` wait and close. */
  function Confirm(sc: Script, s: PageState, interactionDelay: nat, downloadTimeout: nat): (res: (PageState, Download))
    ensures res.0.url == s.url && res.0.navs == s.navs && res.0.replies == s.replies && res.0.idles == s.idles + 1
    ensures res.0.trace == s.trace + Finish(interactionDelay, downloadTimeout)
    ensures res.1 == if sc.idle(s.idles) then Downloaded else TimedOut(TimeoutSeconds(downloadTimeout))
  {
    var (t, idle) := IdleStep(sc, Record(s, KeyPress("Enter")), AwaitNetworkIdle(downloadTimeout, BASE_IDLE_TIME + interactionDelay));
    (Record(Record(t, Pause(2 * interactionDelay)), ClosePage), if idle then Downloaded else TimedOut(TimeoutSeconds(downloadTimeout)))
  }

  /** `saveLocalCopy(page, file, { interactionDelay, typingDelay, downloadTimeout })` on a given platform. */
  function SaveLocalCopySpec(sc: Script, s: PageState, platform: string,
                             interactionDelay: nat, typingDelay: nat, downloadTimeout: nat): (res: (PageState, Download))
    ensures res.0.url == s.url && res.0.navs == s.navs
    ensures res.0.replies == s.replies + 2 && res.0.idles == s.idles + 1
    ensures res.0.trace == s.trace + LocalCopyActions(ModifierKey(platform), interactionDelay, typingDelay, downloadTimeout,
                                                       sc.replies(s.replies).Resolved?, sc.replies(s.replies + 1).Resolved?)
    ensures res.1 == if sc.idle(s.idles) then Downloaded else TimedOut(TimeoutSeconds(downloadTimeout))
  {
    var d, key := interactionDelay, ModifierKey(platform);
    var g1, g2 := GiveUp(sc.replies(s.replies).Resolved?, d), GiveUp(sc.replies(s.replies + 1).Resolved?, d);
    var s1 := Lookup(sc, s, [KeyDown(key), KeyPress("KeyP"), KeyUp(key)], PALETTE_SEARCH, d);
    assert s1.trace == s.trace + Chord(key, d) + g1;
    var s2 := Lookup(sc, s1, [TypeText(COMMAND, typingDelay)], PALETTE_RESULT, d);
    assert s2.trace == s1.trace + Command(d, typingDelay) + g2;
    assert s.trace + Chord(key, d) + g1 + Command(d, typingDelay) + g2 + Finish(d, downloadTimeout)
        == s.trace + (Chord(key, d) + g1 + Command(d, typingDelay) + g2 + Finish(d, downloadTimeout));
    Confirm(sc, s2, d, downloadTimeout)
  }

  /** `saveLocalCopy(page, file, { interactionDelay, typingDelay, downloadTimeout })`; it never throws. */
  method SaveLocalCopy(page: Page, platform: string, interactionDelay: nat, typingDelay: nat, downloadTimeout: nat)
    returns (report: Download)
    modifies page
    ensures (page.State(), report)
         == SaveLocalCopySpec(page.script, old(page.State()), platform, interactionDelay, typingDelay, downloadTimeout)
  {
    var key := ModifierKey(platform);
    ghost var s0 := page.State();
    ghost var sc := page.script;
    page.Perform(KeyDown(key));
    page.Perform(KeyPress("KeyP"));
    page.Perform(KeyUp(key));
    assert page.State() == s0.(trace := s0.trace + [KeyDown(key), KeyPress("KeyP"), KeyUp(key)]);

    var palette := page.WaitForSelector(PALETTE_SEARCH, Some(interactionDelay));
    if palette.Thrown? {
      page.Perform(Pause(interactionDelay));
      page.Perform(ClosePage);
    }
    ghost var s1 := page.State();
    assert s1 == Lookup(sc, s0, [KeyDown(key), KeyPress("KeyP"), KeyUp(key)], PALETTE_SEARCH, interactionDelay);

    page.Perform(TypeText(COMMAND, typingDelay));
    var result := page.WaitForSelector(PALETTE_RESULT, Some(interactionDelay));
    if result.Thrown? {
      page.Perform(Pause(interactionDelay));
      page.Perform(ClosePage);
    }
    assert page.State() == Lookup(sc, s1, [TypeText(COMMAND, typingDelay)], PALETTE_RESULT, interactionDelay);

    page.Perform(KeyPress("Enter"));
    var idle := page.WaitForNetworkIdle(downloadTimeout, BASE_IDLE_TIME + interactionDelay);
    report := if idle then Downloaded else TimedOut(TimeoutSeconds(downloadTimeout));
    // finally
    page.Perform(Pause(2 * interactionDelay));
    page.Perform(ClosePage);
  }
}
