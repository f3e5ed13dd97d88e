/** The back-button policy: go back in the page history, return to the home page, or
    require a second press within a time window before closing the screen. */
module BackNavigation {
  import opened Home

  /** Two presses closer together than this many milliseconds close the screen. */
  const DoublePressWindow: int := 2000

  datatype BackAction =
    | LoadHome       // load the home URL
    | GoBack         // step back one entry in the page history
    | Exit           // let the press through: the screen closes
    | ShowExitHint   // show "press back again to exit" and remember the time

  /** The two clock readings one press makes: `checked` is compared against the window,
      and `recorded`, read later, is stored when the hint is shown. */
  datatype PressClock = PressClock(checked: int, recorded: int)

  /** Presses that reach the timed branch: at a start page, or without history in a
      deep-linked session. */
  predicate TimedBranch(canGoBack: bool, url: string, hasIntent: bool)
  {
    IsStartPage(url) || (!canGoBack && hasIntent)
  }

  /** onBackPressed, given whether the web view has history, its current URL, whether the
      screen was opened by a deep link, the time of the last hint, and the clock reading
      compared against the window. Each press yields exactly the action its conditions
      select, tested in onBackPressed's order. */
  function BackPress(canGoBack: bool, url: string, hasIntent: bool, lastPress: int, now: int): (a: BackAction)
    ensures a == LoadHome <==> !canGoBack && !IsStartPage(url) && !hasIntent
    ensures a == GoBack <==> canGoBack && !IsStartPage(url)
    ensures a in {Exit, ShowExitHint} <==> TimedBranch(canGoBack, url, hasIntent)
    ensures a == Exit <==> TimedBranch(canGoBack, url, hasIntent) && lastPress + DoublePressWindow > now
  {
    var isStartPage := IsStartPage(url);
    if !canGoBack && !isStartPage && !hasIntent then LoadHome
    else if canGoBack && !isStartPage then GoBack
    else if lastPress + DoublePressWindow > now then Exit
    else ShowExitHint
  }

  /** The stored press time after a press: only a hint stores a time, the later reading. */
  function NextPressTime(action: BackAction, lastPress: int, recorded: int): (t: int)
    ensures action != ShowExitHint ==> t == lastPress
    ensures action == ShowExitHint ==> t == recorded
  {
    if action == ShowExitHint then recorded else lastPress
  }

  /** A sequence of presses, in one unchanged page state. The run ends at the first Exit,
      since the screen is gone after it: an Exit is the last action and the only one, and
      a run shorter than the presses ends in an Exit. */
  function PressSequence(canGoBack: bool, url: string, hasIntent: bool, lastPress: int, presses: seq<PressClock>)
    : (r: seq<BackAction>)
    ensures |r| <= |presses|
    ensures presses != [] ==> r != [] && r[0] == BackPress(canGoBack, url, hasIntent, lastPress, presses[0].checked)
    ensures Exit in r ==> r[|r| - 1] == Exit && Exit !in r[..|r| - 1]
    ensures |r| < |presses| ==> r != [] && r[|r| - 1] == Exit
    decreases |presses|
  {
    if presses == [] then []
    else
      var p := presses[0];
      var a := BackPress(canGoBack, url, hasIntent, lastPress, p.checked);
      if a == Exit then [Exit]
      else
        var rest := PressSequence(canGoBack, url, hasIntent, NextPressTime(a, lastPress, p.recorded), presses[1..]);
        assert ([a] + rest)[..|[a] + rest| - 1] == if rest == [] then [] else [a] + rest[..|rest| - 1];
        [a] + rest
  }

  /** The time a press is measured against: `lastPress` for the first, the stored reading
      of the one before it otherwise. */
  function PreviousPress(lastPress: int, presses: seq<PressClock>, k: nat): int
    requires k < |presses|
  {
    if k == 0 then lastPress else presses[k - 1].recorded
  }

  /** Each press is checked at least a full window after the time stored by the one before
      it (the first, after `lastPress`). */
  ghost predicate Spaced(lastPress: int, presses: seq<PressClock>)
  {
    forall k :: 0 <= k < |presses| ==> PreviousPress(lastPress, presses, k) + DoublePressWindow <= presses[k].checked
  }

  /** At the start page, presses spaced a full window apart never close the screen: every
      one of them shows the hint. */
  lemma {:induction false} SpacedPressesOnlyHint(canGoBack: bool, url: string, hasIntent: bool, lastPress: int, presses: seq<PressClock>)
    requires TimedBranch(canGoBack, url, hasIntent)
    requires Spaced(lastPress, presses)
    ensures PressSequence(canGoBack, url, hasIntent, lastPress, presses) == seq(|presses|, _ => ShowExitHint)
    decreases |presses|
  {
    if presses != [] {
      assert PreviousPress(lastPress, presses, 0) + DoublePressWindow <= presses[0].checked;
      assert BackPress(canGoBack, url, hasIntent, lastPress, presses[0].checked) == ShowExitHint;
      var rest := presses[1..];
      assert Spaced(presses[0].recorded, rest) by {
        forall k | 0 <= k < |rest|
          ensures PreviousPress(presses[0].recorded, rest, k) + DoublePressWindow <= rest[k].checked
        {
          assert rest[k] == presses[k + 1];
          assert PreviousPress(lastPress, presses, k + 1) + DoublePressWindow <= presses[k + 1].checked;
        }
      }
      SpacedPressesOnlyHint(canGoBack, url, hasIntent, presses[0].recorded, rest);
      assert seq(|presses|, _ => ShowExitHint) == [ShowExitHint] + seq(|rest|, _ => ShowExitHint);
    }
  }

  /** At the start page, a press that shows the hint followed by one checked less than a
      window after the stored time closes the screen. */
  lemma QuickSecondPressExits(canGoBack: bool, url: string, hasIntent: bool, lastPress: int, first: PressClock, second: PressClock)
    requires TimedBranch(canGoBack, url, hasIntent)
    requires lastPress + DoublePressWindow <= first.checked
    requires second.checked < first.recorded + DoublePressWindow
    ensures PressSequence(canGoBack, url, hasIntent, lastPress, [first, second]) == [ShowExitHint, Exit]
  {
    assert [first, second][1..] == [second];
  }

  /** Before any hint the stored time is 0, so on a clock past the first window the first
      press at the start page shows the hint rather than closing the screen. */
  lemma FirstStartPagePressShowsHint(canGoBack: bool, hasIntent: bool, now: int)
    requires now >= DoublePressWindow
    ensures BackPress(canGoBack, GolemUrl, hasIntent, 0, now) == ShowExitHint
  {
  }

  /** Off the timed branch a press never stores a time, whatever the clock says. */
  lemma OtherBranchesKeepPressTime(canGoBack: bool, url: string, hasIntent: bool, lastPress: int, now: int, recorded: int)
    requires !TimedBranch(canGoBack, url, hasIntent)
    ensures NextPressTime(BackPress(canGoBack, url, hasIntent, lastPress, now), lastPress, recorded) == lastPress
  {
  }
}
