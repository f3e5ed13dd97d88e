/** Sequences of events on the activity, proved from the handlers' contracts alone. */
module Scenarios {
  import opened Wrappers
  import opened Home
  import opened BackNavigation
  import opened Activity

  /** A plain session that paused on `a`; the process is recreated and the new activity,
      whose web view shows `b`, resumes: it loads `a` again. */
  method RestoreAcrossRecreation(prefs: Preferences, layout: Layout, a: string, b: string)
    returns (load: Option<string>)
    requires a != b
    modifies prefs
    ensures load == Some(a)
  {
    var first := new MainActivity(prefs, None, layout);
    first.OnPause(a);
    var second := new MainActivity(prefs, None, layout);
    load := second.OnResume(b);
  }

  /** Pausing and resuming one activity on an unchanged URL issues no load. */
  method PauseResumeSameUrl(act: MainActivity, url: string) returns (load: Option<string>)
    requires act.Valid()
    modifies act.prefs
    ensures load == None
  {
    act.OnPause(url);
    load := act.OnResume(url);
  }

  /** At the home page, two back presses, the second checked less than the window after the
      time the first stored: the first shows the hint, the second closes the screen. */
  method DoubleBackPress(act: MainActivity, canGoBack: bool, first: PressClock, second: PressClock)
    returns (a1: BackAction, a2: BackAction)
    requires act.Valid()
    requires act.timeBackPressed + DoublePressWindow <= first.checked
    requires second.checked < first.recorded + DoublePressWindow
    modifies act
    ensures a1 == ShowExitHint && a2 == Exit
  {
    a1 := act.OnBackPressed(GolemUrl, canGoBack, first.checked, first.recorded);
    a2 := act.OnBackPressed(GolemUrl, canGoBack, second.checked, second.recorded);
  }

  /** At the home page, two back presses, the second checked a full window or more after the
      time the first stored: both show the hint, and the second press's reading is stored. */
  method SlowBackPresses(act: MainActivity, canGoBack: bool, first: PressClock, second: PressClock)
    returns (a1: BackAction, a2: BackAction)
    requires act.Valid()
    requires act.timeBackPressed + DoublePressWindow <= first.checked
    requires first.recorded + DoublePressWindow <= second.checked
    modifies act
    ensures a1 == ShowExitHint && a2 == ShowExitHint
    ensures act.timeBackPressed == second.recorded
  {
    a1 := act.OnBackPressed(GolemUrl + TopAnchor, canGoBack, first.checked, first.recorded);
    a2 := act.OnBackPressed(GolemUrl + TopAnchor, canGoBack, second.checked, second.recorded);
  }

  /** Entering fullscreen, losing and regaining focus, then leaving: the bars are hidden again
      on refocus, and leaving hides the container and restores the bars for the theme. */
  method FullScreenRoundTrip(act: MainActivity, lightTheme: bool, sdk: int)
    requires act.Valid()
    modifies act
    ensures act.Valid()
    ensures !act.isFullScreen && !act.fullScreenVisible && !act.shareVisible
    ensures act.systemBars == ExitBars(lightTheme, sdk)
  {
    act.OnShowCustomView();
    act.OnWindowFocusChanged(false);
    act.OnWindowFocusChanged(true);
    assert act.systemBars == Immersive;
    act.OnHideCustomView(lightTheme, sdk);
  }
}
