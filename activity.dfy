/** The activity: the fields its event handlers update and the views they show or hide.
    Everything the platform is asked (the web view's URL and history, the clock, the theme,
    the SDK level, whether an app resolves a link) is passed in. */
module Activity {
  import opened Wrappers
  import opened Home
  import opened Dispatcher
  import opened BackNavigation
  import opened Persistence

  /** The app's private preference store; it outlives any one activity instance. */
  class Preferences {
    var entries: map<string, string>

    constructor (entries: map<string, string>)
      ensures this.entries == entries
    {
      this.entries := entries;
    }

    /** putString followed by apply: the key now holds the value, other keys are kept. */
    method PutString(key: string, value: string)
      modifies this
      ensures entries == old(entries)[key := value]
    {
      entries := entries[key := value];
    }
  }

  /** The system bars as the handlers leave them. */
  datatype SystemBars =
    | BarsVisible                   // plain visible bars
    | Immersive                     // both bars hidden, sticky immersive mode
    | LightStatusBar                // visible, dark icons on a light status bar
    | LightStatusAndNavigationBars  // visible, dark icons on both bars

  /** Android 8.0 (Oreo), the first level with light navigation bars. */
  const SdkOreo: int := 26

  /** The bars after leaving fullscreen: light icons are restored under the light theme,
      on the navigation bar too from Oreo on; under the dark theme the bars are plain. */
  function ExitBars(lightTheme: bool, sdk: int): (b: SystemBars)
    ensures b != Immersive
    ensures !lightTheme <==> b == BarsVisible
    ensures b == LightStatusAndNavigationBars <==> lightTheme && sdk >= SdkOreo
  {
    if !lightTheme then BarsVisible
    else if sdk >= SdkOreo then LightStatusAndNavigationBars
    else LightStatusBar
  }

  /** What the layout file shows before any handler runs. */
  datatype Layout = Layout(progressBarShown: bool, fullScreenShown: bool, bars: SystemBars)

  /** Progress at which a page counts as loaded. */
  const Loaded: int := 100

  /** A scroll by more than this many pixels hides or shows the share button. */
  const ScrollThreshold: int := 10

  class MainActivity {
    const prefs: Preferences

    var hasIntent: bool
    var isLoading: bool
    var isFullScreen: bool
    var externalURL: Option<string>
    var timeBackPressed: int

    var progress: int
    var progressBarVisible: bool
    var shareVisible: bool
    var fullScreenVisible: bool
    var refreshing: bool
    var systemBars: SystemBars

    /** The share button is never shown together with the progress bar, the progress bar
        is shown while a page loads, and fullscreen mode always has its container shown. */
    ghost predicate Valid()
      reads this
    {
      && (progressBarVisible ==> !shareVisible)
      && (isLoading ==> progressBarVisible)
      && (isFullScreen ==> fullScreenVisible)
    }

    /** onCreate, with the launch URI (if any): the share button starts hidden and the
        session counts as deep-linked iff a URI was supplied. The URL it loads is LaunchUrl(uri). */
    constructor (prefs: Preferences, uri: Option<string>, layout: Layout)
      ensures Valid()
      ensures this.prefs == prefs
      ensures hasIntent <==> uri.Some?
      ensures !isLoading && !isFullScreen && externalURL == None && timeBackPressed == 0
      ensures progress == 0 && !shareVisible && !refreshing
      ensures progressBarVisible == layout.progressBarShown
      ensures fullScreenVisible == layout.fullScreenShown
      ensures systemBars == layout.bars
    {
      this.prefs := prefs;
      hasIntent := uri.Some?;
      isLoading, isFullScreen := false, false;
      externalURL := None;
      timeBackPressed := 0;
      progress := 0;
      progressBarVisible := layout.progressBarShown;
      shareVisible := false;
      fullScreenVisible := layout.fullScreenShown;
      refreshing := false;
      systemBars := layout.bars;
    }

    /** onScrollChange: scrolling down by more than the threshold hides the share button;
        scrolling up by more than it shows the button, but only once the progress bar is gone. */
    method OnScrollChange(scrollY: int, oldScrollY: int)
      requires Valid()
      modifies this`shareVisible
      ensures Valid()
      ensures scrollY - oldScrollY > ScrollThreshold ==> !shareVisible
      ensures scrollY - oldScrollY < -ScrollThreshold ==> shareVisible == (old(shareVisible) || !progressBarVisible)
      ensures -ScrollThreshold <= scrollY - oldScrollY <= ScrollThreshold ==> shareVisible == old(shareVisible)
    {
      var deltaScrollY := scrollY - oldScrollY;
      if deltaScrollY > ScrollThreshold {
        shareVisible := false;
      }
      if deltaScrollY < -ScrollThreshold && !progressBarVisible {
        shareVisible := true;
      }
    }

    /** onShowCustomView: enter fullscreen with the share button hidden, the container shown
        and the bars hidden. */
    method OnShowCustomView()
      requires Valid()
      modifies this`isFullScreen, this`shareVisible, this`fullScreenVisible, this`systemBars
      ensures Valid()
      ensures isFullScreen && !shareVisible && fullScreenVisible && systemBars == Immersive
    {
      isFullScreen := true;
      shareVisible := false;
      fullScreenVisible := true;
      systemBars := Immersive;
    }

    /** onHideCustomView: leave fullscreen, hide the container and restore the bars for the
        current theme and platform level. */
    method OnHideCustomView(lightTheme: bool, sdk: int)
      requires Valid()
      modifies this`isFullScreen, this`fullScreenVisible, this`systemBars
      ensures Valid()
      ensures !isFullScreen && !fullScreenVisible
      ensures systemBars == ExitBars(lightTheme, sdk)
    {
      isFullScreen := false;
      fullScreenVisible := false;
      systemBars := BarsVisible;
      if lightTheme {
        if sdk >= SdkOreo {
          systemBars := LightStatusAndNavigationBars;
        } else {
          systemBars := LightStatusBar;
        }
      }
    }

    /** onProgressChanged: at 100 the page counts as loaded (bar hidden, share button shown,
        pull-to-refresh spinner cleared); any other value counts as loading (bar shown,
        share button hidden, spinner untouched). */
    method OnProgressChanged(newProgress: int)
      requires Valid()
      modifies this`progress, this`isLoading, this`progressBarVisible, this`shareVisible, this`refreshing
      ensures Valid()
      ensures progress == newProgress
      ensures isLoading == progressBarVisible == (newProgress != Loaded)
      ensures shareVisible == (newProgress == Loaded)
      ensures refreshing == (old(refreshing) && newProgress != Loaded)
    {
      progress := newProgress;
      if newProgress == Loaded {
        isLoading := false;
        progressBarVisible := false;
        shareVisible := true;
        refreshing := false;
      } else {
        isLoading := true;
        progressBarVisible := true;
        shareVisible := false;
      }
    }

    /** The pull-to-refresh gesture: the layout starts its spinner (the reload it asks of
        the web view is not part of this model). */
    method OnRefresh()
      requires Valid()
      modifies this`refreshing
      ensures Valid() && refreshing
    {
      refreshing := true;
    }

    /** onWindowFocusChanged: regaining focus in fullscreen hides the bars again; in every
        other case nothing changes. */
    method OnWindowFocusChanged(hasFocus: bool)
      requires Valid()
      modifies this`systemBars
      ensures Valid()
      ensures hasFocus && isFullScreen ==> systemBars == Immersive
      ensures !(hasFocus && isFullScreen) ==> systemBars == old(systemBars)
    {
      if hasFocus && isFullScreen {
        systemBars := Immersive;
      }
    }

    /** shouldOverrideUrlLoading: records the URL as the external URL, then either lets the
        web view load it (false) or hands it off (true), offering a chooser when some app
        resolves it and a notice when none does. */
    method ShouldOverrideUrlLoading(url: string, host: Option<string>, resolvable: bool)
      returns (overridden: bool, effect: ExternalEffect)
      requires Valid()
      modifies this`externalURL
      ensures Valid()
      ensures externalURL == Some(url)
      ensures (overridden, effect) == Dispatch(url, host, resolvable)
    {
      externalURL := Some(url);
      if "tel" <= url || "sms" <= url || "mailto" <= url || "whatsapp" <= url {
        effect := OpenExternalUrl(resolvable);
        overridden := true;
      } else if host.None? || host.value in InAppHosts {
        overridden, effect := false, NoEffect;
      } else {
        effect := OpenExternalUrl(resolvable);
        overridden := true;
      }
    }

    /** openExternalURL, on the URL recorded by the last navigation. */
    method OpenExternalUrl(resolvable: bool) returns (effect: ExternalEffect)
      requires externalURL.Some?
      ensures effect == OpenExternal(externalURL.value, resolvable)
    {
      if resolvable {
        effect := OpenChooser(externalURL.value);
      } else {
        effect := CannotOpenNotice;
      }
    }

    /** onBackPressed, given the web view's history and URL and the two clock readings the
        handler takes (`now` for the comparison, `recorded` when the hint is shown): the
        action the back-button policy selects; only a hint stores a press time. */
    method OnBackPressed(url: string, canGoBack: bool, now: int, recorded: int) returns (action: BackAction)
      requires Valid()
      modifies this`timeBackPressed
      ensures Valid()
      ensures action == BackPress(canGoBack, url, hasIntent, old(timeBackPressed), now)
      ensures timeBackPressed == NextPressTime(action, old(timeBackPressed), recorded)
    {
      var isStartPage := url == GolemUrl || url == GolemUrl + TopAnchor;
      if !canGoBack && !isStartPage && !hasIntent {
        action := LoadHome;
      } else if canGoBack && !isStartPage {
        action := GoBack;
      } else if timeBackPressed + DoublePressWindow > now {
        action := Exit;
      } else {
        action := ShowExitHint;
        timeBackPressed := recorded;
      }
    }

    /** onPause, with the web view's current URL: saves it unless the session is deep-linked. */
    method OnPause(currentUrl: string)
      requires Valid()
      modifies prefs
      ensures Valid()
      ensures prefs.entries == PauseStore(old(prefs.entries), hasIntent, currentUrl)
    {
      if !hasIntent {
        prefs.PutString(LastUrlKey, currentUrl);
      }
    }

    /** onResume, with the web view's current URL: the URL to load, if any. */
    method OnResume(currentUrl: string) returns (load: Option<string>)
      requires Valid()
      ensures load == ResumeLoad(prefs.entries, hasIntent, isLoading, currentUrl)
    {
      var lastUrl := if LastUrlKey in prefs.entries then prefs.entries[LastUrlKey] else GolemUrl;
      if lastUrl != currentUrl && !isLoading && !hasIntent {
        load := Some(lastUrl);
      } else {
        load := None;
      }
    }
  }
}
