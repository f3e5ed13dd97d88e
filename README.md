# Golem.de reader: the activity's decision and state layer

The app shows the Golem.de news site inside an embedded web view. The only code in the
app is `MainActivity`, and most of it configures Android views. This project models the
part that makes decisions, and proves properties about it:

- **Resource filter.** Each sub-resource request is fetched only when its host is absent or
  *contains* one of four fragments: `golem.de`, `narando.com`, `bootstrapcdn.com`, `glm.io`.
  Every other request gets an empty `text/plain` / `utf-8` response.
- **Navigation dispatcher.** Some links are always handed off to the system: those starting
  `tel`, `sms`, `mailto` or `whatsapp`. Any other link stays in the app iff its host is absent
  or exactly one of nine first-party hosts; otherwise it is handed off. A hand-off opens a
  chooser when some app resolves the link, and a "cannot open link" notice otherwise.
- **Activity state.** A class holds the fields the event handlers update (`hasIntent`,
  `isLoading`, `isFullScreen`, `externalURL`, `timeBackPressed`). It also holds what the
  handlers show or hide: the progress bar and its value, the share button, the fullscreen
  container, the pull-to-refresh spinner and the system bars. The handlers are launch,
  progress, fullscreen enter and exit, focus, scroll, back press, pause and resume. An
  invariant (`Valid`) holds across all of them:
  - the share button is never shown with the progress bar;
  - the progress bar is shown while a page loads;
  - fullscreen always has its container shown.
- **Back button.** Go back in the page history, or load the home page. At the start page
  (`https://www.golem.de/` or its `#top` variant), or when a deep-linked session has no
  history, a second press within 2000 ms closes the screen.
- **Persistence.** The preference store is modelled as a `map<string, string>`. Pausing
  saves the current URL under `last_url`. Resuming loads the saved URL (home by default)
  when it differs from the current one and nothing is loading. Both steps are skipped in a
  session opened by a deep link.

Platform queries become parameters:

- the request's host, as `Option<string>`;
- the web view's current URL and whether it can go back;
- the clock (`now`), the light/dark theme and the SDK level;
- whether some installed app resolves a link.

Modules: `Wrappers` (Option), `JavaString` (`String.contains`), `Home`, `HostFilter`,
`Dispatcher`, `BackNavigation`, `Persistence`, `Activity` (the classes) and `Scenarios`
(event sequences proved from the handlers' contracts).

The resource filter is modelled as the code has it: substring containment. `xgolem.de.evil.com`
passes it.

`onBackPressed` reads the clock twice: once for the comparison with the last hint, and once
more for the time it stores when it shows the hint. The model takes both readings as inputs
(`PressClock`), so spacing is measured from the stored reading.

## Model

| member | source | states |
|---|---|---|
| `JavaString.Contains` | app/src/main/java/de/badener/golem/MainActivity.java:193-194 | `s.contains(t)` is true iff `t` occurs as a contiguous block somewhere in `s` |
| `Home.IsStartPage` | app/src/main/java/de/badener/golem/MainActivity.java:263 | the start page is exactly the home URL or the home URL plus `#top`; every start page begins with the home URL |
| `Home.OtherAnchorsAreNotStartPages` | app/src/main/java/de/badener/golem/MainActivity.java:263 | the home URL plus any anchor other than `#top` is not a start page |
| `Home.LaunchUrl` | app/src/main/java/de/badener/golem/MainActivity.java:119-129 | the URL loaded at launch is the launch URI when one is given, and exactly the home URL otherwise |
| `HostFilter.InterceptRequest` | app/src/main/java/de/badener/golem/MainActivity.java:190-200 | a request passes iff its host is absent or contains one of the four fragments; every other request gets the empty `text/plain`/`utf-8` response |
| `HostFilter.PermittedSpelledOut` | app/src/main/java/de/badener/golem/MainActivity.java:193-194 | the allow-list over the fragment list is the source's four containment tests joined by "or" |
| `HostFilter.SpoofedHostPasses` | app/src/main/java/de/badener/golem/MainActivity.java:193-194 | containment lets `xgolem.de.evil.com` through |
| `HostFilter.PassedHostHasDot` | app/src/main/java/de/badener/golem/MainActivity.java:193-194 | every host that passes contains a `.` |
| `HostFilter.ShortHostsBlocked` | app/src/main/java/de/badener/golem/MainActivity.java:193-199 | hosts shorter than six characters always get the empty response |
| `Dispatcher.ClassifyNavigation` | app/src/main/java/de/badener/golem/MainActivity.java:204-225 | a URL with a special-scheme prefix is handed off whatever its host; any other URL is loaded in the app iff its host is absent or one of the nine in-app hosts |
| `Dispatcher.OpenExternal` | app/src/main/java/de/badener/golem/MainActivity.java:230-240 | a hand-off opens a chooser on the recorded URL iff some app resolves it, and shows the notice otherwise |
| `Dispatcher.Dispatch` | app/src/main/java/de/badener/golem/MainActivity.java:204-225 | the method returns true iff the URL is handed off; a hand-off always opens the chooser or shows the notice; loading in the app has no external effect |
| `Dispatcher.SpecialSchemeBeatsHost` | app/src/main/java/de/badener/golem/MainActivity.java:208-212 | a `mailto` link is handed off even when its host is an in-app host; the prefix test runs before the host test |
| `Dispatcher.InAppHostsPassFilter` | app/src/main/java/de/badener/golem/MainActivity.java:193-217 | every in-app host also passes the resource filter |
| `Dispatcher.FilterLooserThanDispatcher` | app/src/main/java/de/badener/golem/MainActivity.java:193-224 | a host can pass the resource filter while links to it are handed off |
| `BackNavigation.NextPressTime` | app/src/main/java/de/badener/golem/MainActivity.java:268-274 | only the hint stores a press time, the second clock reading; every other action keeps the old one |
| `BackNavigation.BackPress` | app/src/main/java/de/badener/golem/MainActivity.java:262-275 | load home iff no history, not at the start page and no deep link; go back iff history and not at the start page; otherwise the timed branch, which exits iff the stored hint time plus 2000 is later than the compared reading `now` |
| `BackNavigation.PressSequence` | app/src/main/java/de/badener/golem/MainActivity.java:262-275 | a run of presses yields at most one action per press, the first being that press's action; an exit is the run's last action and its only exit, and a run shorter than the presses ends in an exit |
| `BackNavigation.SpacedPressesOnlyHint` | app/src/main/java/de/badener/golem/MainActivity.java:268-274 | on the timed branch, presses each checked at least 2000 ms after the time stored by the one before never exit; every one shows the hint |
| `BackNavigation.QuickSecondPressExits` | app/src/main/java/de/badener/golem/MainActivity.java:268-274 | on the timed branch, a hint followed by a press checked less than 2000 ms after the stored time exits |
| `BackNavigation.FirstStartPagePressShowsHint` | app/src/main/java/de/badener/golem/MainActivity.java:262-274 | with no hint recorded yet (time 0) and a clock past 2000 ms, the first press at home shows the hint |
| `BackNavigation.OtherBranchesKeepPressTime` | app/src/main/java/de/badener/golem/MainActivity.java:264-267 | loading home and going back never change `timeBackPressed` |
| `Persistence.GetString` | app/src/main/java/de/badener/golem/MainActivity.java:282 | reading a key gives its stored value, or the default when the key is absent |
| `Persistence.PauseStore` | app/src/main/java/de/badener/golem/MainActivity.java:289-298 | a deep-linked session leaves the store unchanged; otherwise `last_url` then reads back as the current URL, and other keys are kept |
| `Persistence.ResumeLoad` | app/src/main/java/de/badener/golem/MainActivity.java:278-286 | resume loads iff not deep-linked, not loading and the stored URL (home by default) differs from the current one; it loads that URL, which then differs from the current one |
| `Persistence.PauseThenResumeNoLoad` | app/src/main/java/de/badener/golem/MainActivity.java:277-298 | pausing and resuming on an unchanged URL issues no load |
| `Persistence.ResumeRestoresPausedUrl` | app/src/main/java/de/badener/golem/MainActivity.java:277-298 | a fresh plain session on another URL reloads the URL that the last plain session paused on |
| `Persistence.PlainLaunchOnEmptyStoreNoReload` | app/src/main/java/de/badener/golem/MainActivity.java:122-129 | a plain launch shows the home URL, so with nothing stored its resume loads nothing |
| `Persistence.DeepLinkSessionIgnoresStore` | app/src/main/java/de/badener/golem/MainActivity.java:281-297 | a deep-linked session neither writes the store nor loads from it |
| `Activity.Preferences.PutString` | app/src/main/java/de/badener/golem/MainActivity.java:293-296 | the key now holds the value and other keys are kept |
| `Activity.ExitBars` | app/src/main/java/de/badener/golem/MainActivity.java:150-162 | leaving fullscreen never leaves the bars hidden; light icons appear iff the light theme is on, and on the navigation bar too iff the SDK is at least Oreo |
| `Activity.MainActivity.constructor` | app/src/main/java/de/badener/golem/MainActivity.java:95-129 | the share button starts hidden, `hasIntent` holds iff a launch URI is given, all other fields keep their defaults, and the invariant holds |
| `Activity.MainActivity.OnScrollChange` | app/src/main/java/de/badener/golem/MainActivity.java:110-115 | scrolling down more than 10 hides the share button; scrolling up more than 10 shows it only when the progress bar is gone; smaller scrolls change nothing |
| `Activity.MainActivity.OnShowCustomView` | app/src/main/java/de/badener/golem/MainActivity.java:135-142 | entering fullscreen sets `isFullScreen`, hides the share button, shows the container and hides the bars |
| `Activity.MainActivity.OnHideCustomView` | app/src/main/java/de/badener/golem/MainActivity.java:146-163 | leaving fullscreen clears `isFullScreen`, hides the container and restores the bars for the theme and SDK |
| `Activity.MainActivity.OnProgressChanged` | app/src/main/java/de/badener/golem/MainActivity.java:167-183 | at 100: not loading, bar hidden, share shown, spinner cleared; otherwise loading, bar shown, share hidden, spinner kept |
| `Activity.MainActivity.OnRefresh` | app/src/main/java/de/badener/golem/MainActivity.java:87-92 | the pull gesture leaves the spinner running |
| `Activity.MainActivity.OnWindowFocusChanged` | app/src/main/java/de/badener/golem/MainActivity.java:244-247 | regaining focus in fullscreen hides the bars again; otherwise nothing changes |
| `Activity.MainActivity.ShouldOverrideUrlLoading` | app/src/main/java/de/badener/golem/MainActivity.java:204-225 | `externalURL` is set to the URL on every call; the outcome is that of `Dispatch` |
| `Activity.MainActivity.OpenExternalUrl` | app/src/main/java/de/badener/golem/MainActivity.java:230-240 | a chooser on `externalURL` iff resolvable, the notice otherwise |
| `Activity.MainActivity.OnBackPressed` | app/src/main/java/de/badener/golem/MainActivity.java:262-275 | the action is the policy's choice on the old press time and the compared reading; the press time changes only on a hint, to the second reading |
| `Activity.MainActivity.OnPause` | app/src/main/java/de/badener/golem/MainActivity.java:289-298 | the store becomes `PauseStore` of the old store: written only outside deep-linked sessions |
| `Activity.MainActivity.OnResume` | app/src/main/java/de/badener/golem/MainActivity.java:278-286 | the URL to load is `ResumeLoad` of the store and the session's flags; nothing changes |
| `Scenarios.RestoreAcrossRecreation` | app/src/main/java/de/badener/golem/MainActivity.java:277-298 | pause on `a` in one activity; a new activity over the same store, showing `b`, resumes and loads `a` |
| `Scenarios.PauseResumeSameUrl` | app/src/main/java/de/badener/golem/MainActivity.java:277-298 | pausing then resuming an activity on the same URL loads nothing |
| `Scenarios.DoubleBackPress` | app/src/main/java/de/badener/golem/MainActivity.java:262-275 | at home, a second press checked less than 2000 ms after the time the first stored: hint, then exit |
| `Scenarios.SlowBackPresses` | app/src/main/java/de/badener/golem/MainActivity.java:262-275 | at home (`#top`), a second press checked 2000 ms or more after the time the first stored: hint twice; the stored time is the second press's reading |
| `Scenarios.FullScreenRoundTrip` | app/src/main/java/de/badener/golem/MainActivity.java:135-163 | enter fullscreen, lose and regain focus, then leave: the container and share button end up hidden, fullscreen is off and the bars match the theme |

## Left out

- Web view settings, forced dark mode and swipe-refresh colours (lines 61-86). These are platform configuration with no decision in them.
- The share button's click handler (lines 97-105). It only builds and starts a share intent on the current URL.
- Intent construction, `resolveActivity`, the chooser and the Snackbar (lines 230-240). They become the `resolvable` parameter and the `ExternalEffect` values.
- The web view's own work: loading, going back, reloading, rendering and network access. The handlers return the command they would issue (`BackAction`, the load of `OnResume`, `LaunchUrl`); the web view is not modelled.
- The reload requested by the refresh gesture (line 90). It is a web-view command.
- Adding the custom view to the fullscreen container (line 140). Only the container's visibility is modelled.
- The progress bar's animation on Android 7.0 and later (lines 168-172). Only the progress value is modelled.
- The exact system-UI flag bits (lines 150-161, 252-257). They become the `SystemBars` outcomes.
- `SharedPreferences` I/O, `Uri` parsing and `System.currentTimeMillis`. They become a map, explicit host/URL inputs and a `now` parameter.
- The layout XML. The initial visibility of the progress bar and fullscreen container, and the initial bars, are constructor parameters.
- A null `webView.getUrl()`. URLs are non-null strings here; with a null URL the source's back press would throw.
- BackNavigation.BackPress: Java `long` overflow of `timeBackPressed + 2000` is not modelled, because times are unbounded integers. The sum cannot wrap for clock values below 2^63 - 2000.
- Activity.MainActivity.OnScrollChange: Java `int` overflow of `scrollY - oldScrollY` is not modelled, because the positions are unbounded integers.
