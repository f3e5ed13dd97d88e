/** Saving and restoring the last visited URL through the preference store, a map from
    keys to strings with a single key in use. */
module Persistence {
  import opened Wrappers
  import opened Home

  const LastUrlKey: string := "last_url"

  /** getString(key, default): the stored value, or the default when the key is absent. */
  function GetString(store: map<string, string>, key: string, default: string): (v: string)
    ensures key in store ==> v == store[key]
    ensures key !in store ==> v == default
  {
    if key in store then store[key] else default
  }

  /** onPause: the store after pausing on `currentUrl`; a deep-linked session writes nothing. */
  function PauseStore(store: map<string, string>, hasIntent: bool, currentUrl: string): (s: map<string, string>)
    ensures hasIntent ==> s == store
    ensures !hasIntent ==> GetString(s, LastUrlKey, GolemUrl) == currentUrl
    ensures forall key :: key != LastUrlKey ==> (key in s <==> key in store)
    ensures forall key :: key in store && key != LastUrlKey ==> s[key] == store[key]
  {
    if hasIntent then store else store[LastUrlKey := currentUrl]
  }

  /** onResume: the URL to load, if any. A resume loads exactly when the session was not
      opened by a deep link, no page is loading and the stored URL (the home URL when none
      is stored) differs from the current one; what it loads is that URL. */
  function ResumeLoad(store: map<string, string>, hasIntent: bool, isLoading: bool, currentUrl: string)
    : (load: Option<string>)
    ensures load.Some? <==> !hasIntent && !isLoading && GetString(store, LastUrlKey, GolemUrl) != currentUrl
    ensures load.Some? ==> load.value != currentUrl
    ensures load.Some? && LastUrlKey in store ==> load.value == store[LastUrlKey]
    ensures load.Some? && LastUrlKey !in store ==> load.value == GolemUrl
  {
    var lastUrl := GetString(store, LastUrlKey, GolemUrl);
    if lastUrl != currentUrl && !isLoading && !hasIntent then Some(lastUrl) else None
  }

  /** Pausing and resuming on the same URL never issues a load. */
  lemma PauseThenResumeNoLoad(store: map<string, string>, hasIntent: bool, isLoading: bool, url: string)
    ensures ResumeLoad(PauseStore(store, hasIntent, url), hasIntent, isLoading, url) == None
  {
  }

  /** A fresh session (no deep link, nothing loading) on another URL restores the URL the
      last plain session paused on. */
  lemma ResumeRestoresPausedUrl(store: map<string, string>, paused: string, current: string)
    requires paused != current
    ensures ResumeLoad(PauseStore(store, false, paused), false, false, current) == Some(paused)
  {
  }

  /** A plain launch on an empty store shows the home URL, so its first resume loads nothing. */
  lemma PlainLaunchOnEmptyStoreNoReload(isLoading: bool)
    ensures ResumeLoad(map[], false, isLoading, LaunchUrl(None)) == None
  {
  }

  /** A deep-linked session neither writes nor reads the stored URL. */
  lemma DeepLinkSessionIgnoresStore(store: map<string, string>, isLoading: bool, url: string)
    ensures PauseStore(store, true, url) == store
    ensures ResumeLoad(store, true, isLoading, url) == None
  {
  }
}
