/** The navigation decision of the web view client: a link is either loaded inside the
    app or handed off to the operating system. */
module Dispatcher {
  import opened Wrappers
  import opened JavaString
  import HostFilter

  /** URL prefixes that are always handed off (phone, text message, mail, messenger). */
  const SpecialSchemes: seq<string> := ["tel", "sms", "mailto", "whatsapp"]

  /** The first-party hosts whose pages stay inside the app. */
  const InAppHosts: set<string> := {
    "www.golem.de", "video.golem.de", "forum.golem.de", "account.golem.de", "suche.golem.de",
    "it-profis.golem.de", "pc.golem.de", "redirect.golem.de", "glm.io"
  }

  datatype Navigation = HandOff | LoadInApp

  /** What openExternalURL does with the link it is handed. */
  datatype ExternalEffect =
    | NoEffect
    | OpenChooser(target: string)   // some installed app resolves the link: offer a chooser
    | CannotOpenNotice               // nothing resolves it: show the "cannot open link" notice

  /** The URL begins with one of the special scheme prefixes (a plain prefix test, so
      "telegram:" and "smsto:" count too). */
  ghost predicate HasSpecialScheme(url: string)
  {
    exists k :: 0 <= k < |SpecialSchemes| && SpecialSchemes[k] <= url
  }

  /** shouldOverrideUrlLoading: a special-scheme URL is handed off whatever its host;
      any other URL is loaded in the app iff its host is absent or one of the in-app hosts. */
  function ClassifyNavigation(url: string, host: Option<string>): (r: Navigation)
    ensures HasSpecialScheme(url) ==> r == HandOff
    ensures !HasSpecialScheme(url) ==> (r == LoadInApp <==> host.None? || host.value in InAppHosts)
  {
    assert HasSpecialScheme(url) <==>
      "tel" <= url || "sms" <= url || "mailto" <= url || "whatsapp" <= url
    by {
      if "tel" <= url { assert SpecialSchemes[0] <= url; }
      if "sms" <= url { assert SpecialSchemes[1] <= url; }
      if "mailto" <= url { assert SpecialSchemes[2] <= url; }
      if "whatsapp" <= url { assert SpecialSchemes[3] <= url; }
    }
    if "tel" <= url || "sms" <= url || "mailto" <= url || "whatsapp" <= url then
      HandOff
    else if host.None? || host.value == "www.golem.de" || host.value == "video.golem.de"
         || host.value == "forum.golem.de" || host.value == "account.golem.de"
         || host.value == "suche.golem.de" || host.value == "it-profis.golem.de"
         || host.value == "pc.golem.de" || host.value == "redirect.golem.de"
         || host.value == "glm.io" then
      LoadInApp
    else
      HandOff
  }

  /** openExternalURL: a chooser for the link when some app resolves it, the notice otherwise. */
  function OpenExternal(externalUrl: string, resolvable: bool): (e: ExternalEffect)
    ensures e != NoEffect
    ensures e.OpenChooser? <==> resolvable
    ensures e.OpenChooser? ==> e.target == externalUrl
  {
    if resolvable then OpenChooser(externalUrl) else CannotOpenNotice
  }

  /** The overall outcome of a navigation: whether the web view's own loading is overridden,
      and what is handed to the system. */
  function Dispatch(url: string, host: Option<string>, resolvable: bool): (r: (bool, ExternalEffect))
    ensures r.0 <==> ClassifyNavigation(url, host) == HandOff
    ensures r.0 ==> r.1 == OpenExternal(url, resolvable)
    ensures !r.0 ==> r.1 == NoEffect
  {
    if ClassifyNavigation(url, host) == HandOff then (true, OpenExternal(url, resolvable))
    else (false, NoEffect)
  }

  /** A special-scheme URL is handed off even when its host is one of the in-app hosts. */
  lemma SpecialSchemeBeatsHost(url: string, host: string)
    requires "mailto" <= url && host in InAppHosts
    ensures ClassifyNavigation(url, Some(host)) == HandOff
  {
    assert SpecialSchemes[2] <= url;
  }

  /** Every page kept in the app may also fetch its own sub-resources: each in-app host
      passes the resource filter. */
  lemma InAppHostsPassFilter(host: string)
    requires host in InAppHosts
    ensures HostFilter.InterceptRequest(Some(host)) == HostFilter.PassThrough
  {
    if host == "glm.io" {
      assert OccursAt(host, "glm.io", 0);
    } else {
      var i := |host| - 8;
      assert host[i..i + 8] == "golem.de";
      assert OccursAt(host, "golem.de", i);
    }
    HostFilter.PermittedSpelledOut(Some(host));
  }

  /** The resource filter is looser than the navigation test: a host that only contains the
      site's domain may serve resources, yet a link to it is handed off. */
  lemma FilterLooserThanDispatcher()
    ensures HostFilter.InterceptRequest(Some("xgolem.de.evil.com")) == HostFilter.PassThrough
    ensures ClassifyNavigation("https://xgolem.de.evil.com/", Some("xgolem.de.evil.com")) == HandOff
  {
    HostFilter.SpoofedHostPasses();
    var url := "https://xgolem.de.evil.com/";
    forall k | 0 <= k < |SpecialSchemes| ensures !(SpecialSchemes[k] <= url) {
      assert SpecialSchemes[k][0] != url[0];
    }
  }
}
