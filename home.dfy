/** The site's home URL, the start-page test and the URL loaded at launch. */
module Home {
  import opened Wrappers

  const GolemUrl: string := "https://www.golem.de/"
  /** The fragment the site appends when the reader jumps back to the top of the page. */
  const TopAnchor: string := "#top"

  /** The start page is the home URL, with or without the top anchor. */
  function IsStartPage(url: string): (r: bool)
    ensures r <==> url in {GolemUrl, GolemUrl + TopAnchor}
    ensures r ==> GolemUrl <= url
  {
    url == GolemUrl || url == GolemUrl + TopAnchor
  }

  /** The URL loaded when the screen is created: the launch URI if one was supplied
      (a deep link), the home URL otherwise. */
  function LaunchUrl(uri: Option<string>): (url: string)
    ensures uri.Some? ==> url == uri.value
    ensures uri.None? ==> url == GolemUrl && IsStartPage(url)
  {
    match uri
    case Some(u) => u
    case None => GolemUrl
  }

  /** Only the two start-page spellings count: any other anchor on the home page does not. */
  lemma OtherAnchorsAreNotStartPages(anchor: string)
    requires anchor != "" && anchor != TopAnchor
    ensures !IsStartPage(GolemUrl + anchor)
  {
    PrefixCancels(GolemUrl, anchor, TopAnchor);
    assert |GolemUrl + anchor| > |GolemUrl|;
  }

  lemma PrefixCancels(p: string, a: string, b: string)
    ensures p + a == p + b ==> a == b
  {
    if p + a == p + b {
      assert a == (p + a)[|p|..];
      assert b == (p + b)[|p|..];
    }
  }
}
