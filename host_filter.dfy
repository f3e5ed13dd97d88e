/** The sub-resource filter of the web view client: requests from hosts outside a short
    allow-list are answered with an empty response instead of being fetched. */
module HostFilter {
  import opened Wrappers
  import opened JavaString

  /** The fragments a host must contain to be fetched: the site, the audio partner,
      the CDN and the short-link domain. */
  const PermittedFragments: seq<string> := ["golem.de", "narando.com", "bootstrapcdn.com", "glm.io"]

  /** What the client answers for a sub-resource request. */
  datatype Response =
    | PassThrough
      // the platform's default handling: the resource is fetched
    | Substitute(mimeType: string, encoding: string, body: seq<int>)
      // a successful response that replaces the resource

  /** The empty text response given to every blocked request. */
  const EmptyResponse: Response := Substitute("text/plain", "utf-8", [])

  /** The host is absent or has one of the permitted fragments as a substring; the test
      is containment, not equality or a suffix match. */
  ghost predicate Permitted(host: Option<string>)
  {
    host.None? || exists k :: 0 <= k < |PermittedFragments| && OccursIn(host.value, PermittedFragments[k])
  }

  /** shouldInterceptRequest: passes the request through iff the host is permitted,
      and answers every other request with the empty text response. */
  function InterceptRequest(host: Option<string>): (r: Response)
    ensures r == PassThrough <==> Permitted(host)
    ensures r != PassThrough ==> r == EmptyResponse
  {
    PermittedSpelledOut(host);
    if host.None? || Contains(host.value, "golem.de") || Contains(host.value, "narando.com")
       || Contains(host.value, "bootstrapcdn.com") || Contains(host.value, "glm.io")
    then
      PassThrough
    else
      EmptyResponse
  }

  /** The allow-list test, one fragment at a time, as `shouldInterceptRequest` writes it. */
  lemma PermittedSpelledOut(host: Option<string>)
    ensures Permitted(host) <==>
      host.None? || OccursIn(host.value, "golem.de") || OccursIn(host.value, "narando.com")
      || OccursIn(host.value, "bootstrapcdn.com") || OccursIn(host.value, "glm.io")
  {
    if host.Some? {
      var h := host.value;
      if OccursIn(h, "golem.de") { assert OccursIn(h, PermittedFragments[0]); }
      if OccursIn(h, "narando.com") { assert OccursIn(h, PermittedFragments[1]); }
      if OccursIn(h, "bootstrapcdn.com") { assert OccursIn(h, PermittedFragments[2]); }
      if OccursIn(h, "glm.io") { assert OccursIn(h, PermittedFragments[3]); }
    }
  }

  /** Because the test is containment, a host that merely embeds the site's domain passes. */
  lemma SpoofedHostPasses()
    ensures InterceptRequest(Some("xgolem.de.evil.com")) == PassThrough
  {
    assert OccursAt("xgolem.de.evil.com", "golem.de", 1);
  }

  /** Every permitted fragment holds a dot, so a host without one is always blocked. */
  lemma PassedHostHasDot(host: string)
    requires InterceptRequest(Some(host)) == PassThrough
    ensures '.' in host
  {
    var k :| 0 <= k < |PermittedFragments| && OccursIn(host, PermittedFragments[k]);
    var f := PermittedFragments[k];
    var i :| OccursAt(host, f, i);
    var j := if k == 0 then 5 else if k == 1 then 7 else if k == 2 then 12 else 3;
    if k == 0 { assert f == "golem.de"; }
    else if k == 1 { assert f == "narando.com"; }
    else if k == 2 { assert f == "bootstrapcdn.com"; }
    else { assert f == "glm.io"; }
    assert f[j] == '.';
    assert host[i..i + |f|][j] == host[i + j];
  }

  /** The shortest fragment has six characters, so shorter hosts are always blocked. */
  lemma ShortHostsBlocked(host: string)
    requires |host| < 6
    ensures InterceptRequest(Some(host)) == EmptyResponse
  {
  }
}
