/** `form_endpoint`: the request URL made of the configured base URL and an API path. */
module Endpoint {

  predicate EndsWithSlash(s: string) { |s| > 0 && s[|s| - 1] == '/' }

  predicate StartsWithSlash(s: string) { |s| > 0 && s[0] == '/' }

  /** Drops at most one trailing `/` from `url` and at most one leading `/` from `endpoint`,
      then joins the two with a single `/`. */
  function FormEndpoint(url: string, endpoint: string): (r: string)
    ensures |r| == |url| + 1 + |endpoint|
                   - (if EndsWithSlash(url) then 1 else 0)
                   - (if StartsWithSlash(endpoint) then 1 else 0)
    ensures url <= r
    ensures r[|r| - |endpoint|..] == endpoint
  {
    var first := if EndsWithSlash(url) then url[..|url| - 1] else url;
    var second := if StartsWithSlash(endpoint) then endpoint[1..] else endpoint;
    assert first + "/" == if EndsWithSlash(url) then url else url + "/";
    assert "/" + second == if StartsWithSlash(endpoint) then endpoint else "/" + endpoint;
    var head := first + "/";
    var joined := head + second;
    assert joined == first + ("/" + second);
    assert joined[..|url|] == url;
    joined
  }

  /** The character where base and path meet is a slash. */
  lemma JoinIsSlash(url: string, endpoint: string)
    ensures var k := |url| - (if EndsWithSlash(url) then 1 else 0);
            k < |FormEndpoint(url, endpoint)| && FormEndpoint(url, endpoint)[k] == '/'
  {
  }

  /** Neither side has a boundary slash: the result is `url + "/" + endpoint`, and adding one
      boundary slash on either side or both gives the same URL. */
  lemma OneSlashEitherWay(url: string, endpoint: string)
    requires !EndsWithSlash(url) && !StartsWithSlash(endpoint)
    ensures FormEndpoint(url, endpoint) == url + "/" + endpoint
    ensures FormEndpoint(url + "/", endpoint) == url + "/" + endpoint
    ensures FormEndpoint(url, "/" + endpoint) == url + "/" + endpoint
    ensures FormEndpoint(url + "/", "/" + endpoint) == url + "/" + endpoint
  {
  }

  /** Only one slash is stripped on each side: two trailing slashes on the base URL and a
      leading slash on the path leave a doubled slash in the URL. */
  lemma OnlyOneSlashStripped(url: string, endpoint: string)
    requires !StartsWithSlash(endpoint)
    ensures FormEndpoint(url + "//", "/" + endpoint) == url + "//" + endpoint
  {
  }
}
