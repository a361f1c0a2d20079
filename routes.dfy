/**
 * Resource path matching. Both adapters match the request URL against a
 * JavaScript regular expression of the form `^<root>(.+)$` (`/^\/r\/(.+)$/`
 * for CoAP, `/^\/resources\/(.+)$/` for HTTP) and take the captured group
 * as the topic. Without the `s` and `m` flags, `.` matches any character but
 * a line terminator and `$` matches only at the end of the input.
 */
module Routes {
  import opened Wrappers

  const CoapRoot := "/r/"
  const HttpRoot := "/resources/"

  /** The characters JavaScript's `.` does not match. */
  predicate IsLineTerminator(c: char)
  {
    c == '\n' || c == '\r' || c == '\U{2028}' || c == '\U{2029}'
  }

  predicate NoLineTerminator(s: string)
  {
    forall i :: 0 <= i < |s| ==> !IsLineTerminator(s[i])
  }

  /** `url.match(/^<root>(.+)$/)`, giving the captured topic. */
  function MatchResource(root: string, url: string): (r: Option<string>)
    ensures r.Some? ==> url == root + r.value && r.value != "" && NoLineTerminator(r.value)
  {
    if |root| < |url| && url[..|root|] == root && NoLineTerminator(url[|root|..])
    then Some(url[|root|..])
    else None
  }

  /** The URL matches exactly when it is the root followed by a non-empty
      topic without line terminators, and then the topic is that remainder. */
  lemma MatchIff(root: string, url: string, topic: string)
    ensures MatchResource(root, url) == Some(topic) <==>
            url == root + topic && topic != "" && NoLineTerminator(topic)
  {
    if url == root + topic {
      assert url[..|root|] == root;
      assert url[|root|..] == topic;
    }
    if MatchResource(root, url) == Some(topic) {
      assert url == url[..|root|] + url[|root|..];
    }
  }

  /** A URL that does not start with the root never matches. */
  lemma OtherPrefixNeverMatches(root: string, url: string)
    requires !(|root| <= |url| && url[..|root|] == root)
    ensures MatchResource(root, url) == None
  {
  }

  /** Every matched topic, put back behind the root (the `Location-Path` or
      `Location` a write replies with), matches again to the same topic. */
  lemma LocationRematches(root: string, url: string)
    requires MatchResource(root, url).Some?
    ensures MatchResource(root, root + MatchResource(root, url).value) == MatchResource(root, url)
  {
    var topic := MatchResource(root, url).value;
    MatchIff(root, url, topic);
    MatchIff(root, root + topic, topic);
  }

  /** `/resources//hello` addresses topic `/hello`: the leading delimiter of
      the topic is kept, so `/hello` and `hello` are distinct topics. */
  lemma DoubleSlashKeepsDelimiter()
    ensures MatchResource(HttpRoot, "/resources//hello") == Some("/hello")
    ensures MatchResource(HttpRoot, "/resources/hello") == Some("hello")
  {
    MatchIff(HttpRoot, "/resources//hello", "/hello");
    MatchIff(HttpRoot, "/resources/hello", "hello");
  }

  /** The bare root and a topic broken by a line terminator do not match. */
  lemma RootAloneOrLineBreakNeverMatches()
    ensures MatchResource(CoapRoot, "/r/") == None
    ensures MatchResource(CoapRoot, "/r/a\nb") == None
  {
    assert "/r/a\nb"[|CoapRoot|..][1] == '\n';
  }
}
