/** The prerender client in the exchanges its tests set up: a server at
    127.0.0.1 holding token "123", and a caller asking for
    `http://127.0.0.1:3000/...` with an `_escaped_fragment_` query. The
    upstream service is whatever `transport` answers. */
module UpstreamVectors {
  import opened Wrappers
  import opened Text
  import opened Http
  import opened Classifier
  import opened Upstream

  const ServerIP: string := "127.0.0.1"
  const Token: string := "123"
  const TestClient: Client := Client(APIHost, ServerIP, Token)

  /** The caller's GET of `path?query` on the test application. */
  function CallerRequest(path: string, query: string, h: Header): Request {
    Request("GET", Url("http", "", None, "127.0.0.1:3000", path, false, query, ""), h)
  }

  /** `_escaped_fragment_=`, alone and as the second query parameter. */
  const FragmentOnly: string := EscapedFragment + "="
  const TokenQuery: string := "param1=val1&" + FragmentOnly

  /** The request of the header tests: `/?_escaped_fragment_=`. */
  function RootRequest(h: Header): Request {
    CallerRequest("/", FragmentOnly, h)
  }

  /** `New` needs an address the IP parser accepts and a token, and checks
      the address first. */
  lemma NewVectors(validIP: string -> bool)
    requires validIP(ServerIP)
    ensures New(ServerIP, Token, validIP) == Ok(TestClient)
    ensures New(ServerIP, "", validIP) == Err(NoToken)
    ensures New("", Token, validIP) == Err(NoIPAddress)
    ensures New("", "", validIP) == Err(NoIPAddress)
  {
  }

  /** The requests of these tests are prerendered: their query names the
      escaped fragment. */
  lemma CallerRequestsPrerendered(h: Header)
    ensures IsPrerender(CallerRequest("/path", TokenQuery, h))
    ensures IsPrerender(RootRequest(h))
  {
    assert Occurs(EscapedFragment, EscapedFragment, 0);
    OccursInPrefix(EscapedFragment, "=", EscapedFragment, 0);
    OccursInSuffix("param1=val1&", FragmentOnly, EscapedFragment, 0);
  }

  /** The query of the token test holds no `#`. */
  lemma TokenQueryUnfragmented()
    ensures '#' !in TokenQuery
  {
  }

  /** The service receives the token as the first segment of its path,
      and the caller's query unchanged. */
  lemma TokenSentFirst()
    ensures var u := ParseHttpUrl(UpstreamTarget(TestClient, CallerRequest("/path", TokenQuery, map[]).url));
            u.Some? && u.value.host == APIHostName && u.value.rawQuery == TokenQuery
            && |SplitOn(u.value.path, '/')| >= 2 && SplitOn(u.value.path, '/')[1] == Token
  {
    TokenQueryUnfragmented();
    TokenIsFirstSegment(TestClient, CallerRequest("/path", TokenQuery, map[]).url);
  }

  /** Without X-Forwarded-For, the service sees the server address alone. */
  lemma ForwardedForAdded(w: Header, requestError: string -> Option<string>, transport: Outbound -> Transport)
    requires requestError(UpstreamTarget(TestClient, RootRequest(map[]).url)).None?
    ensures var p := GetPrerenderedPage(TestClient, w, RootRequest(map[]), requestError, transport);
            p.sent.Some? && HeaderGet(p.sent.value.header, "X-Forwarded-For") == "127.0.0.1"
  {
  }

  const Proxied: Header := map["X-Forwarded-For" := ["10.0.0.2, 10.0.0.1"]]

  /** The server address goes in front of the chain of the test's proxies. */
  lemma ProxiedChainExtended()
    ensures ForwardHeaders(Proxied, ServerIP)["X-Forwarded-For"] == ["127.0.0.1, 10.0.0.2, 10.0.0.1"]
  {
    assert HeaderGet(Proxied, ForwardedForKey) == "10.0.0.2, 10.0.0.1";
    assert ForwardedFor(ServerIP, "10.0.0.2, 10.0.0.1") == "127.0.0.1, 10.0.0.2, 10.0.0.1";
  }

  /** An existing X-Forwarded-For chain gets the server address in front. */
  lemma ForwardedForExtended(w: Header, requestError: string -> Option<string>, transport: Outbound -> Transport)
    requires requestError(UpstreamTarget(TestClient, RootRequest(Proxied).url)).None?
    ensures var p := GetPrerenderedPage(TestClient, w, RootRequest(Proxied), requestError, transport);
            p.sent.Some?
            && HeaderGet(p.sent.value.header, "X-Forwarded-For") == "127.0.0.1, 10.0.0.2, 10.0.0.1"
  {
    var p := GetPrerenderedPage(TestClient, w, RootRequest(Proxied), requestError, transport);
    assert p.sent.value.header == ForwardHeaders(Proxied, ServerIP);
    ProxiedChainExtended();
  }

  const Labelled: Header := map["Content-Type" := ["content-type"], "User-Agent" := ["user-agent"]]

  /** The caller's own headers reach the service unchanged. */
  lemma CallerHeadersForwarded(w: Header, requestError: string -> Option<string>, transport: Outbound -> Transport)
    requires requestError(UpstreamTarget(TestClient, CallerRequest("/path", TokenQuery, Labelled).url)).None?
    ensures var p := GetPrerenderedPage(TestClient, w, CallerRequest("/path", TokenQuery, Labelled),
                                        requestError, transport);
            p.sent.Some?
            && HeaderGet(p.sent.value.header, "Content-Type") == "content-type"
            && HeaderGet(p.sent.value.header, "User-Agent") == "user-agent"
  {
    var h := ForwardHeaders(Labelled, ServerIP);
    assert "Content-Type" != ForwardedForKey && "User-Agent" != ForwardedForKey;
    assert h["Content-Type"] == ["content-type"] && h["User-Agent"] == ["user-agent"];
  }

  /** The service's redirect to `http://example.com/`, which the client
      does not follow. */
  const ToExample: Transport :=
    RedirectRefused(Response(302, map["Location" := ["http://example.com/"]], Complete([])))

  /** The redirect is passed on to the caller, with no error, and the
      caller's response carries its Location. */
  lemma RedirectPassedOn(w: Header, requestError: string -> Option<string>)
    requires requestError(UpstreamTarget(TestClient, RootRequest(map[]).url)).None?
    ensures var p := GetPrerenderedPage(TestClient, w, RootRequest(map[]), requestError, _ => ToExample);
            p.outcome.writes == [WriteRedirect("http://example.com/", 302)] && p.outcome.err == None
            && HeaderGet(p.outcome.header, "Location") == "http://example.com/"
  {
  }

  /** A service that has not rendered the page yet answers 503. */
  const NotYetRendered: Transport := Delivered(Response(503, map[], Complete([])))

  /** The caller then gets status 503 with a plain-text message, and the
      client a cache miss. */
  lemma CacheMissReported(w: Header, requestError: string -> Option<string>)
    requires requestError(UpstreamTarget(TestClient, RootRequest(map[]).url)).None?
    ensures var p := GetPrerenderedPage(TestClient, w, RootRequest(map[]), requestError, _ => NotYetRendered);
            p.outcome.writes == [WriteError("cache miss from seo4ajax", 503)]
            && p.outcome.err == Some(CacheMiss)
            && HeaderGet(p.outcome.header, "Content-Type") == "text/plain; charset=utf-8"
  {
  }
}
