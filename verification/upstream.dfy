/** The client side of the prerender service: construction of a `Client`,
    the upstream URL and headers built from the caller's request, and
    what is written back to the caller for each upstream outcome. */
module Upstream {
  import opened Wrappers
  import opened Text
  import opened Http

  /** The service's host, and its base URL `http://api.seo4ajax.com`. */
  const APIHostName: string := "api.seo4ajax.com"
  const APIHost: string := "http://" + APIHostName
  const ForwardedForKey: string := "X-Forwarded-For"
  const LocationKey: string := "Location"
  const ContentTypeKey: string := "Content-Type"
  const NoSniffKey: string := "X-Content-Type-Options"

  /** The Content-Types `http.Redirect` and `http.Error` set. */
  const RedirectType: string := "text/html; charset=utf-8"
  const ErrorType: string := "text/plain; charset=utf-8"

  const NoIPAddressMessage: string := "no ip address"
  const NoTokenMessage: string := "no token given"
  const CacheMissMessage: string := "cache miss from seo4ajax"

  /** The status every error is reported to the caller with. */
  const ErrorStatus: int := 503

  /** The errors the client returns. `BadRequest` and `Transport` carry the
      message of the failing library call, `Copy` that of the failed body
      copy. */
  datatype Error =
    | NoIPAddress
    | NoToken
    | CacheMiss
    | BadRequest(cause: string)
    | Transport(cause: string)
    | Copy(cause: string)

  /** `err.Error()`. */
  function Message(e: Error): string {
    match e
    case NoIPAddress => NoIPAddressMessage
    case NoToken => NoTokenMessage
    case CacheMiss => CacheMissMessage
    case BadRequest(cause) => cause
    case Transport(cause) => cause
    case Copy(cause) => cause
  }

  datatype Client = Client(apiHost: string, serverIP: string, token: string)

  /** `New`: the server address is checked before the token. `validIP`
      stands for `net.ParseIP(ip) != nil`. */
  function New(serverIP: string, token: string, validIP: string -> bool): (r: Result<Client, Error>)
    ensures r.Ok? <==> serverIP != "" && validIP(serverIP) && token != ""
    ensures serverIP == "" || !validIP(serverIP) ==> r == Err(NoIPAddress)
    ensures serverIP != "" && validIP(serverIP) && token == "" ==> r == Err(NoToken)
    ensures r.Ok? ==> r.value.apiHost == APIHost && r.value.serverIP == serverIP && r.value.token == token
  {
    if serverIP == "" || !validIP(serverIP) then Err(NoIPAddress)
    else if token == "" then Err(NoToken)
    else Ok(Client(APIHost, serverIP, token))
  }

  // ---------------------------------------------------------------------
  // The upstream URL

  /** The path `cleanPath` gives its copy of the URL: `/` for an empty
      path, and one `/` put in front of a path lacking it. */
  function AbsolutePath(p: string): (r: string)
    ensures |r| > 0 && r[0] == '/'
    ensures '?' !in p && '#' !in p ==> '?' !in r && '#' !in r
  {
    if |p| > 0 && p[0] == '/' then p else "/" + p
  }

  /** The caller's path is kept whole behind at most one added slash, and
      a path that already starts with `/` is left as it is. */
  lemma AbsolutePathKeepsPath(p: string)
    ensures var r := AbsolutePath(p); |p| <= |r| <= |p| + 1 && r[|r| - |p|..] == p
    ensures AbsolutePath(AbsolutePath(p)) == AbsolutePath(p)
    ensures |p| > 0 && p[0] == '/' ==> AbsolutePath(p) == p
  {
  }

  /** The copy `cleanPath` prints: path made absolute, and scheme, opaque
      part, user information and host cleared. */
  function CleanedUrl(u: Url): (c: Url)
    ensures c.scheme == "" && c.opaquePart == "" && c.user == None && c.host == ""
    ensures c.path == AbsolutePath(u.path)
    ensures c.forceQuery == u.forceQuery && c.rawQuery == u.rawQuery && c.fragment == u.fragment
  {
    u.(path := AbsolutePath(u.path), scheme := "", opaquePart := "", user := None, host := "")
  }

  /** A path starting with `/` has an empty first segment, so it can never
      be mistaken for a scheme. */
  lemma AbsoluteFirstSegment(p: string)
    requires |p| > 0 && p[0] == '/'
    ensures FirstSegment(p) == ""
  {
    var parts := SplitOn(p, '/');
    if |parts| > 1 {
      assert p == parts[0] + "/" + Join(parts[1..], "/");
    }
  }

  /** `cleanPath`: the cleaned URL printed by `URL.String`, a relative
      reference starting with `/`, made of the absolute path, the query
      and the fragment. */
  function CleanPath(u: Url): (s: string)
    ensures |s| > 0 && s[0] == '/'
    ensures s == AbsolutePath(u.path) + QuerySuffix(u) + FragmentSuffix(u)
  {
    var c := CleanedUrl(u);
    AbsoluteFirstSegment(c.path);
    ReferenceString(c);
    UrlString(c)
  }

  /** Scheme, opaque part, user information and host have no influence on
      `cleanPath`. */
  lemma CleanPathIgnoresAuthority(u: Url, scheme: string, opaquePart: string, user: Option<string>, host: string)
    ensures CleanPath(u.(scheme := scheme, opaquePart := opaquePart, user := user, host := host)) == CleanPath(u)
  {
  }

  /** An empty path becomes `/`, before query and fragment. */
  lemma CleanPathOfEmptyPath(u: Url)
    requires u.path == ""
    ensures CleanPath(u) == "/" + QuerySuffix(u) + FragmentSuffix(u)
  {
  }

  /** A path lacking the leading slash gets exactly one. */
  lemma CleanPathAddsOneSlash(u: Url)
    requires u.path != "" && u.path[0] != '/'
    ensures CleanPath(u) == "/" + u.path + QuerySuffix(u) + FragmentSuffix(u)
  {
  }

  /** `url.Parse` on a reference without scheme or authority, as it reads
      what follows the host of an `http` URL: the
      fragment is cut off at the first `#`, then the query at the first
      `?`; a lone trailing `?` sets `ForceQuery`. */
  function ParseReference(s: string): (u: Url)
    ensures u.scheme == "" && u.opaquePart == "" && u.user == None && u.host == ""
    ensures '#' !in u.path && '?' !in u.path && '#' !in u.rawQuery
  {
    var f := CutAt(s, '#');
    var q := CutAt(f.before, '?');
    Url("", "", None, "", q.before, q.found && q.after == "", q.after, f.after)
  }

  /** `url.Parse` on an `http` URL whose authority is a plain host (no
      user information); anything else is `None`. */
  function ParseHttpUrl(s: string): (r: Option<Url>)
    ensures r.Some? ==> r.value.scheme == "http" && r.value.user == None
  {
    if |s| < 7 || s[..7] != "http://" then None
    else
      var a := CutAt(s[7..], '/');
      if '?' in a.before || '#' in a.before || '@' in a.before then None
      else if !a.found then Some(Url("http", "", None, a.before, "", false, "", ""))
      else Some(ParseReference("/" + a.after).(scheme := "http", host := a.before))
  }

  /** Cutting printed text at `#` separates the fragment, when there is
      one, from what precedes it. */
  lemma CutPrintedFragment(t: string, u: Url)
    requires '#' !in t
    ensures CutAt(t + FragmentSuffix(u), '#') == Cut(t, u.fragment, u.fragment != "")
  {
    if u.fragment != "" {
      assert t + FragmentSuffix(u) == t + ['#'] + u.fragment;
      CutAtFirst(t, u.fragment, '#');
    } else {
      assert t + FragmentSuffix(u) == t;
    }
  }

  /** Cutting a printed path and query at `?` separates the query, when
      one is printed, from the path. */
  lemma CutPrintedQuery(p: string, u: Url)
    requires '?' !in p
    ensures CutAt(p + QuerySuffix(u), '?') == Cut(p, u.rawQuery, QuerySuffix(u) != "")
  {
    if QuerySuffix(u) != "" {
      assert p + QuerySuffix(u) == p + ['?'] + u.rawQuery;
      CutAtFirst(p, u.rawQuery, '?');
    } else {
      assert p + QuerySuffix(u) == p;
    }
  }

  /** Parsing a path free of `?` and `#` followed by the printed query and
      fragment gives them back; `ForceQuery` survives only where it is
      visible, on an empty query. */
  lemma ParsePrintedReference(p: string, u: Url)
    requires '?' !in p && '#' !in p && '#' !in u.rawQuery
    ensures ParseReference(p + QuerySuffix(u) + FragmentSuffix(u))
         == Url("", "", None, "", p, u.forceQuery && u.rawQuery == "", u.rawQuery, u.fragment)
  {
    var q := QuerySuffix(u);
    assert '#' !in p + q;
    CutPrintedFragment(p + q, u);
    CutPrintedQuery(p, u);
  }

  /** `cleanPath` and the reference parse are inverse: read as the part
      after an authority, which is where the upstream target puts it,
      the printed reference is the cleaned URL. */
  lemma CleanPathRoundTrip(u: Url)
    requires '?' !in u.path && '#' !in u.path && '#' !in u.rawQuery
    ensures ParseReference(CleanPath(u))
         == CleanedUrl(u).(forceQuery := u.forceQuery && u.rawQuery == "")
  {
    ParsePrintedReference(AbsolutePath(u.path), u);
  }

  /** A caller path starting with `//` keeps its leading `//`, so the
      output of `cleanPath` on its own would be read by `url.Parse` as a
      network-path reference with an authority. Inside the upstream
      target the token stands in front of it. */
  lemma CleanPathKeepsNetworkPath(u: Url)
    requires |u.path| >= 2 && u.path[0] == '/' && u.path[1] == '/'
    ensures |CleanPath(u)| >= 2 && CleanPath(u)[..2] == "//"
  {
    assert CleanPath(u)[..2] == u.path[..2];
  }

  /** The URL of the upstream request: API host, token, cleaned path. */
  function UpstreamTarget(c: Client, u: Url): string {
    c.apiHost + "/" + c.token + CleanPath(u)
  }

  /** An `http` URL with a plain host parses into that host and the
      reference after it. */
  lemma ParseHttpWithHost(host: string, rest: string)
    requires '/' !in host && '?' !in host && '#' !in host && '@' !in host
    ensures ParseHttpUrl("http://" + host + "/" + rest)
         == Some(ParseReference("/" + rest).(scheme := "http", host := host))
  {
    var s := "http://" + host + "/" + rest;
    assert s[..7] == "http://";
    assert s[7..] == host + ['/'] + rest;
    CutAtFirst(host, rest, '/');
  }

  /** The upstream target parses into the host, the path made of token
      and caller's path, and the caller's query and fragment. */
  lemma ParseTarget(host: string, token: string, path: string, u: Url)
    requires '/' !in host && '?' !in host && '#' !in host && '@' !in host
    requires '?' !in token && '#' !in token && '?' !in path && '#' !in path && '#' !in u.rawQuery
    ensures ParseHttpUrl("http://" + host + "/" + (token + (path + QuerySuffix(u) + FragmentSuffix(u))))
         == Some(Url("http", "", None, host, "/" + token + path,
                     u.forceQuery && u.rawQuery == "", u.rawQuery, u.fragment))
  {
    var rest := token + (path + QuerySuffix(u) + FragmentSuffix(u));
    var p := "/" + token + path;
    assert "/" + rest == p + QuerySuffix(u) + FragmentSuffix(u);
    ParsePrintedReference(p, u);
    var r := ParseReference("/" + rest);
    assert r == Url("", "", None, "", p, u.forceQuery && u.rawQuery == "", u.rawQuery, u.fragment);
    ParseHttpWithHost(host, rest);
  }

  /** The service's host name is a plain host: no path, query, fragment
      or user information. */
  lemma PlainAPIHost()
    ensures '/' !in APIHostName && '?' !in APIHostName && '#' !in APIHostName && '@' !in APIHostName
  {
  }

  /** The upstream target spelled out: scheme, the service's host, and
      the token in front of the cleaned path. */
  lemma TargetParts(c: Client, u: Url)
    requires c.apiHost == APIHost
    ensures UpstreamTarget(c, u)
         == "http://" + APIHostName + "/" + (c.token + (AbsolutePath(u.path) + QuerySuffix(u) + FragmentSuffix(u)))
  {
    var cleaned := CleanPath(u);
    assert cleaned == AbsolutePath(u.path) + QuerySuffix(u) + FragmentSuffix(u);
    assert UpstreamTarget(c, u) == APIHost + "/" + c.token + cleaned;
  }

  /** A token free of `/` is the first segment of the absolute path it
      is put in front of. */
  lemma TokenSegment(token: string, a: string)
    requires '/' !in token && |a| > 0 && a[0] == '/'
    ensures |SplitOn("/" + token + a, '/')| >= 2
    ensures SplitOn("/" + token + a, '/')[1] == token
  {
    SplitLeadingSegment(token, a, '/');
  }

  /** With the service's host and a token free of `/`, `?` and `#`, the
      request URL built from the target holds the token as its first path
      segment, then the caller's path, query and fragment (the fragment
      stays in that URL; Go's client does not put it on the wire). */
  lemma TokenIsFirstSegment(c: Client, u: Url)
    requires c.apiHost == APIHost
    requires c.token != "" && '/' !in c.token && '?' !in c.token && '#' !in c.token
    requires '?' !in u.path && '#' !in u.path && '#' !in u.rawQuery
    ensures ParseHttpUrl(UpstreamTarget(c, u))
         == Some(Url("http", "", None, APIHostName, "/" + c.token + AbsolutePath(u.path),
                     u.forceQuery && u.rawQuery == "", u.rawQuery, u.fragment))
    ensures |SplitOn("/" + c.token + AbsolutePath(u.path), '/')| >= 2
    ensures SplitOn("/" + c.token + AbsolutePath(u.path), '/')[1] == c.token
  {
    var a := AbsolutePath(u.path);
    PlainAPIHost();
    TargetParts(c, u);
    ParseTarget(APIHostName, c.token, a, u);
    TokenSegment(c.token, a);
  }

  // ---------------------------------------------------------------------
  // The upstream headers

  /** The X-Forwarded-For value sent upstream: the server address alone,
      or put in front of the caller's value. */
  function ForwardedFor(serverIP: string, existing: string): (r: string)
    ensures |serverIP| <= |r| && r[..|serverIP|] == serverIP
    ensures existing != "" ==> |r| == |serverIP| + 2 + |existing| && r[|r| - |existing|..] == existing
    ensures existing == "" ==> r == serverIP
  {
    if existing != "" then serverIP + ", " + existing else serverIP
  }

  /** Prepending to a forwarding chain keeps it a chain: the server
      address becomes its first hop. */
  lemma ForwardedForChain(serverIP: string, hops: seq<string>)
    requires hops == [] || Join(hops, ", ") != ""
    ensures ForwardedFor(serverIP, Join(hops, ", ")) == Join([serverIP] + hops, ", ")
  {
    if hops != [] {
      assert ([serverIP] + hops)[1..] == hops;
    }
  }

  /** The caller's headers with X-Forwarded-For extended by the server
      address; the key now holds that single value and no other key
      changes. */
  function ForwardHeaders(h: Header, serverIP: string): (r: Header)
    ensures ForwardedForKey in r
    ensures HeaderGet(h, ForwardedForKey) == "" ==> r[ForwardedForKey] == [serverIP]
    ensures HeaderGet(h, ForwardedForKey) != "" ==>
              r[ForwardedForKey] == [serverIP + ", " + HeaderGet(h, ForwardedForKey)]
    ensures r.Keys == h.Keys + {ForwardedForKey}
    ensures forall k :: k in h && k != ForwardedForKey ==> r[k] == h[k]
  {
    HeaderSet(h, ForwardedForKey, ForwardedFor(serverIP, HeaderGet(h, ForwardedForKey)))
  }

  // ---------------------------------------------------------------------
  // The upstream exchange

  /** The request sent to the service. */
  datatype Outbound = Outbound(verb: string, target: string, header: Header)

  /** An upstream body: read to its end, or failing after `prefix`. */
  datatype Body = Complete(bytes: seq<bv8>) | Broken(prefix: seq<bv8>, cause: string)

  datatype Response = Response(status: int, header: Header, body: Body)

  /** What `client.Do` yields: a response, a redirect response the client
      refused to follow, or any other failure. */
  datatype Transport =
    | Delivered(resp: Response)
    | RedirectRefused(resp: Response)
    | Failed(cause: string)

  /** What is written to the caller, in order: body bytes, `http.Redirect`
      and `http.Error`. */
  datatype Write =
    | WriteBody(bytes: seq<bv8>)
    | WriteRedirect(location: string, code: int)
    | WriteError(message: string, code: int)

  /** The caller's response header map (`w.Header()`) after the exchange,
      with what `http.Redirect` and `http.Error` set in it, the writes
      made, and the returned error. */
  datatype Outcome = Outcome(header: Header, writes: seq<Write>, err: Option<Error>)

  /** What `http.Redirect` sets in the response header map: `Location`,
      and for GET and HEAD an HTML Content-Type unless one is there. */
  function RedirectHeader(h: Header, verb: string, location: string): (r: Header)
    ensures LocationKey in r && r[LocationKey] == [location]
    ensures HeaderGet(r, LocationKey) == location
    ensures ContentTypeKey in h ==> ContentTypeKey in r && r[ContentTypeKey] == h[ContentTypeKey]
    ensures ContentTypeKey !in h && (verb == "GET" || verb == "HEAD") ==> ContentTypeKey in r && r[ContentTypeKey] == [RedirectType]
    ensures ContentTypeKey !in h && verb != "GET" && verb != "HEAD" ==> ContentTypeKey !in r
    ensures r.Keys <= h.Keys + {LocationKey, ContentTypeKey}
    ensures forall k :: k in h && k != LocationKey ==> k in r && r[k] == h[k]
  {
    var located := HeaderSet(h, LocationKey, location);
    if ContentTypeKey !in h && (verb == "GET" || verb == "HEAD") then
      HeaderSet(located, ContentTypeKey, RedirectType)
    else located
  }

  /** What `http.Error` sets in the response header map: a plain-text
      Content-Type and `X-Content-Type-Options: nosniff`. */
  function ErrorHeader(h: Header): (r: Header)
    ensures ContentTypeKey in r && r[ContentTypeKey] == [ErrorType]
    ensures NoSniffKey in r && r[NoSniffKey] == ["nosniff"]
    ensures r.Keys == h.Keys + {ContentTypeKey, NoSniffKey}
    ensures forall k :: k in h && k != ContentTypeKey && k != NoSniffKey ==> r[k] == h[k]
  {
    HeaderSet(HeaderSet(h, ContentTypeKey, ErrorType), NoSniffKey, "nosniff")
  }

  /** The error, if any, reported with status 503 after the writes. */
  function Report(header: Header, writes: seq<Write>, err: Option<Error>): (o: Outcome)
    ensures o.err == err
    ensures err.None? ==> o.header == header
    ensures err.Some? ==> o.header == ErrorHeader(header)
    ensures |writes| <= |o.writes| && o.writes[..|writes|] == writes
    ensures |o.writes| == |writes| + 1 <==> err.Some?
    ensures err.None? ==> o.writes == writes
    ensures (forall k :: 0 <= k < |writes| ==> !writes[k].WriteError?) ==> ErrorReported(o)
  {
    match err
    case None => Outcome(header, writes, None)
    case Some(e) => Outcome(ErrorHeader(header), writes + [WriteError(Message(e), ErrorStatus)], err)
  }

  /** The status switch: the upstream response relayed, redirected,
      reported as an error, or ignored. `verb` is the caller's method,
      which `http.Redirect` looks at. */
  function Respond(w: Header, verb: string, resp: Response): (o: Outcome)
    ensures ErrorReported(o)
    ensures o.err.Some? ==> o.writes != [] && HeaderGet(o.header, ContentTypeKey) == ErrorType
    ensures o.header != w ==> resp.status in {200, 302} || o.err.Some?
  {
    if resp.status == 200 then
      var relayed := w + resp.header;
      match resp.body
      case Complete(bytes) => Report(relayed, [WriteBody(bytes)], None)
      case Broken(prefix, cause) => Report(relayed, [WriteBody(prefix)], Some(Copy(cause)))
    else if resp.status == 302 then
      var location := HeaderGet(resp.header, LocationKey);
      Report(RedirectHeader(w, verb, location), [WriteRedirect(location, resp.status)], None)
    else if resp.status == 401 || resp.status == 403 then
      Report(w, [], Some(NoToken))
    else if resp.status == 503 then
      Report(w, [], Some(CacheMiss))
    else
      Report(w, [], None)
  }

  /** An error is returned exactly when the last write reports it with
      status 503, or the transport failed and nothing was written. */
  predicate ErrorReported(o: Outcome) {
    match o.err
    case None => forall k :: 0 <= k < |o.writes| ==> !o.writes[k].WriteError?
    case Some(e) =>
      o.writes == [] || o.writes[|o.writes| - 1] == WriteError(Message(e), ErrorStatus)
  }

  /** Everything after `client.Do`, given the caller's response header
      map `w` and method `verb`. */
  function Dispatch(w: Header, verb: string, t: Transport): (o: Outcome)
    ensures ErrorReported(o)
    ensures o.err.Some? && o.writes == [] <==> t.Failed?
    ensures t.Failed? ==> o == Outcome(w, [], Some(Transport(t.cause)))
    ensures (exists k :: 0 <= k < |o.writes| && o.writes[k].WriteBody?) ==> t.resp.status == 200
    ensures o.header != w ==> !t.Failed? && (t.resp.status in {200, 302} || o.err.Some?)
    ensures !t.Failed? && t.resp.status == 200 && t.resp.body.Complete? ==> o.header == w + t.resp.header
    ensures !t.Failed? && t.resp.status == 200 && t.resp.body.Broken? ==>
              o.header == ErrorHeader(w + t.resp.header)
    ensures !t.Failed? && t.resp.status == 302 ==>
              o.header == RedirectHeader(w, verb, HeaderGet(t.resp.header, LocationKey))
              && o.writes == [WriteRedirect(HeaderGet(t.resp.header, LocationKey), 302)] && o.err == None
    ensures !t.Failed? && t.resp.status in {401, 403} ==>
              o.header == ErrorHeader(w)
              && o.writes == [WriteError(NoTokenMessage, ErrorStatus)] && o.err == Some(NoToken)
    ensures !t.Failed? && t.resp.status == 503 ==>
              o.header == ErrorHeader(w)
              && o.writes == [WriteError(CacheMissMessage, ErrorStatus)] && o.err == Some(CacheMiss)
    ensures !t.Failed? && t.resp.status !in {200, 302, 401, 403, 503} ==> o == Outcome(w, [], None)
  {
    match t
    case Failed(cause) => Outcome(w, [], Some(Transport(cause)))
    case Delivered(resp) => Respond(w, verb, resp)
    case RedirectRefused(resp) => Respond(w, verb, resp)
  }

  /** Relaying copies every upstream header key and keeps the caller's
      other keys; a body that breaks off then has `http.Error` set its
      own two keys over them. */
  lemma RelayedHeaders(w: Header, verb: string, t: Transport, k: string)
    requires !t.Failed? && t.resp.status == 200
    ensures t.resp.body.Complete? ==>
              (k in t.resp.header ==> Dispatch(w, verb, t).header[k] == t.resp.header[k])
              && (k !in t.resp.header && k in w ==> Dispatch(w, verb, t).header[k] == w[k])
              && (k in Dispatch(w, verb, t).header <==> k in w || k in t.resp.header)
    ensures t.resp.body.Broken? ==> Dispatch(w, verb, t).header == ErrorHeader(w + t.resp.header)
  {
  }

  /** A complete 200 body is written out unchanged and nothing else is. */
  lemma CompleteBodyRelayed(w: Header, verb: string, t: Transport)
    requires !t.Failed? && t.resp.status == 200 && t.resp.body.Complete?
    ensures Dispatch(w, verb, t).writes == [WriteBody(t.resp.body.bytes)] && Dispatch(w, verb, t).err == None
  {
  }

  /** A body that breaks off is followed by the copy error. */
  lemma BrokenBodyReported(w: Header, verb: string, t: Transport)
    requires !t.Failed? && t.resp.status == 200 && t.resp.body.Broken?
    ensures Dispatch(w, verb, t).writes
         == [WriteBody(t.resp.body.prefix), WriteError(t.resp.body.cause, ErrorStatus)]
    ensures Dispatch(w, verb, t).err == Some(Copy(t.resp.body.cause))
  {
  }

  /** The result of `GetPrerenderedPage`: the request sent upstream (none
      when the target URL did not parse), the caller's request header map
      afterwards, and the outcome for the caller. */
  datatype Page = Page(sent: Option<Outbound>, requestHeader: Header, outcome: Outcome)

  /** `GetPrerenderedPage`. `requestError` gives the error `http.NewRequest`
      reports for a target URL, if any; `transport` is `client.Do`. The
      outbound request shares the caller's header map, so the caller's
      request sees the X-Forwarded-For rewrite. */
  function GetPrerenderedPage(c: Client, w: Header, req: Request,
                              requestError: string -> Option<string>,
                              transport: Outbound -> Transport): (p: Page)
    ensures p.sent.None? <==> requestError(UpstreamTarget(c, req.url)).Some?
    ensures p.sent.None? ==>
              p.requestHeader == req.header
              && p.outcome == Outcome(w, [], Some(BadRequest(requestError(UpstreamTarget(c, req.url)).value)))
    ensures p.sent.Some? ==>
              p.sent.value.verb == "GET"
              && p.sent.value.target == UpstreamTarget(c, req.url)
              && p.sent.value.header == p.requestHeader
              && p.requestHeader == ForwardHeaders(req.header, c.serverIP)
              && p.outcome == Dispatch(w, req.verb, transport(p.sent.value))
  {
    var target := UpstreamTarget(c, req.url);
    match requestError(target)
    case Some(cause) => Page(None, req.header, Outcome(w, [], Some(BadRequest(cause))))
    case None =>
      var shared := ForwardHeaders(req.header, c.serverIP);
      var out := Outbound("GET", target, shared);
      Page(Some(out), shared, Dispatch(w, req.verb, transport(out)))
  }
}
