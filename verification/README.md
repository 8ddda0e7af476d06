# seo4ajax in Dafny

A model of the Go client library for the SEO4Ajax prerender service
(`seo4ajax.go`). It covers three parts:

- **The classifier `IsPrerender`.** It decides whether a request should be
  answered with a prerendered page. The checks run in a fixed order and the
  first one that decides wins:
  1. method (GET or HEAD only);
  2. an `_escaped_fragment_` query;
  3. the User-Agent deny list;
  4. a static-file path;
  5. the User-Agent allow list.
- **The upstream request.** The prerender URL is made of the service host,
  the token and `cleanPath` of the caller's URL. X-Forwarded-For gets the
  server address in front.
- **The status dispatch.** It decides what `GetPrerenderedPage` writes back
  and returns for each upstream outcome. `New`'s argument checks are
  modelled too.

The three regular expressions of the classifier are each defined twice:

- as ghost predicates that follow the expression's structure
  (`DenyRegex`, `AllowRegex`, `PathRegex`);
- as executable scans (`DeniedAgent`, `AllowedAgent`, `StaticPath`).

Each scan is proved equal to its reference predicate. Case-insensitive
matching is Go's `(?i)` on ASCII patterns:

- an ASCII upper-case letter matches its lower-case letter;
- KELVIN SIGN (U+212A) matches `k`, and LATIN SMALL LETTER LONG S (U+017F)
  matches `s`, since those two are the only non-ASCII members of the ASCII
  letters' case-folding orbits.

`.*` does not cross a newline, as in Go's default flags.

Files (one module each):

| file | module | contents |
|---|---|---|
| `wrappers.dfy` | `Wrappers` | `Option`, `Result` |
| `text.dfy` | `Text` | substring search, the `a.*b` search, `(?i)` folding, `strings.Cut`, `strings.Split` |
| `http.dfy` | `Http` | header maps, `url.URL` and `URL.String`, inbound requests |
| `classifier.dfy` | `Classifier` | the regular expressions and `IsPrerender` |
| `upstream.dfy` | `Upstream` | `New`, `cleanPath`, the upstream target and headers, `GetPrerenderedPage` |
| `vectors.dfy` | `ClassifierVectors` | the classifier's test cases |
| `upstream_vectors.dfy` | `UpstreamVectors` | the client's test cases |

The library calls the client makes are parameters of the model:

- `net.ParseIP` is `validIP`;
- `http.NewRequest`'s failure is `requestError`;
- `client.Do` is `transport`.

## Model

| member | source | states |
|---|---|---|
| Text.ContainsStr | seo4ajax.go:61 | `strings.Contains` by scanning: true exactly when the text occurs at some index |
| Text.Find | seo4ajax.go:61 | the first occurrence at or after a start index: it occurs there and at no earlier index, or it occurs nowhere |
| Text.ContainsAcrossSeam | seo4ajax.go:24-25 | a match in `a + b` lies inside `a` or inside `b` when `b`'s first character is not in the pattern |
| Text.AbsentWithoutCharacter | seo4ajax.go:24-25 | a pattern with a character the text lacks does not occur |
| Text.MatchesFollowedBy | seo4ajax.go:24 | the scan for `a.*b` is true exactly when `a` occurs, then `b`, with no newline between |
| Text.ScanFollowedCorrect | seo4ajax.go:24 | the `a.*b` scan from an index finds exactly the matches whose `a` starts there or later (proof by induction) |
| Text.ScanFollowed | seo4ajax.go:24 | the executable `a.*b` scan: it finds each `a` from the start index on and looks for `b` on the rest of that line; it has no contract of its own, and `Text.ScanFollowedCorrect` and `Text.MatchesFollowedBy` state that it finds exactly the `a.*b` matches |
| Text.FindOnLineCorrect | seo4ajax.go:24 | the search for `b` on the rest of the line succeeds exactly when such a `b` exists |
| Text.SpansFromFirst | seo4ajax.go:24 | an `a.*b` match from an index either uses the first `a` there or starts after it |
| Text.FollowedByWithoutNewlines | seo4ajax.go:24 | on text without newlines, `a.*b` means `a` and then `b` later |
| Text.FoldMatchesOrbit | seo4ajax.go:24-25 | folding a character gives a pattern character exactly when `(?i)` accepts it for that character |
| Text.Fold | seo4ajax.go:24-25 | the folded character is never an ASCII upper-case letter, KELVIN SIGN or LONG S, so folding twice changes nothing; `Text.FoldMatchesOrbit` states that it sends exactly a pattern character's `(?i)` orbit to that character |
| Text.FoldAppend | seo4ajax.go:24-25 | folding distributes over concatenation |
| Text.FoldedOccurs | seo4ajax.go:24-25 | a lower-case ASCII pattern occurs in the folded text exactly where `(?i)` matches it in the original |
| Text.FoldedContains | seo4ajax.go:24-25 | the same, for a match anywhere |
| Text.FoldedFollowedBy | seo4ajax.go:24 | `(?i:a.*b)` on the text is the plain `a.*b` search on the folded text |
| Text.FoldKeepsNewlines | seo4ajax.go:24 | folding neither creates nor removes a newline |
| Text.AbsentIgnoringCase | seo4ajax.go:24-25 | a text in which no character folds to one of the pattern's characters has no `(?i)` match |
| Text.SeamIgnoringCase | seo4ajax.go:24-25 | a `(?i)` match in `a + b` lies in one part when `b`'s first character folds to no pattern character |
| Text.FoundIgnoringCase | seo4ajax.go:24-25 | a piece matching the pattern character by character is a match wherever it is placed |
| Text.PartMatches | seo4ajax.go:25 | where a pattern matches, every part of it matches |
| Text.NotFollowedByIgnoringCase | seo4ajax.go:24 | `(?i:a.*b)` needs both literals to match |
| Text.FoundFollowedBy | seo4ajax.go:24 | two matching pieces around a newline-free gap match `(?i:a.*b)` |
| Text.CutAt | seo4ajax.go:80 | `strings.Cut` at a character: found exactly when the character occurs; the text is before, separator, after; nothing is lost when it is missing |
| Text.CutAtFirst | seo4ajax.go:80 | cutting at the first separator recovers the two sides (proof by induction) |
| Text.SplitOn | seo4ajax_test.go:283-286 | `strings.Split` yields at least one part, its parts joined back give the text, and no part holds the separator |
| Text.SplitJoin | seo4ajax_test.go:283-286 | splitting the join of separator-free parts gives the parts back (proof by induction) |
| Text.SplitLeadingSegment | seo4ajax_test.go:283-286 | in `/t/...` with `t` free of `/`, part 1 is `t` |
| Http.HeaderGet | seo4ajax.go:65 | `Header.Get` gives the first value whenever the key holds one, "" for a missing key, and a non-empty result only from a stored first value |
| Http.HeaderSet | seo4ajax.go:93 | `Header.Set` leaves the key holding exactly the new value, adds only that key and changes no other |
| Http.SetThenGet | seo4ajax.go:87-93 | what `Set` stores, `Get` reads back, and other keys read the same |
| Http.ReferenceString | seo4ajax.go:139 | a URL with no scheme, opaque part, user or host whose first segment has no colon prints as path, query and fragment |
| Http.UrlString | seo4ajax.go:139 | `URL.String`: scheme, opaque part or `//userinfo@host` and path, then query and fragment; it has no contract of its own, and `Http.ReferenceString` and `Upstream.CleanPathRoundTrip` state what it prints for the cleaned URL and that the reference parse after an authority reads it back |
| Classifier.FindExtensionDot | seo4ajax.go:26 | true exactly when some extension dot lies at or after the start index |
| Classifier.ExtensionDotOfMatch | seo4ajax.go:26 | both alternatives of the path regex begin with a dot followed by two non-`?` characters |
| Classifier.MatchOfExtensionDot | seo4ajax.go:26 | such a dot and its two characters match the lazy second alternative |
| Classifier.PathRegexIsExtensionDot | seo4ajax.go:26 | the path regex matches exactly when some dot is followed by two characters other than `?` |
| Classifier.DotlessPathNotStatic | seo4ajax.go:26 | a path without a dot is never a static file |
| Classifier.StaticPath | seo4ajax.go:69 | `regexPath.MatchString` is exactly the path regex |
| Classifier.DeniedAgent | seo4ajax.go:24 | the scan on the folded User-Agent is true exactly when the deny expression matches: `google` then `bot` on one line, `bing`, `msnbot`, `yandexbot`, `pinterest` then `ios` on one line, or `mail.ru`, all ignoring case |
| Classifier.AllowedAgent | seo4ajax.go:25 | the scan on the folded User-Agent is true exactly when the allow expression matches: one of `bot`, `crawler`, `spider`, `archiver`, `pinterest`, `facebookexternalhit`, `flipboardproxy`, ignoring case |
| Classifier.IsPrerender | seo4ajax.go:56-74 | true exactly for GET or HEAD with either an `_escaped_fragment_` query, or a User-Agent not denied on a non-static path that is allowed |
| Classifier.OtherMethodsNeverPrerendered | seo4ajax.go:57-59 | a method other than GET and HEAD is never prerendered, whatever the query |
| Classifier.EscapedFragmentWins | seo4ajax.go:61-63 | for GET and HEAD an `_escaped_fragment_` query wins over User-Agent and path |
| Classifier.DenyBeatsAllow | seo4ajax.go:65-67 | a denied User-Agent is refused even when it also names a crawler |
| Classifier.StaticPathExcluded | seo4ajax.go:69-71 | a path with an extension dot is refused to every User-Agent when there is no escaped fragment |
| Classifier.FallThroughToAllowList | seo4ajax.go:73 | when no earlier check decides, the allow list does |
| Classifier.EmptyAgentNotAllowed | seo4ajax.go:25 | the empty User-Agent names no crawler |
| Classifier.NoAgentNotPrerendered | seo4ajax.go:61-73 | without User-Agent and escaped fragment, nothing is prerendered |
| Upstream.New | seo4ajax.go:38-52 | succeeds exactly with a parseable address and a token; checks the address first; sets the API host to `http://api.seo4ajax.com` |
| Upstream.AbsolutePath | seo4ajax.go:128-132 | the cleaned path starts with `/` and gains no `?` or `#` |
| Upstream.AbsolutePathKeepsPath | seo4ajax.go:128-132 | the original path is a suffix of the cleaned one, at most one character shorter; cleaning twice changes nothing; a path starting with `/` stays as it is |
| Upstream.CleanedUrl | seo4ajax.go:127-137 | the copy has the cleaned path, keeps query, force-query and fragment, and has empty scheme, opaque part and host and no user information |
| Upstream.AbsoluteFirstSegment | seo4ajax.go:139 | a path starting with `/` has an empty first segment, so it cannot be mistaken for a scheme |
| Upstream.CleanPath | seo4ajax.go:126-140 | the result starts with `/` and is the cleaned path followed by the printed query and fragment |
| Upstream.CleanPathIgnoresAuthority | seo4ajax.go:134-137 | scheme, opaque part, user information and host do not affect the result |
| Upstream.CleanPathOfEmptyPath | seo4ajax.go:128-129 | an empty path becomes `/` |
| Upstream.CleanPathAddsOneSlash | seo4ajax.go:130-131 | a path lacking the leading slash gets exactly one |
| Upstream.ParseReference | seo4ajax.go:80 | `url.Parse` of a reference without an authority, as it reads what follows the host of an `http` URL: no scheme, opaque part, user or host; the path holds no `?` or `#`, and the query holds no `#` |
| Upstream.ParseHttpUrl | seo4ajax.go:80 | a parsed `http` URL has scheme `http` and no user information |
| Upstream.CutPrintedFragment | seo4ajax.go:139 | cutting printed text at `#` separates off exactly the fragment |
| Upstream.CutPrintedQuery | seo4ajax.go:139 | cutting a printed path and query at `?` separates off exactly the query |
| Upstream.ParsePrintedReference | seo4ajax.go:139 | parsing a printed path, query and fragment gives them back; force-query survives only on an empty query |
| Upstream.CleanPathRoundTrip | seo4ajax.go:126-140 | read as the part after an authority, where the upstream target puts it, `cleanPath`'s output parses back into the cleaned URL |
| Upstream.CleanPathKeepsNetworkPath | seo4ajax.go:126-140 | a caller path starting with `//` keeps it, so `cleanPath`'s output on its own would read as a network-path reference with an authority |
| Upstream.ParseHttpWithHost | seo4ajax.go:80 | an `http` URL with a plain host parses into that host and the reference after it |
| Upstream.ParseTarget | seo4ajax.go:80 | the target string parses into host, the path made of token and caller's path, and the caller's query and fragment |
| Upstream.UpstreamTarget | seo4ajax.go:80 | the target `API host/token` followed by `cleanPath` of the caller's URL; it has no contract of its own, and `Upstream.TokenIsFirstSegment` states what the service parses out of it |
| Upstream.PlainAPIHost | seo4ajax.go:48 | the service's host name holds no `/`, `?`, `#` or `@` |
| Upstream.TokenSegment | seo4ajax.go:80 | a token free of `/` is part 1 of `/token` followed by an absolute path |
| Upstream.TokenIsFirstSegment | seo4ajax.go:80 | the request URL `http.NewRequest` builds from the target holds the token as its first path segment, then the caller's path, query and fragment; the fragment stays in that URL and is not sent to the service |
| Upstream.ForwardedForChain | seo4ajax.go:87-92 | prepending the server address to a comma-separated chain gives the longer chain |
| Upstream.ForwardedFor | seo4ajax.go:87-92 | the new X-Forwarded-For value starts with the server address; a non-empty caller value is kept whole at its end, after two separator characters; without one it is the address alone |
| Upstream.ForwardHeaders | seo4ajax.go:85-93 | X-Forwarded-For becomes the server address alone, or the address, a comma and the caller's value; no other key changes |
| Upstream.Report | seo4ajax.go:119-121 | the writes made so far are kept in order; an error adds exactly one more write and has `http.Error` set its header keys, while no error adds nothing and leaves the header map alone; so when the earlier writes report nothing the outcome meets `ErrorReported`: a returned error is written last with status 503 |
| Upstream.RedirectHeader | seo4ajax.go:112 | `http.Redirect` sets `Location` to exactly the one value given, even when it is empty, adds an HTML Content-Type for GET and HEAD only when none is set, keeps an existing Content-Type, and leaves every other key alone |
| Upstream.ErrorHeader | seo4ajax.go:120 | `http.Error` sets a plain-text Content-Type and `X-Content-Type-Options: nosniff`, adds no other key and leaves the others alone |
| Upstream.Respond | seo4ajax.go:104-121 | the status switch: every error it returns is written last at status 503, with a plain-text Content-Type set; the caller's header map changes only on a 200, a 302 or an error; the outcome of each status is stated on `Upstream.Dispatch` |
| Upstream.Dispatch | seo4ajax.go:95-123 | 200 relays headers and body; 302 redirects to the upstream Location and sets it in the caller's header map; 401 and 403 report no token; 503 reports a cache miss; each error sets `http.Error`'s header keys; other statuses write nothing and change no header; a failed transport returns its error with nothing written; every returned error except that one is written last with status 503 |
| Upstream.RelayedHeaders | seo4ajax.go:105-121 | on a complete 200 every upstream header key is copied and the caller's other keys are kept; on a broken one `http.Error`'s keys are set over the relayed map |
| Upstream.CompleteBodyRelayed | seo4ajax.go:110 | a complete 200 body is written unchanged and nothing else is |
| Upstream.BrokenBodyReported | seo4ajax.go:110-121 | a body that breaks off is followed by the copy error at status 503 |
| Upstream.GetPrerenderedPage | seo4ajax.go:78-124 | a target `NewRequest` rejects returns that error with nothing sent; otherwise a GET of the target is sent with the caller's own header map, rewritten for X-Forwarded-For, and the outcome is the dispatch of the transport's answer |
| ClassifierVectors.OtherQueryNotPrerendered | seo4ajax_test.go:22-27 | `withQuery=parameter` without User-Agent is not prerendered |
| ClassifierVectors.FragmentQueriesPrerendered | seo4ajax_test.go:29-41 | `_escaped_fragment_=fragment` and `_escaped_fragment_=` are prerendered |
| ClassifierVectors.SecondParameterPrerendered | seo4ajax_test.go:43-62 | `param1=val1&_escaped_fragment_=` is prerendered for GET and HEAD and not for POST |
| ClassifierVectors.GooglebotNotPrerendered | seo4ajax.go:65-67 | `Googlebot` matches the deny list's `google.*bot`, so a GET of a non-static path with that User-Agent is refused |
| ClassifierVectors.BingbotNotPrerendered | seo4ajax_test.go:74-80 | bingbot is named by both lists and refused |
| ClassifierVectors.YandexBotNotPrerendered | seo4ajax_test.go:90-96 | YandexBot is refused |
| ClassifierVectors.MailRuBotNotPrerendered | seo4ajax_test.go:98-104 | Mail.RU_Bot is refused |
| ClassifierVectors.PinterestIosNotPrerendered | seo4ajax_test.go:106-112 | the Pinterest iOS app is refused |
| ClassifierVectors.FlipboardAndroidNotAllowed | seo4ajax_test.go:114-120 | the Flipboard Android User-Agent holds no allow-list keyword |
| ClassifierVectors.FlipboardAndroidNotPrerendered | seo4ajax_test.go:114-120 | so it is not prerendered |
| ClassifierVectors.TwitterbotNotDenied | seo4ajax_test.go:122-128 | `Twitterbot/1.0` holds no deny-list keyword |
| ClassifierVectors.TwitterbotPrerendered | seo4ajax_test.go:122-128 | it names `bot` and is prerendered |
| ClassifierVectors.FacebookNotDenied | seo4ajax_test.go:130-136 | Facebook's crawler holds no deny-list keyword |
| ClassifierVectors.FacebookPrerendered | seo4ajax_test.go:130-136 | it names `facebookexternalhit` and is prerendered |
| ClassifierVectors.PinterestBotNotDenied | seo4ajax_test.go:138-144 | `Pinterest/0.2 (+http://www.pinterest.com/)` holds no deny-list keyword |
| ClassifierVectors.PinterestBotPrerendered | seo4ajax_test.go:138-144 | it names `pinterest` and is prerendered |
| ClassifierVectors.FlipboardProxyNotDenied | seo4ajax_test.go:146-152 | Flipboard's proxy holds no deny-list keyword |
| ClassifierVectors.FlipboardProxyPrerendered | seo4ajax_test.go:146-152 | it names `flipboardproxy` and is prerendered |
| ClassifierVectors.GenericBotNotDenied | seo4ajax_test.go:154-160 | the generic bot string holds no deny-list keyword |
| ClassifierVectors.GenericBotPrerendered | seo4ajax_test.go:154-160 | it names `bot` and is prerendered |
| ClassifierVectors.GenericSpiderNotDenied | seo4ajax_test.go:162-168 | the generic spider string holds no deny-list keyword |
| ClassifierVectors.GenericSpiderPrerendered | seo4ajax_test.go:162-168 | it names `spider` and is prerendered |
| ClassifierVectors.GenericCrawlerNotDenied | seo4ajax_test.go:170-176 | the generic crawler string holds no deny-list keyword |
| ClassifierVectors.GenericCrawlerPrerendered | seo4ajax_test.go:170-176 | it names `crawler` and is prerendered |
| ClassifierVectors.GenericArchiverNotDenied | seo4ajax_test.go:178-184 | the generic archiver string holds no deny-list keyword |
| ClassifierVectors.GenericArchiverPrerendered | seo4ajax_test.go:178-184 | it names `archiver` and is prerendered |
| ClassifierVectors.AnyBotAllowed | seo4ajax_test.go:190 | the static-file tests' User-Agent names `bot` |
| ClassifierVectors.StaticFilesNotPrerendered | seo4ajax_test.go:186-232 | `.js`, `.png` and `.html` paths, with or without `?query=something`, are refused to that bot |
| ClassifierVectors.SomefileNotPrerendered | seo4ajax_test.go:236-258 | `/somefile.js`, `/somefile.css` and `/somefile.html` are not prerendered |
| ClassifierVectors.PathExamples | seo4ajax.go:26 | `/index.html` and `/a.js` are static paths; `/v1.0` and `/a.c` are not |
| UpstreamVectors.NewVectors | seo4ajax_test.go:420-427 | with a valid address and token `123` `New` succeeds; without a token it fails with no token; without an address it fails with no address, even when the token is also missing |
| UpstreamVectors.CallerRequestsPrerendered | seo4ajax_test.go:299-302 | the client tests' requests carry the escaped fragment and are prerendered |
| UpstreamVectors.TokenSentFirst | seo4ajax_test.go:280-306 | the service sees token `123` as path part 1, on its own host, with the caller's query |
| UpstreamVectors.ForwardedForAdded | seo4ajax_test.go:339-362 | without a forwarding header the service sees `127.0.0.1` |
| UpstreamVectors.ProxiedChainExtended | seo4ajax_test.go:364-388 | `10.0.0.2, 10.0.0.1` becomes `127.0.0.1, 10.0.0.2, 10.0.0.1` |
| UpstreamVectors.ForwardedForExtended | seo4ajax_test.go:364-388 | and that is what the service sees |
| UpstreamVectors.CallerHeadersForwarded | seo4ajax_test.go:309-337 | Content-Type and User-Agent reach the service unchanged |
| UpstreamVectors.RedirectPassedOn | seo4ajax_test.go:391-418 | an upstream 302 to `http://example.com/` is passed on as that redirect, with no error, and the caller's response header carries that Location |
| UpstreamVectors.CacheMissReported | seo4ajax.go:115-120 | an upstream 503 gives the caller status 503 with the cache-miss message and a plain-text Content-Type, and the client the cache-miss error |

The User-Agent vectors rely on helper lemmas that have no rows above:

- `<Agent>Letters<n>` states which letters a piece of the string lacks,
  ignoring case.
- `<Agent>Lacks` states that a keyword lacking one of those letters in
  every piece does not match.
- `<Agent>Without<Keyword>` applies this to one keyword.

Long User-Agents are written as pieces of at most forty characters. Each cut
falls before a character that begins no keyword.

## Left out

- The regular-expression engine. The three expressions are modelled as what
  they match, not as compiled automata.
- Unicode case folding outside the orbits of ASCII letters. None of the
  patterns holds a non-ASCII character, so no other character can matter.
- Http.UrlString: it prints path and fragment unescaped. Go's `URL.String`
  writes them percent-escaped (`EscapedPath`, `EscapedFragment`, `RawPath`).
  `Url.path` and `Url.fragment` are Go's decoded `URL.Path` and
  `URL.Fragment`, and `IsPrerender` tests the decoded path, as
  seo4ajax.go:69 does. For a path or fragment holding a character Go
  escapes, the model's upstream target therefore differs from Go's by that
  escaping. `ParseReference` likewise does no unescaping. Ports are part of
  the host.
- Upstream.ParseHttpUrl: it stands for the parse inside `http.NewRequest`
  only as far as the upstream target needs. It gives no result for an
  authority holding `@`, `?` or `#`, instead of parsing user information,
  because the service host holds none of them.
- Header-name canonicalisation. Keys are written in canonical form.
- Upstream.RedirectHeader and Upstream.ErrorHeader: they model the header
  keys `http.Redirect` and `http.Error` set, not the rest of those calls.
  Left out are the HTML body of a redirect, the rewriting of relative
  locations against the caller's path, the escaping of non-ASCII characters
  in the location, and the removal of Content-Length that newer Go versions
  make in `http.Error`. The writes record the location or message and the
  status.
- Upstream.CleanPathRoundTrip: it reads `cleanPath`'s output the way
  `url.Parse` reads what follows the host of an `http` URL, which is where
  the upstream target places it. `url.Parse` applied to the output alone
  reads a leading `//` as an authority, and `ParseReference` has no such
  branch. `CleanPathKeepsNetworkPath` states that such output keeps its
  `//`.
- The `http.ResponseWriter` state. The outcome lists the calls made on the
  writer in order. It does not model that a status set after the first body
  write, such as the 503 after a broken 200 body, no longer reaches the
  caller.
- `io.Copy` and streaming. A body is either complete or broken after a
  prefix, with the copy error.
- `client.Do`, `http.NewRequest` and `net.ParseIP`. They are parameters. The
  redirect-refused error is matched by a constructor of `Transport`, not by
  its message suffix.
- `resp.Body.Close` and the package-level `client` and regular-expression
  variables. They carry no decision.
- The tests' newer API: `Config`, `ServeHTTP`, `RetryUnavailable`,
  `FetchTimeout`, retries and a configurable server. The model follows the
  code, so the upstream host is `api.seo4ajax.com` where the tests point at a
  local server.
- Test expectations the code contradicts. The tests expect
  `Mozilla/5.0 (compatible; Googlebot/2.1; ...)` and the Googlebot-mobile
  string to be prerendered (seo4ajax_test.go:66-88), and the same for
  `Googlebot` at seo4ajax_test.go:448-451. The deny list's `google.*bot`
  refuses every User-Agent with `google` followed by `bot` on one line;
  `GooglebotNotPrerendered` proves this for `Googlebot`. The tests also expect
  `/index.html` and `/index.htm` to be prerendered as exceptions
  (seo4ajax_test.go:260-274). The code has no exception, and `PathExamples`
  proves `/index.html` static.
