/** `IsPrerender`: whether a request should be answered from the prerender
    service. The three regular expressions it uses are defined twice: once
    as ghost predicates that follow the expressions' own structure, and
    once as string scans, with lemmas that the two agree. */
module Classifier {
  import opened Text
  import opened Http

  // ---------------------------------------------------------------------
  // The regular expressions, as they are written

  /** `(?i:google.*bot|bing|msnbot|yandexbot|pinterest.*ios|mail\.ru)`
      matches somewhere in the User-Agent. */
  ghost predicate DenyRegex(ua: string) {
    FollowedByIgnoringCase(ua, "google", "bot")
    || ContainsIgnoringCase(ua, "bing")
    || ContainsIgnoringCase(ua, "msnbot")
    || ContainsIgnoringCase(ua, "yandexbot")
    || FollowedByIgnoringCase(ua, "pinterest", "ios")
    || ContainsIgnoringCase(ua, "mail.ru")
  }

  /** `(?i:bot|crawler|spider|archiver|pinterest|facebookexternalhit|flipboardproxy)`
      matches somewhere in the User-Agent. */
  ghost predicate AllowRegex(ua: string) {
    ContainsIgnoringCase(ua, "bot")
    || ContainsIgnoringCase(ua, "crawler")
    || ContainsIgnoringCase(ua, "spider")
    || ContainsIgnoringCase(ua, "archiver")
    || ContainsIgnoringCase(ua, "pinterest")
    || ContainsIgnoringCase(ua, "facebookexternalhit")
    || ContainsIgnoringCase(ua, "flipboardproxy")
  }

  /** `s[i..j]` is a run of `lo` to `hi` characters other than `?`, as
      `[^?]{lo,hi}` consumes (the class includes newline). */
  ghost predicate NotQuestionRun(s: string, i: int, j: int, lo: int, hi: int) {
    0 <= i <= j <= |s| && lo <= j - i <= hi && '?' !in s[i..j]
  }

  /** `s[i..j]` is consumed by `.*`, which stops at newlines. */
  ghost predicate AnyRun(s: string, i: int, j: int) {
    0 <= i <= j <= |s| && OnOneLine(s, i, j)
  }

  /** `\.[^?]{2,4}$` matches `s[i..j]`. */
  ghost predicate EndingExtension(s: string, i: int, j: int) {
    0 <= i < |s| && s[i] == '.' && NotQuestionRun(s, i + 1, j, 2, 4) && j == |s|
  }

  /** `\.[^?]{2,4}?.*` matches `s[i..j]`. */
  ghost predicate InnerExtension(s: string, i: int, j: int) {
    0 <= i < |s| && s[i] == '.'
    && exists k :: NotQuestionRun(s, i + 1, k, 2, 4) && AnyRun(s, k, j)
  }

  /** `.*(\.[^?]{2,4}$|\.[^?]{2,4}?.*)` matches `s[start..j]`, with the
      dot at `i`. */
  ghost predicate PathRegexAt(s: string, start: int, i: int, j: int) {
    AnyRun(s, start, i) && (EndingExtension(s, i, j) || InnerExtension(s, i, j))
  }

  /** The path regex matches some part of the path. */
  ghost predicate PathRegex(s: string) {
    exists start, i, j :: PathRegexAt(s, start, i, j)
  }

  // ---------------------------------------------------------------------
  // The same tests as string scans

  /** A dot at `i` followed by two characters, neither of them `?`. */
  predicate ExtensionDotAt(p: string, i: int) {
    0 <= i && i + 3 <= |p| && p[i] == '.' && p[i + 1] != '?' && p[i + 2] != '?'
  }

  /** Whether some dot at or after `from` is an extension dot. */
  function FindExtensionDot(p: string, from: nat): (r: bool)
    ensures r <==> exists i :: from <= i && ExtensionDotAt(p, i)
    decreases |p| - from
  {
    if from + 3 > |p| then false
    else ExtensionDotAt(p, from) || FindExtensionDot(p, from + 1)
  }

  /** Either alternative of the path regex starts with an extension dot. */
  lemma ExtensionDotOfMatch(p: string, start: int, i: int, j: int)
    requires PathRegexAt(p, start, i, j)
    ensures ExtensionDotAt(p, i)
  {
    var k: int;
    if EndingExtension(p, i, j) {
      k := j;
    } else {
      k :| NotQuestionRun(p, i + 1, k, 2, 4) && AnyRun(p, k, j);
    }
    assert p[i + 1] == p[i + 1..k][0] && p[i + 2] == p[i + 1..k][1];
  }

  /** An extension dot and its two characters match the lazy second
      alternative, with empty runs around them. */
  lemma MatchOfExtensionDot(p: string, i: int)
    requires ExtensionDotAt(p, i)
    ensures PathRegexAt(p, i, i, i + 3)
  {
    assert p[i + 1..i + 3] == [p[i + 1], p[i + 2]];
    assert NotQuestionRun(p, i + 1, i + 3, 2, 4) && AnyRun(p, i + 3, i + 3);
  }

  /** The path regex matches exactly when the path has an extension dot:
      the lazy second alternative needs only its two mandatory
      characters, and the first alternative implies the second. */
  lemma PathRegexIsExtensionDot(p: string)
    ensures PathRegex(p) <==> exists i :: ExtensionDotAt(p, i)
  {
    if PathRegex(p) {
      var start, i, j :| PathRegexAt(p, start, i, j);
      ExtensionDotOfMatch(p, start, i, j);
    }
    if exists i :: ExtensionDotAt(p, i) {
      var i :| ExtensionDotAt(p, i);
      MatchOfExtensionDot(p, i);
    }
  }

  /** A path without a dot is never taken for a static file. */
  lemma DotlessPathNotStatic(p: string)
    requires '.' !in p
    ensures !PathRegex(p)
  {
    PathRegexIsExtensionDot(p);
  }

  /** `regexPath.MatchString(path)`. */
  predicate StaticPath(path: string): (r: bool)
    ensures r <==> PathRegex(path)
  {
    PathRegexIsExtensionDot(path);
    FindExtensionDot(path, 0)
  }

  /** `regexInvalidUserAgent.MatchString(ua)`: the folded User-Agent
      contains `bing`, `msnbot`, `yandexbot` or `mail.ru`, or has
      `google` followed on the same line by `bot`, or `pinterest`
      followed on the same line by `ios`. */
  predicate DeniedAgent(ua: string): (r: bool)
    ensures r <==> DenyRegex(ua)
  {
    var f := FoldString(ua);
    FoldedFollowedBy(ua, "google", "bot");
    FoldedContains(ua, "bing");
    FoldedContains(ua, "msnbot");
    FoldedContains(ua, "yandexbot");
    FoldedFollowedBy(ua, "pinterest", "ios");
    FoldedContains(ua, "mail.ru");
    MatchesFollowedBy(f, "google", "bot")
    || ContainsStr(f, "bing")
    || ContainsStr(f, "msnbot")
    || ContainsStr(f, "yandexbot")
    || MatchesFollowedBy(f, "pinterest", "ios")
    || ContainsStr(f, "mail.ru")
  }

  /** `regexValidUserAgent.MatchString(ua)`: the folded User-Agent
      contains one of the crawler keywords. */
  predicate AllowedAgent(ua: string): (r: bool)
    ensures r <==> AllowRegex(ua)
  {
    var f := FoldString(ua);
    FoldedContains(ua, "bot");
    FoldedContains(ua, "crawler");
    FoldedContains(ua, "spider");
    FoldedContains(ua, "archiver");
    FoldedContains(ua, "pinterest");
    FoldedContains(ua, "facebookexternalhit");
    FoldedContains(ua, "flipboardproxy");
    ContainsStr(f, "bot")
    || ContainsStr(f, "crawler")
    || ContainsStr(f, "spider")
    || ContainsStr(f, "archiver")
    || ContainsStr(f, "pinterest")
    || ContainsStr(f, "facebookexternalhit")
    || ContainsStr(f, "flipboardproxy")
  }

  // ---------------------------------------------------------------------
  // The classifier

  const EscapedFragment: string := "_escaped_fragment_"

  function UserAgent(req: Request): string {
    HeaderGet(req.header, "User-Agent")
  }

  /** The method may be prerendered at all. */
  predicate ReadMethod(verb: string) {
    verb == "GET" || verb == "HEAD"
  }

  /** `IsPrerender`: checks run in order and the first that decides wins —
      method, escaped-fragment query, deny list, static path, allow list. */
  predicate IsPrerender(req: Request): (r: bool)
    ensures r <==>
      ReadMethod(req.verb)
      && (Contains(req.url.rawQuery, EscapedFragment)
          || (!DenyRegex(UserAgent(req)) && !PathRegex(req.url.path) && AllowRegex(UserAgent(req))))
  {
    if req.verb != "GET" && req.verb != "HEAD" then false
    else if ContainsStr(req.url.rawQuery, EscapedFragment) then true
    else if DeniedAgent(UserAgent(req)) then false
    else if StaticPath(req.url.path) then false
    else AllowedAgent(UserAgent(req))
  }

  // ---------------------------------------------------------------------
  // Properties of the decision order

  /** Only GET and HEAD are ever prerendered, whatever the query says. */
  lemma OtherMethodsNeverPrerendered(req: Request)
    requires !ReadMethod(req.verb)
    ensures !IsPrerender(req)
  {
  }

  /** For GET and HEAD an `_escaped_fragment_` query wins over User-Agent
      and path. */
  lemma EscapedFragmentWins(req: Request)
    requires ReadMethod(req.verb)
    requires Contains(req.url.rawQuery, EscapedFragment)
    ensures IsPrerender(req)
  {
  }

  /** A denied User-Agent is rejected even when it also names a crawler. */
  lemma DenyBeatsAllow(req: Request)
    requires !Contains(req.url.rawQuery, EscapedFragment)
    requires DeniedAgent(UserAgent(req))
    ensures !IsPrerender(req)
  {
  }

  /** A path with an extension dot is never prerendered without the
      escaped-fragment query, whatever the User-Agent. */
  lemma StaticPathExcluded(req: Request, i: int)
    requires !Contains(req.url.rawQuery, EscapedFragment)
    requires ExtensionDotAt(req.url.path, i)
    ensures !IsPrerender(req)
  {
    PathRegexIsExtensionDot(req.url.path);
  }

  /** When no earlier check decides, the allow list does. */
  lemma FallThroughToAllowList(req: Request)
    requires ReadMethod(req.verb)
    requires !Contains(req.url.rawQuery, EscapedFragment)
    requires !DeniedAgent(UserAgent(req)) && !StaticPath(req.url.path)
    ensures IsPrerender(req) == AllowedAgent(UserAgent(req))
  {
  }

  /** No keyword of the allow list is empty, so an absent User-Agent is
      never a crawler. */
  lemma EmptyAgentNotAllowed()
    ensures !AllowRegex("")
  {
  }

  /** A request without User-Agent and escaped-fragment query is not
      prerendered. */
  lemma NoAgentNotPrerendered(req: Request)
    requires !Contains(req.url.rawQuery, EscapedFragment)
    requires UserAgent(req) == ""
    ensures !IsPrerender(req)
  {
    EmptyAgentNotAllowed();
  }
}
