/** The parts of Go's `net/http` and `net/url` values that the prerender
    client reads and writes: header maps, URLs and their string form, and
    inbound requests. */
module Http {
  import opened Wrappers
  import opened Text

  /** `http.Header`: a header name, in canonical form, to its values. */
  type Header = map<string, seq<string>>

  /** `Header.Get`: the first value stored under `key`, or "" when there
      is none. */
  function HeaderGet(h: Header, key: string): (v: string)
    ensures key in h && |h[key]| > 0 ==> v == h[key][0]
    ensures v != "" ==> key in h && |h[key]| > 0
    ensures key !in h ==> v == ""
  {
    if key in h && |h[key]| > 0 then h[key][0] else ""
  }

  /** `Header.Set`: `key` now holds exactly the one value `value`. */
  function HeaderSet(h: Header, key: string, value: string): (r: Header)
    ensures r.Keys == h.Keys + {key}
    ensures r[key] == [value]
    ensures forall k :: k in h && k != key ==> r[k] == h[k]
  {
    h[key := [value]]
  }

  /** What `Set` stores, `Get` reads back, and no other key changes. */
  lemma SetThenGet(h: Header, key: string, value: string, other: string)
    requires other != key
    ensures HeaderGet(HeaderSet(h, key, value), key) == value
    ensures HeaderGet(HeaderSet(h, key, value), other) == HeaderGet(h, other)
  {
  }

  /** `url.URL`. `path` and `fragment` are Go's decoded `Path` and
      `Fragment`, `rawQuery` is the query as sent, and `user` is the
      user information as printed. */
  datatype Url = Url(
    scheme: string,
    opaquePart: string,
    user: Option<string>,
    host: string,
    path: string,
    forceQuery: bool,
    rawQuery: string,
    fragment: string)

  /** The `?query` part of `URL.String`: present when `ForceQuery` is set
      or the raw query is non-empty. */
  function QuerySuffix(u: Url): string {
    if u.forceQuery || u.rawQuery != "" then "?" + u.rawQuery else ""
  }

  /** The `#fragment` part of `URL.String`. */
  function FragmentSuffix(u: Url): string {
    if u.fragment != "" then "#" + u.fragment else ""
  }

  /** The text of `path` before its first `/`. */
  function FirstSegment(path: string): string {
    SplitOn(path, '/')[0]
  }

  /** `URL.String`, without the escaping Go applies to path and
      fragment: scheme, then either the opaque part or `//userinfo@host`
      and the path, then query and fragment. A
      reference with nothing before the path whose first segment holds a
      colon is written with a leading `./`, so it cannot be read back as
      a scheme. */
  function UrlString(u: Url): string {
    var scheme := if u.scheme != "" then u.scheme + ":" else "";
    var body :=
      if u.opaquePart != "" then u.opaquePart
      else
        var authority :=
          if u.scheme != "" || u.host != "" || u.user.Some? then
            (if u.host != "" || u.path != "" || u.user.Some? then "//" else "")
            + (if u.user.Some? then u.user.value + "@" else "")
            + u.host
          else "";
        var slash := if u.path != "" && u.path[0] != '/' && u.host != "" then "/" else "";
        var dot := if scheme + authority + slash == "" && ':' in FirstSegment(u.path) then "./" else "";
        authority + slash + dot + u.path;
    scheme + body + QuerySuffix(u) + FragmentSuffix(u)
  }

  /** A URL with nothing before its path, whose path starts with no
      colon-bearing segment, prints as path, query and fragment. */
  lemma ReferenceString(u: Url)
    requires u.scheme == "" && u.opaquePart == "" && u.user == None && u.host == ""
    requires ':' !in FirstSegment(u.path)
    ensures UrlString(u) == u.path + QuerySuffix(u) + FragmentSuffix(u)
  {
  }

  /** The parts of `http.Request` the client looks at. */
  datatype Request = Request(verb: string, url: Url, header: Header)
}
