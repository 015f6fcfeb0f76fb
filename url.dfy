/**
 * URL pieces of the client: the slash-normalising join of base URL, API
 * version and method path; unparse_url, which rebuilds a URL from the
 * component array parse_url returns (the scheme, authority, path, query and
 * fragment split of section 3 of RFC 3986); and ParseUrl, a reader for the
 * layout unparse_url writes, used to show that nothing is lost in the
 * rebuild.
 */
module Url {
  import opened Php

  // ---------------------------------------------------------------------
  // rtrim($base, '/') . '/' . $version . '/' . ltrim($apimethod, '/')
  // ---------------------------------------------------------------------

  predicate AllSlashes(s: string) {
    forall i :: 0 <= i < |s| ==> s[i] == '/'
  }

  /** `rtrim($s, '/')`: the longest prefix of `s` that does not end in '/', the rest being slashes. */
  function TrimTrailingSlashes(s: string): (r: string)
    ensures |r| <= |s| && r == s[..|r|]
    ensures AllSlashes(s[|r|..])
    ensures r == [] || r[|r| - 1] != '/'
  {
    if |s| > 0 && s[|s| - 1] == '/' then TrimTrailingSlashes(s[..|s| - 1]) else s
  }

  /** `ltrim($s, '/')`: the longest suffix of `s` that does not start with '/', the rest being slashes. */
  function TrimLeadingSlashes(s: string): (r: string)
    ensures |r| <= |s| && r == s[|s| - |r|..]
    ensures AllSlashes(s[..|s| - |r|])
    ensures r == [] || r[0] != '/'
  {
    if |s| > 0 && s[0] == '/' then TrimLeadingSlashes(s[1..]) else s
  }

  /**
   * The request URL: `sprintf('%s/%s/%s', rtrim($baseurl, '/'), $version, ltrim($apimethod, '/'))`.
   * The base keeps everything up to its trailing slashes and the method path
   * everything after its leading slashes, and a single slash joins each to
   * the version.
   */
  function JoinUrl(base: string, version: string, apiMethod: string): (r: string)
    ensures |r| == |TrimTrailingSlashes(base)| + |version| + |TrimLeadingSlashes(apiMethod)| + 2
    ensures var b := TrimTrailingSlashes(base);
            && r[..|b|] == base[..|b|]
            && r[|b|] == '/' && (|b| == 0 || r[|b| - 1] != '/')
            && r[|b| + 1..|b| + 1 + |version|] == version
    ensures var m := TrimLeadingSlashes(apiMethod);
            && r[|r| - |m|..] == apiMethod[|apiMethod| - |m|..]
            && r[|r| - |m| - 1] == '/' && (|m| == 0 || r[|r| - |m|] != '/')
  {
    var b, m := TrimTrailingSlashes(base), TrimLeadingSlashes(apiMethod);
    JoinLayout(b, version, m);
    b + "/" + version + "/" + m
  }

  /** Where each piece of `b/v/m` sits. */
  lemma JoinLayout(b: string, v: string, m: string)
    ensures var r := b + "/" + v + "/" + m;
            && |r| == |b| + |v| + |m| + 2
            && r[..|b|] == b && r[|b|] == '/' && (|b| == 0 || r[|b| - 1] == b[|b| - 1])
            && r[|b| + 1..|b| + 1 + |v|] == v
            && r[|r| - |m|..] == m && r[|r| - |m| - 1] == '/' && (|m| == 0 || r[|r| - |m|] == m[0])
  {
    var r := b + "/" + v + "/" + m;
    assert r == b + ("/" + v + "/" + m);
    assert r == (b + "/" + v + "/") + m;
    assert r == (b + "/") + v + ("/" + m);
  }

  lemma {:induction false} TrimTrailingIgnoresSlashes(s: string, t: string)
    requires AllSlashes(t)
    ensures TrimTrailingSlashes(s + t) == TrimTrailingSlashes(s)
    decreases |t|
  {
    if t != [] {
      assert (s + t)[..|s + t| - 1] == s + t[..|t| - 1];
      TrimTrailingIgnoresSlashes(s, t[..|t| - 1]);
    } else {
      assert s + t == s;
    }
  }

  lemma {:induction false} TrimLeadingIgnoresSlashes(t: string, s: string)
    requires AllSlashes(t)
    ensures TrimLeadingSlashes(t + s) == TrimLeadingSlashes(s)
    decreases |t|
  {
    if t != [] {
      assert (t + s)[1..] == t[1..] + s;
      TrimLeadingIgnoresSlashes(t[1..], s);
    } else {
      assert t + s == s;
    }
  }

  /**
   * Extra slashes at the end of the base URL or at the start of the method
   * path make no difference to the request URL.
   */
  lemma JoinUrlIgnoresSlashes(base: string, version: string, apiMethod: string, extraTail: string, extraHead: string)
    requires AllSlashes(extraTail) && AllSlashes(extraHead)
    ensures JoinUrl(base + extraTail, version, extraHead + apiMethod) == JoinUrl(base, version, apiMethod)
  {
    TrimTrailingIgnoresSlashes(base, extraTail);
    TrimLeadingIgnoresSlashes(extraHead, apiMethod);
  }

  /** A base URL and method path with no slashes at the join are joined as they are. */
  lemma JoinUrlExact(base: string, version: string, apiMethod: string)
    requires base == [] || base[|base| - 1] != '/'
    requires apiMethod == [] || apiMethod[0] != '/'
    ensures JoinUrl(base, version, apiMethod) == base + "/" + version + "/" + apiMethod
  {
  }

  // ---------------------------------------------------------------------
  // unparse_url
  // ---------------------------------------------------------------------

  /** The array parse_url returns: each component is present or absent. */
  datatype UrlParts = UrlParts(
    scheme: Option<string>,
    host: Option<string>,
    port: Option<nat>,
    user: Option<string>,
    pass: Option<string>,
    path: Option<string>,
    query: Option<string>,
    fragment: Option<string>)

  /** `isset($p[k]) ? $p[k] : ''` */
  function OrEmpty(o: Option<string>): string {
    if o.Some? then o.value else ""
  }

  /** `isset($p[k]) ? c . $p[k] : ''`: the component after its delimiter, or nothing. */
  function Delimited(c: char, o: Option<string>): (r: string)
    ensures o.None? <==> r == ""
    ensures o.Some? ==> r == [c] + o.value
  {
    if o.Some? then [c] + o.value else ""
  }

  function PortText(port: Option<nat>): Option<string> {
    if port.Some? then Some(Decimal(port.value)) else None
  }

  /** `$scheme`: the scheme followed by "://", or nothing. */
  function SchemePart(p: UrlParts): string {
    if p.scheme.Some? then p.scheme.value + "://" else ""
  }

  /**
   * `$pass` after `$pass = ($user || $pass) ? "$pass@" : ''`: ":pass" when a
   * password is present, then '@' when the user string or that text is truthy.
   * Since ":pass" is always truthy, the '@' is lost exactly when there is no
   * password and the user is absent, "" or "0".
   */
  function PassPart(user: Option<string>, pass: Option<string>): (r: string)
    ensures r == "" <==> pass.None? && !Truthy(OrEmpty(user))
    ensures r != "" ==> r[|r| - 1] == '@' && r[..|r| - 1] == Delimited(':', pass)
  {
    var u := OrEmpty(user);
    var w := Delimited(':', pass);
    assert pass.Some? ==> w[0] == ':' && w != "0";
    if Truthy(u) || Truthy(w) then w + "@" else ""
  }

  /** `$host$port` */
  function HostPortText(host: Option<string>, port: Option<nat>): string {
    OrEmpty(host) + Delimited(':', PortText(port))
  }

  /** `$user$pass$host$port` */
  function AuthorityText(user: Option<string>, pass: Option<string>, host: Option<string>, port: Option<nat>): string {
    OrEmpty(user) + PassPart(user, pass) + HostPortText(host, port)
  }

  /** `"$scheme$user$pass$host$port$path$query$fragment"` */
  function UnparseUrl(p: UrlParts): string {
    SchemePart(p) + (AuthorityText(p.user, p.pass, p.host, p.port) + OrEmpty(p.path))
    + Delimited('?', p.query) + Delimited('#', p.fragment)
  }

  /**
   * The '@' closing the user information is written exactly when a user or a
   * password is present, provided a present user string is truthy in PHP.
   */
  lemma UnparseUrlAt(user: Option<string>, pass: Option<string>)
    requires user.Some? ==> Truthy(user.value)
    ensures PassPart(user, pass) == if user.Some? || pass.Some? then Delimited(':', pass) + "@" else ""
  {
    if pass.Some? {
      assert Delimited(':', pass)[0] == ':';
    }
  }

  /**
   * A user "0" without a password is falsy in PHP, so its '@' is lost and it
   * runs into the host: the URL reads as if "0" began the host name.
   */
  lemma UnparseUrlFalsyUser(p: UrlParts)
    requires p.user == Some("0") && p.pass.None?
    ensures UnparseUrl(p) == UnparseUrl(p.(user := None, host := Some("0" + OrEmpty(p.host))))
  {
    var q := p.(user := None, host := Some("0" + OrEmpty(p.host)));
    assert PassPart(p.user, p.pass) == "" && PassPart(q.user, q.pass) == "";
    assert AuthorityText(p.user, p.pass, p.host, p.port) == AuthorityText(q.user, q.pass, q.host, q.port);
  }

  // ---------------------------------------------------------------------
  // Reading the layout back
  // ---------------------------------------------------------------------

  /** Splits `s` at the first `c`: what comes before it, and what comes after it if `c` occurs. */
  function SplitAt(s: string, c: char): (r: (string, Option<string>))
    ensures c !in r.0
    ensures r.1.None? ==> r.0 == s
    ensures r.1.Some? ==> s == r.0 + [c] + r.1.value
  {
    if s == [] then ([], None)
    else if s[0] == c then ([], Some(s[1..]))
    else
      var rest := SplitAt(s[1..], c);
      ([s[0]] + rest.0, rest.1)
  }

  /** A prefix free of `c` carries over to the part before the first `c`. */
  lemma {:induction false} SplitAtAppend(x: string, y: string, c: char)
    requires c !in x
    ensures SplitAt(x + y, c) == (x + SplitAt(y, c).0, SplitAt(y, c).1)
  {
    if x == [] {
      assert x + y == y;
      assert x + SplitAt(y, c).0 == SplitAt(y, c).0;
    } else {
      assert (x + y)[0] == x[0];
      assert (x + y)[1..] == x[1..] + y;
      SplitAtAppend(x[1..], y, c);
      assert [x[0]] + (x[1..] + SplitAt(y, c).0) == x + SplitAt(y, c).0;
    }
  }

  /** Splitting right after a `c`-free prefix and its delimited component gives both back. */
  lemma SplitAtDelimited(x: string, c: char, o: Option<string>)
    requires c !in x
    ensures SplitAt(x + Delimited(c, o), c) == (x, o)
  {
    SplitAtAppend(x, Delimited(c, o), c);
    assert x + [] == x;
  }

  /** The scheme, when the text before the first ':' has no '/' and "//" follows the ':'. */
  function SplitScheme(s: string): (Option<string>, string) {
    var (before, after) := SplitAt(s, ':');
    if after.Some? && '/' !in before && |after.value| >= 2 && after.value[..2] == "//"
    then (Some(before), after.value[2..])
    else (None, s)
  }

  /** The authority, and the path from the first '/' on. */
  function SplitPath(s: string): (string, Option<string>) {
    var (before, after) := SplitAt(s, '/');
    (before, if after.Some? then Some("/" + after.value) else None)
  }

  /** User and password before an '@', and the host and port after it. */
  function SplitUserInfo(s: string): (Option<string>, Option<string>, string) {
    var (before, after) := SplitAt(s, '@');
    if after.None? then (None, None, s)
    else
      var (user, pass) := SplitAt(before, ':');
      (if user == "" then None else Some(user), pass, after.value)
  }

  /** Host before a ':', and the decimal port after it. */
  function SplitHostPort(s: string): (Option<string>, Option<nat>) {
    var (host, port) := SplitAt(s, ':');
    (if host == "" then None else Some(host), if port.Some? then Some(ParseDecimal(port.value)) else None)
  }

  /** Reads a URL written in UnparseUrl's layout back into its components. */
  function ParseUrl(s: string): UrlParts {
    var (s1, fragment) := SplitAt(s, '#');
    var (s2, query) := SplitAt(s1, '?');
    var (scheme, s3) := SplitScheme(s2);
    var (authority, path) := SplitPath(s3);
    var (user, pass, hostPort) := SplitUserInfo(authority);
    var (host, port) := SplitHostPort(hostPort);
    UrlParts(scheme, host, port, user, pass, path, query, fragment)
  }


  predicate FreeOfQueryAndFragment(s: string) {
    '?' !in s && '#' !in s
  }

  predicate SchemeOk(s: string) {
    ':' !in s && '/' !in s && FreeOfQueryAndFragment(s)
  }

  predicate UserOk(u: string) {
    Truthy(u) && ':' !in u && '@' !in u && '/' !in u && FreeOfQueryAndFragment(u)
  }

  predicate PassOk(w: string) {
    '@' !in w && '/' !in w && FreeOfQueryAndFragment(w)
  }

  predicate HostOk(h: string) {
    h != "" && ':' !in h && '@' !in h && '/' !in h && FreeOfQueryAndFragment(h)
  }

  predicate PathOk(t: string) {
    |t| > 0 && t[0] == '/' && FreeOfQueryAndFragment(t)
  }

  /**
   * Components whose text does not contain the delimiters that end them: a
   * subset of what parse_url returns (no ':' in the host, no '@' in the user
   * information), with a present user truthy and a present host and path
   * non-empty.
   */
  predicate WellFormed(p: UrlParts) {
    && (p.scheme.Some? ==> SchemeOk(p.scheme.value))
    && (p.user.Some? ==> UserOk(p.user.value))
    && (p.pass.Some? ==> PassOk(p.pass.value))
    && (p.host.Some? ==> HostOk(p.host.value))
    && (p.path.Some? ==> PathOk(p.path.value))
    && (p.query.Some? ==> '#' !in p.query.value)
  }

  lemma DecimalFree(n: nat, c: char)
    requires !('0' <= c <= '9')
    ensures c !in Decimal(n)
  {
  }

  lemma HostPortTextChars(host: Option<string>, port: Option<nat>)
    requires host.Some? ==> HostOk(host.value)
    ensures var t := HostPortText(host, port);
            '@' !in t && '/' !in t && FreeOfQueryAndFragment(t)
  {
    if port.Some? {
      DecimalFree(port.value, '@');
      DecimalFree(port.value, '/');
      DecimalFree(port.value, '?');
      DecimalFree(port.value, '#');
    }
  }

  lemma SplitHostPortInverse(host: Option<string>, port: Option<nat>)
    requires host.Some? ==> HostOk(host.value)
    ensures SplitHostPort(HostPortText(host, port)) == (host, port)
  {
    SplitAtDelimited(OrEmpty(host), ':', PortText(port));
    if port.Some? {
      DecimalRoundTrip(port.value);
    }
  }

  lemma UserInfoChars(user: Option<string>, pass: Option<string>)
    requires user.Some? ==> UserOk(user.value)
    requires pass.Some? ==> PassOk(pass.value)
    ensures var t := OrEmpty(user) + PassPart(user, pass);
            '/' !in t && FreeOfQueryAndFragment(t)
  {
    UnparseUrlAt(user, pass);
  }

  lemma SplitUserInfoInverse(user: Option<string>, pass: Option<string>, rest: string)
    requires user.Some? ==> UserOk(user.value)
    requires pass.Some? ==> PassOk(pass.value)
    requires '@' !in rest
    ensures SplitUserInfo(OrEmpty(user) + PassPart(user, pass) + rest) == (user, pass, rest)
  {
    UnparseUrlAt(user, pass);
    var u := OrEmpty(user);
    if user.None? && pass.None? {
      assert u + PassPart(user, pass) + rest == rest + Delimited('@', None);
      SplitAtDelimited(rest, '@', None);
    } else {
      var info := u + Delimited(':', pass);
      assert '@' !in info;
      assert u + PassPart(user, pass) + rest == info + Delimited('@', Some(rest));
      SplitAtDelimited(info, '@', Some(rest));
      SplitAtDelimited(u, ':', pass);
    }
  }

  lemma SplitPathInverse(authority: string, path: Option<string>)
    requires '/' !in authority
    requires path.Some? ==> PathOk(path.value)
    ensures SplitPath(authority + OrEmpty(path)) == (authority, path)
  {
    if path.Some? {
      var t := path.value;
      assert t == "/" + t[1..];
      assert authority + OrEmpty(path) == authority + Delimited('/', Some(t[1..]));
      SplitAtDelimited(authority, '/', Some(t[1..]));
    } else {
      assert authority + OrEmpty(path) == authority + Delimited('/', None);
      SplitAtDelimited(authority, '/', None);
    }
  }

  /** A ':' not followed by "//" does not start a scheme. */
  lemma NotASchemeColon(head: string, tail: string)
    requires ':' !in head
    requires tail == [] || tail[0] != '/'
    ensures SplitScheme(head + Delimited(':', Some(tail))) == (None, head + Delimited(':', Some(tail)))
  {
    SplitAtDelimited(head, ':', Some(tail));
  }

  /** Without a scheme, a password's ':' is not mistaken for the end of one. */
  lemma NoSchemeBeforePass(u: string, w: string, rest: string)
    requires ':' !in u && '/' !in w
    ensures var r := u + (Delimited(':', Some(w)) + "@") + rest;
            SplitScheme(r) == (None, r)
  {
    var tail := w + "@" + rest;
    assert u + (Delimited(':', Some(w)) + "@") + rest == u + Delimited(':', Some(tail));
    assert tail[0] != '/';
    NotASchemeColon(u, tail);
  }

  /** Without a scheme, a port's ':' is not mistaken for the end of one. */
  lemma NoSchemeBeforePort(head: string, n: nat, path: string)
    requires ':' !in head
    ensures var r := head + Delimited(':', PortText(Some(n))) + path;
            SplitScheme(r) == (None, r)
  {
    var tail := Decimal(n) + path;
    assert head + Delimited(':', PortText(Some(n))) + path == head + Delimited(':', Some(tail));
    assert tail[0] != '/';
    NotASchemeColon(head, tail);
  }

  /** Without a scheme, a ':' in the path comes after its leading '/'. */
  lemma NoSchemeInPath(a: string, path: Option<string>)
    requires ':' !in a
    requires path.Some? ==> PathOk(path.value)
    ensures var r := a + OrEmpty(path);
            SplitScheme(r) == (None, r)
  {
    if path.Some? {
      var t := path.value;
      assert a + OrEmpty(path) == (a + "/") + t[1..];
      SlashBeforeColon(a, t[1..]);
    } else {
      assert a + OrEmpty(path) == a + Delimited(':', None);
      SplitAtDelimited(a, ':', None);
    }
  }

  /** A '/' before the first ':' rules a scheme out. */
  lemma SlashBeforeColon(a: string, rest: string)
    requires ':' !in a
    ensures SplitScheme((a + "/") + rest) == (None, (a + "/") + rest)
  {
    assert ':' !in a + "/";
    SplitAtAppend(a + "/", rest, ':');
    assert SplitAt((a + "/") + rest, ':').0[|a|] == '/';
  }

  /** Without a password or a port the authority holds no ':'. */
  lemma NoColonInPlainAuthority(user: Option<string>, host: Option<string>)
    requires user.Some? ==> UserOk(user.value)
    requires host.Some? ==> HostOk(host.value)
    ensures ':' !in AuthorityText(user, None, host, None)
  {
    UnparseUrlAt(user, None);
  }

  /** Without a scheme or password, a port's ':' is not mistaken for the end of one. */
  lemma NoSchemeBeforeHostPort(user: Option<string>, host: Option<string>, n: nat, path: string)
    requires user.Some? ==> UserOk(user.value)
    requires host.Some? ==> HostOk(host.value)
    ensures var r := AuthorityText(user, None, host, Some(n)) + path;
            SplitScheme(r) == (None, r)
  {
    var info := OrEmpty(user) + PassPart(user, None);
    NoColonInUserInfo(user);
    var head := info + OrEmpty(host);
    assert AuthorityText(user, None, host, Some(n)) == head + Delimited(':', PortText(Some(n)));
    NoSchemeBeforePort(head, n, path);
  }

  /** A user without a password writes no ':'. */
  lemma NoColonInUserInfo(user: Option<string>)
    requires user.Some? ==> UserOk(user.value)
    ensures ':' !in OrEmpty(user) + PassPart(user, None)
  {
    UnparseUrlAt(user, None);
  }

  /** A password's ':' is the first one and is followed by the password, not "//". */
  lemma NoSchemeWithPass(user: Option<string>, pass: string, host: Option<string>, port: Option<nat>, path: Option<string>)
    requires user.Some? ==> UserOk(user.value)
    requires PassOk(pass)
    ensures var r := AuthorityText(user, Some(pass), host, port) + OrEmpty(path);
            SplitScheme(r) == (None, r)
  {
    UnparseUrlAt(user, Some(pass));
    var u := OrEmpty(user);
    var rest := HostPortText(host, port) + OrEmpty(path);
    assert AuthorityText(user, Some(pass), host, port) + OrEmpty(path) == u + (Delimited(':', Some(pass)) + "@") + rest;
    NoSchemeBeforePass(u, pass, rest);
  }

  /** Without a scheme, no ':' in the rest of the URL is mistaken for the end of one. */
  lemma NoSchemeInRest(user: Option<string>, pass: Option<string>, host: Option<string>, port: Option<nat>, path: Option<string>)
    requires user.Some? ==> UserOk(user.value)
    requires pass.Some? ==> PassOk(pass.value)
    requires host.Some? ==> HostOk(host.value)
    requires path.Some? ==> PathOk(path.value)
    ensures var r := AuthorityText(user, pass, host, port) + OrEmpty(path);
            SplitScheme(r) == (None, r)
  {
    if pass.Some? {
      NoSchemeWithPass(user, pass.value, host, port, path);
    } else if port.Some? {
      NoSchemeBeforeHostPort(user, host, port.value, OrEmpty(path));
    } else {
      NoColonInPlainAuthority(user, host);
      NoSchemeInPath(AuthorityText(user, pass, host, port), path);
    }
  }

  lemma SplitSchemeInverse(scheme: string, rest: string)
    requires SchemeOk(scheme)
    ensures SplitScheme(scheme + "://" + rest) == (Some(scheme), rest)
  {
    var tail := "//" + rest;
    assert scheme + "://" + rest == scheme + Delimited(':', Some(tail));
    SplitAtDelimited(scheme, ':', Some(tail));
    assert tail[..2] == "//" && tail[2..] == rest;
  }

  /** UnparseUrl loses nothing: reading its output back gives the same components. */
  lemma UnparseUrlRoundTrip(p: UrlParts)
    requires WellFormed(p)
    ensures ParseUrl(UnparseUrl(p)) == p
  {
    var a := AuthorityText(p.user, p.pass, p.host, p.port);
    var r := a + OrEmpty(p.path);
    var s2 := SchemePart(p) + r;
    var s1 := s2 + Delimited('?', p.query);
    AuthorityChars(p);
    FragmentComesLast(p, s1);
    QueryComesNext(p, s2);
    SchemeComesFirst(p, r);
    SplitPathInverse(a, p.path);
    SplitUserInfoInverse(p.user, p.pass, HostPortText(p.host, p.port));
    SplitHostPortInverse(p.host, p.port);
  }

  /** The authority of well-formed components holds none of the delimiters that end it. */
  lemma AuthorityChars(p: UrlParts)
    requires WellFormed(p)
    ensures var a := AuthorityText(p.user, p.pass, p.host, p.port);
            '/' !in a && FreeOfQueryAndFragment(a)
    ensures '@' !in HostPortText(p.host, p.port)
  {
    HostPortTextChars(p.host, p.port);
    UserInfoChars(p.user, p.pass);
  }

  lemma FragmentComesLast(p: UrlParts, s1: string)
    requires WellFormed(p)
    requires FreeOfQueryAndFragment(AuthorityText(p.user, p.pass, p.host, p.port))
    requires s1 == SchemePart(p) + (AuthorityText(p.user, p.pass, p.host, p.port) + OrEmpty(p.path)) + Delimited('?', p.query)
    ensures SplitAt(UnparseUrl(p), '#') == (s1, p.fragment)
  {
    SplitAtDelimited(s1, '#', p.fragment);
  }

  lemma QueryComesNext(p: UrlParts, s2: string)
    requires WellFormed(p)
    requires FreeOfQueryAndFragment(AuthorityText(p.user, p.pass, p.host, p.port))
    requires s2 == SchemePart(p) + (AuthorityText(p.user, p.pass, p.host, p.port) + OrEmpty(p.path))
    ensures SplitAt(s2 + Delimited('?', p.query), '?') == (s2, p.query)
  {
    SplitAtDelimited(s2, '?', p.query);
  }

  lemma SchemeComesFirst(p: UrlParts, r: string)
    requires WellFormed(p)
    requires r == AuthorityText(p.user, p.pass, p.host, p.port) + OrEmpty(p.path)
    ensures SplitScheme(SchemePart(p) + r) == (p.scheme, r)
  {
    if p.scheme.Some? {
      SplitSchemeInverse(p.scheme.value, r);
    } else {
      assert SchemePart(p) + r == r;
      NoSchemeInRest(p.user, p.pass, p.host, p.port, p.path);
    }
  }

  /** Replacing the query of well-formed components and rebuilding changes nothing else. */
  lemma ReplaceQueryKeepsComponents(p: UrlParts, query: string)
    requires WellFormed(p) && '#' !in query
    ensures ParseUrl(UnparseUrl(p.(query := Some(query)))) == p.(query := Some(query))
  {
    UnparseUrlRoundTrip(p.(query := Some(query)));
  }
}
