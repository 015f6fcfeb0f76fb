/**
 * Auth descriptors and request headers. The client's auth state is a PHP
 * value: FALSE when unset, an array `['type' => …, …]` when one of the typed
 * setters stored it, or anything a caller handed to setAuth. The headers of a
 * request are chosen from that value's `type` entry; device and impersonation
 * headers are added on top whatever the auth mode.
 */
module Auth {
  import opened Php

  /** The descriptors the typed setters store, and the one-shot descriptor of doAuth2FAPush. */
  datatype Credentials =
    | UserPass(user: string, pass: string, twoFactorKey: Option<string>)
    | UserPassPush(user: string, pass: string)
    | UserKey(user: string, key: string)
    | DomainKey(domain: string, key: string)
    | Session(sessionId: string)
    | Jwt(token: string)

  /**
   * The array each setter assigns to `$this->auth` (a missing 2FA key is
   * stored as NULL). A descriptor is exactly its variant: it has that
   * variant's entries and no other, so storing one leaves nothing of an
   * earlier descriptor behind; and it is never FALSE, so it always selects by
   * its type entry.
   */
  function Descriptor(c: Credentials): (r: Value)
    ensures r.Arr? && r.entries.Keys == DescriptorKeys(c)
    ensures Index(r, "type") == Str(TypeName(c))
    ensures r != False && !LooseNull(r)
  {
    match c
    case UserPass(u, p, k) =>
      Arr(map["type" := Str("userpass"), "user" := Str(u), "pass" := Str(p),
              "2fa" := if k.Some? then Str(k.value) else Null])
    case UserPassPush(u, p) =>
      Arr(map["type" := Str("userpass"), "user" := Str(u), "pass" := Str(p), "2fa_push" := Bool(true)])
    case UserKey(u, k) => Arr(map["type" := Str("userkey"), "user" := Str(u), "key" := Str(k)])
    case DomainKey(d, k) => Arr(map["type" := Str("domainkey"), "domain" := Str(d), "key" := Str(k)])
    case Session(s) => Arr(map["type" := Str("session"), "sessionid" := Str(s)])
    case Jwt(t) => Arr(map["type" := Str("jwt"), "token" := Str(t)])
  }

  /** The entries each descriptor has, and no others. */
  function DescriptorKeys(c: Credentials): set<string> {
    match c
    case UserPass(_, _, _) => {"type", "user", "pass", "2fa"}
    case UserPassPush(_, _) => {"type", "user", "pass", "2fa_push"}
    case UserKey(_, _) => {"type", "user", "key"}
    case DomainKey(_, _) => {"type", "domain", "key"}
    case Session(_) => {"type", "sessionid"}
    case Jwt(_) => {"type", "token"}
  }

  function TypeName(c: Credentials): string {
    match c
    case UserPass(_, _, _) => "userpass"
    case UserPassPush(_, _) => "userpass"
    case UserKey(_, _) => "userkey"
    case DomainKey(_, _) => "domainkey"
    case Session(_) => "session"
    case Jwt(_) => "jwt"
  }

  /** The branches of the header selection. */
  datatype Scheme = NoScheme | JwtScheme | SessionScheme | UserKeyScheme | DomainKeyScheme | UserPassScheme

  /** The scheme a type name selects when it is held as a string. */
  function SchemeNamed(name: string): Scheme {
    if name == "jwt" then JwtScheme
    else if name == "session" then SessionScheme
    else if name == "userkey" then UserKeyScheme
    else if name == "domainkey" then DomainKeyScheme
    else if name == "userpass" then UserPassScheme
    else NoScheme
  }

  /**
   * The first of `$auth['type'] == 'jwt'`, `== 'session'`, `== 'userkey'`,
   * `== 'domainkey'`, `== 'userpass'` that holds.
   */
  function SchemeOfType(t: Value): (r: Scheme)
    ensures t.Str? ==> r == SchemeNamed(t.s)
    ensures t == Bool(true) ==> r == JwtScheme
    ensures !t.Str? && t != Bool(true) ==> r == NoScheme
  {
    if LooseEqualsWord(t, "jwt") then JwtScheme
    else if LooseEqualsWord(t, "session") then SessionScheme
    else if LooseEqualsWord(t, "userkey") then UserKeyScheme
    else if LooseEqualsWord(t, "domainkey") then DomainKeyScheme
    else if LooseEqualsWord(t, "userpass") then UserPassScheme
    else NoScheme
  }

  /**
   * `if ($auth !== FALSE) { … }`: FALSE selects nothing, any other value
   * selects by its type entry; so a scheme is chosen only for a value other
   * than FALSE whose type entry is set, and a type entry TRUE loosely equals
   * 'jwt'.
   */
  function SchemeOf(auth: Value): (r: Scheme)
    ensures r != NoScheme ==> auth != False && Isset(auth, "type")
    ensures auth != False && Index(auth, "type") == Bool(true) ==> r == JwtScheme
  {
    if auth == False then NoScheme else SchemeOfType(Index(auth, "type"))
  }

  /** Every header name an auth descriptor can contribute. */
  const AuthHeaderNames: set<string> :=
    {"Authorization", "X-SESSION-ID", "X-API-USER", "X-API-KEY", "X-DOMAIN", "X-DOMAIN-KEY", "X-2FA-KEY", "X-2FA-PUSH"}

  /** The bearer credentials of section 2.1 of RFC 6750: "Bearer " and the token. */
  function BearerHeader(token: Value): Value {
    Str("Bearer " + ToPhpString(token))
  }

  /** An optional header, present when the descriptor's entry is set. */
  function HeaderIfSet(auth: Value, name: string, key: string): map<string, Value> {
    if Isset(auth, key) then map[name := Index(auth, key)] else map[]
  }

  /** The headers the auth descriptor contributes. */
  function AuthHeaders(auth: Value): (h: map<string, Value>)
    ensures h.Keys <= AuthHeaderNames
  {
    match SchemeOf(auth)
    case NoScheme => map[]
    case JwtScheme => map["Authorization" := BearerHeader(Index(auth, "token"))]
    case SessionScheme => map["X-SESSION-ID" := Index(auth, "sessionid")]
    case UserKeyScheme => map["X-API-USER" := Index(auth, "user"), "X-API-KEY" := Index(auth, "key")]
    case DomainKeyScheme => map["X-DOMAIN" := Index(auth, "domain"), "X-DOMAIN-KEY" := Index(auth, "key")]
    case UserPassScheme => HeaderIfSet(auth, "X-2FA-KEY", "2fa") + HeaderIfSet(auth, "X-2FA-PUSH", "2fa_push")
  }

  /**
   * The `(user, pass)` pair handed to the transport for HTTP basic
   * authentication (RFC 7617), for the userpass scheme only.
   */
  function BasicAuth(auth: Value): (r: Option<(Value, Value)>)
    ensures r.Some? ==> AuthHeaders(auth).Keys <= {"X-2FA-KEY", "X-2FA-PUSH"}
    ensures r.None? ==> "X-2FA-KEY" !in AuthHeaders(auth) && "X-2FA-PUSH" !in AuthHeaders(auth)
  {
    if SchemeOf(auth) == UserPassScheme then Some((Index(auth, "user"), Index(auth, "pass"))) else None
  }

  /** What each typed descriptor should put on the wire, written per variant. */
  function CredentialHeaders(c: Credentials): map<string, Value> {
    match c
    case UserPass(_, _, k) => if k.Some? then map["X-2FA-KEY" := Str(k.value)] else map[]
    case UserPassPush(_, _) => map["X-2FA-PUSH" := Bool(true)]
    case UserKey(u, k) => map["X-API-USER" := Str(u), "X-API-KEY" := Str(k)]
    case DomainKey(d, k) => map["X-DOMAIN" := Str(d), "X-DOMAIN-KEY" := Str(k)]
    case Session(s) => map["X-SESSION-ID" := Str(s)]
    case Jwt(t) => map["Authorization" := Str("Bearer " + t)]
  }

  function CredentialBasicAuth(c: Credentials): Option<(Value, Value)> {
    match c
    case UserPass(u, p, _) => Some((Str(u), Str(p)))
    case UserPassPush(u, p) => Some((Str(u), Str(p)))
    case _ => None
  }

  /**
   * Header selection applied to a typed descriptor gives exactly that
   * variant's headers: a JWT only the bearer Authorization header, a session
   * only X-SESSION-ID, a user key X-API-USER and X-API-KEY, a domain key
   * X-DOMAIN and X-DOMAIN-KEY, and user/password basic credentials with
   * X-2FA-KEY only for a 2FA key that is not NULL and X-2FA-PUSH only for push.
   */
  lemma {:induction false} HeadersOfCredentials(c: Credentials)
    ensures AuthHeaders(Descriptor(c)) == CredentialHeaders(c)
    ensures BasicAuth(Descriptor(c)) == CredentialBasicAuth(c)
  {
    match c
    case UserPass(u, p, k) => UserPassHeaders(u, p, k);
    case UserPassPush(u, p) => PushHeaders(u, p);
    case _ => FixedHeaders(c);
  }

  lemma UserPassHeaders(user: string, pass: string, key: Option<string>)
    ensures AuthHeaders(Descriptor(UserPass(user, pass, key))) == CredentialHeaders(UserPass(user, pass, key))
    ensures BasicAuth(Descriptor(UserPass(user, pass, key))) == CredentialBasicAuth(UserPass(user, pass, key))
  {
    var d := Descriptor(UserPass(user, pass, key));
    assert SchemeOf(d) == UserPassScheme;
    assert !Isset(d, "2fa_push");
    assert Isset(d, "2fa") <==> key.Some?;
    assert HeaderIfSet(d, "X-2FA-PUSH", "2fa_push") == map[];
  }

  lemma PushHeaders(user: string, pass: string)
    ensures AuthHeaders(Descriptor(UserPassPush(user, pass))) == CredentialHeaders(UserPassPush(user, pass))
    ensures BasicAuth(Descriptor(UserPassPush(user, pass))) == CredentialBasicAuth(UserPassPush(user, pass))
  {
    var d := Descriptor(UserPassPush(user, pass));
    assert SchemeOf(d) == UserPassScheme;
    assert !Isset(d, "2fa");
    assert HeaderIfSet(d, "X-2FA-KEY", "2fa") == map[];
  }

  lemma FixedHeaders(c: Credentials)
    requires !c.UserPass? && !c.UserPassPush?
    ensures AuthHeaders(Descriptor(c)) == CredentialHeaders(c)
    ensures BasicAuth(Descriptor(c)) == CredentialBasicAuth(c)
  {
    assert SchemeOf(Descriptor(c)) == SchemeNamed(TypeName(c));
  }

  /** FALSE, and any value whose type entry names no scheme, contribute no auth headers at all. */
  lemma NoSchemeNoHeaders(auth: Value)
    requires auth == False || SchemeOfType(Index(auth, "type")) == NoScheme
    ensures AuthHeaders(auth) == map[] && BasicAuth(auth) == None
  {
  }

  /**
   * The branch taken depends only on the type entry: two descriptors other
   * than FALSE with the same type entry select the same scheme, and outside
   * userpass the same header names.
   */
  lemma SchemeDependsOnlyOnType(a: Value, b: Value)
    requires a != False && b != False
    requires Index(a, "type") == Index(b, "type")
    ensures SchemeOf(a) == SchemeOf(b)
    ensures SchemeOf(a) != UserPassScheme ==> AuthHeaders(a).Keys == AuthHeaders(b).Keys
    ensures BasicAuth(a).Some? == BasicAuth(b).Some?
  {
  }

  /** `X-2FA-DEVICE-ID` and `X-2FA-SAVE-DEVICE`, each when its setting is not NULL. */
  function DeviceHeaders(deviceId: Option<string>, deviceName: Option<string>): (h: map<string, Value>)
    ensures h.Keys <= {"X-2FA-DEVICE-ID", "X-2FA-SAVE-DEVICE"}
    ensures "X-2FA-DEVICE-ID" in h <==> deviceId.Some?
    ensures deviceId.Some? ==> h["X-2FA-DEVICE-ID"] == Str(deviceId.value)
    ensures "X-2FA-SAVE-DEVICE" in h <==> deviceName.Some?
    ensures deviceName.Some? ==> h["X-2FA-SAVE-DEVICE"] == Str(deviceName.value)
  {
    (if deviceId.Some? then map["X-2FA-DEVICE-ID" := Str(deviceId.value)] else map[])
    + (if deviceName.Some? then map["X-2FA-SAVE-DEVICE" := Str(deviceName.value)] else map[])
  }

  /** `X-IMPERSONATE-ID` for type 'id', `X-IMPERSONATE` for any other type, nothing when not impersonating. */
  function ImpersonationHeaders(target: Option<string>, kind: Option<string>): (h: map<string, Value>)
    ensures h.Keys <= {"X-IMPERSONATE-ID", "X-IMPERSONATE"}
    ensures "X-IMPERSONATE-ID" in h <==> target.Some? && kind == Some("id")
    ensures "X-IMPERSONATE" in h <==> target.Some? && kind != Some("id")
    ensures target.Some? ==> |h| == 1 && h.Values == {Str(target.value)}
  {
    if target.None? then map[]
    else if kind == Some("id") then map["X-IMPERSONATE-ID" := Str(target.value)]
    else map["X-IMPERSONATE" := Str(target.value)]
  }

  /** All headers of a request: auth, then device, then impersonation. */
  function RequestHeaders(auth: Value, deviceId: Option<string>, deviceName: Option<string>,
                          target: Option<string>, kind: Option<string>): map<string, Value>
  {
    AuthHeaders(auth) + DeviceHeaders(deviceId, deviceName) + ImpersonationHeaders(target, kind)
  }

  /**
   * Device and impersonation headers compose with any auth mode: every auth
   * header survives unchanged, and so does every device and impersonation
   * header, since the three sets of names are disjoint; no other header is added.
   */
  lemma RequestHeadersCompose(auth: Value, deviceId: Option<string>, deviceName: Option<string>,
                              target: Option<string>, kind: Option<string>)
    ensures var h := RequestHeaders(auth, deviceId, deviceName, target, kind);
            var a, d, i := AuthHeaders(auth), DeviceHeaders(deviceId, deviceName), ImpersonationHeaders(target, kind);
            && h.Keys == a.Keys + d.Keys + i.Keys
            && (forall k :: k in a ==> h[k] == a[k])
            && (forall k :: k in d ==> h[k] == d[k])
            && (forall k :: k in i ==> h[k] == i[k])
  {
    var a, d, i := AuthHeaders(auth), DeviceHeaders(deviceId, deviceName), ImpersonationHeaders(target, kind);
    UnionOfDisjoint(a, d, i);
  }

  lemma UnionOfDisjoint(a: map<string, Value>, d: map<string, Value>, i: map<string, Value>)
    requires a.Keys <= AuthHeaderNames
    requires d.Keys <= {"X-2FA-DEVICE-ID", "X-2FA-SAVE-DEVICE"}
    requires i.Keys <= {"X-IMPERSONATE-ID", "X-IMPERSONATE"}
    ensures (a + d + i).Keys == a.Keys + d.Keys + i.Keys
    ensures forall k :: k in a ==> (a + d + i)[k] == a[k]
    ensures forall k :: k in d ==> (a + d + i)[k] == d[k]
    ensures forall k :: k in i ==> (a + d + i)[k] == i[k]
  {
  }

  /**
   * A stored typed credential yields, among the auth header names, exactly
   * its own headers, whatever device or impersonation settings are in force;
   * an auth header name outside the credential's never appears.
   */
  lemma {:induction false} CredentialRequestHeaders(c: Credentials, deviceId: Option<string>, deviceName: Option<string>,
                                                    target: Option<string>, kind: Option<string>)
    ensures var h := RequestHeaders(Descriptor(c), deviceId, deviceName, target, kind);
            forall k :: k in AuthHeaderNames ==>
              (k in h <==> k in CredentialHeaders(c)) && (k in h ==> h[k] == CredentialHeaders(c)[k])
  {
    var d, i := DeviceHeaders(deviceId, deviceName), ImpersonationHeaders(target, kind);
    HeadersOfCredentials(c);
    ExtraHeadersOutsideAuthNames(d, i);
    OnlyAuthPart(CredentialHeaders(c), d, i, AuthHeaderNames);
  }

  lemma ExtraHeadersOutsideAuthNames(d: map<string, Value>, i: map<string, Value>)
    requires d.Keys <= {"X-2FA-DEVICE-ID", "X-2FA-SAVE-DEVICE"}
    requires i.Keys <= {"X-IMPERSONATE-ID", "X-IMPERSONATE"}
    ensures AuthHeaderNames !! d.Keys && AuthHeaderNames !! i.Keys
  {
  }

  lemma OnlyAuthPart(a: map<string, Value>, d: map<string, Value>, i: map<string, Value>, names: set<string>)
    requires names !! d.Keys && names !! i.Keys
    ensures forall k :: k in names ==> (k in a + d + i <==> k in a) && (k in a ==> (a + d + i)[k] == a[k])
  {
  }
}
