/**
 * The client's wrapper methods, one constructor each, with the three things
 * every wrapper decides: the guard it checks before calling `api`, the call
 * it makes (verb, path template, data), and how it unwraps the envelope.
 * Arguments the PHP methods default (`$userid = 'self'`, `$options = []`,
 * `$type = null`, …) are explicit here.
 */
module Operations {
  import opened Php
  import opened Envelope

  /** The wrapper methods, in the five groups of the client. */
  datatype Operation =
    | Accounts(accountOp: AccountOp)
    | Users(userOp: UserOp)
    | Sessions(sessionOp: SessionOp)
    | Domains(domainOp: DomainOp)
    | Articles(articleOp: ArticleOp)

  /** Ping, the version, registration and password recovery. */
  datatype AccountOp =
    | Ping(time: Option<string>)
    | GetVersion
    | Register(email: string, name: string, acceptTerms: Value)
    | RegisterConfirm(user: string, code: string, password: string)
    | ResendWelcome(userId: string)
    | AcceptTerms(userId: string)
    | ForgotPassword(email: string)
    | ForgotPasswordConfirm(user: string, code: string, password: string)

  /** User data, system values, users, API keys, 2FA devices and keys, custom data. */
  datatype UserOp =
    | GetUserData
    | GetUsers
    | GetSystemDataValue(key: string)
    | GetSystemStats(statsType: string, options: Value)
    | GetUserStats(statsType: string, options: Value, userId: string)
    | GetUserInfo(userId: string)
    | SetUserInfo(data: Value, userId: string)
    | CreateUser(data: Value)
    | DeleteUser(userId: string)
    | DeleteUserConfirm(userId: string, confirmCode: string, twoFactorCode: string)
    | GetApiKeys(userId: string)
    | CreateApiKey(data: Value, userId: string)
    | UpdateApiKey(key: string, data: Value, userId: string)
    | DeleteApiKey(key: string, userId: string)
    | Get2faDevices(userId: string)
    | Delete2faDevice(device: string, userId: string)
    | Get2faKeys(userId: string)
    | Create2faKey(data: Value, userId: string)
    | Update2faKey(key: string, data: Value, userId: string)
    | Verify2faKey(key: string, code: string, userId: string)
    | Delete2faKey(key: string, userId: string)
    | GetCustomDataList(userId: string)
    | SetCustomData(key: string, value: Value, userId: string)
    | GetCustomData(key: string, userId: string)
    | DeleteCustomData(key: string, userId: string)

  /** JWT tokens and sessions. */
  datatype SessionOp =
    | GetJwtToken
    | GetSessionId
    | DeleteSession

  /** Domains, their records, keys and hooks: every path here is under `/domains`. */
  datatype DomainOp =
    | GetDomains(queryParams: map<string, Value>)
    | CreateDomain(domain: string, owner: Value)
    | DeleteDomain(domain: string)
    | GetDomainData(domain: string)
    | SetDomainData(domain: string, data: Value)
    | GetDomainAccess(domain: string)
    | SetDomainAccess(domain: string, data: Value)
    | GetDomainStats(domain: string, options: Value)
    | GetDomainLogs(domain: string)
    | SyncDomain(domain: string)
    | ExportZone(domain: string)
    | ImportZone(domain: string, zone: Value)
    | GetDomainRecords(domain: string)
    | GetDomainRecord(domain: string, id: string)
    | GetDomainRecordsByName(domain: string, name: string, recordType: Option<string>)
    | SetDomainRecords(domain: string, data: Value)
    | SetDomainRecord(domain: string, id: string, data: Value)
    | DeleteDomainRecords(domain: string)
    | DeleteDomainRecord(domain: string, id: string)
    | DeleteDomainRecordsByName(domain: string, name: string, recordType: Option<string>)
    | GetDomainKeys(domain: string)
    | CreateDomainKey(domain: string, data: Value)
    | UpdateDomainKey(domain: string, key: string, data: Value)
    | DeleteDomainKey(domain: string, key: string)
    | GetDomainHooks(domain: string)
    | CreateDomainHook(domain: string, data: Value)
    | UpdateDomainHook(domain: string, hookId: string, data: Value)
    | DeleteDomainHook(domain: string, hookId: string)

  /** Articles. */
  datatype ArticleOp =
    | GetArticles
    | GetAllArticles
    | CreateArticle(data: Value)
    | GetArticle(articleId: string)
    | UpdateArticle(articleId: string, data: Value)
    | DeleteArticle(articleId: string)

  /** The arguments of one `api` call. */
  datatype Call = Call(verb: string, path: string, data: Value)

  /** A path `api` gets: it starts with a slash. */
  predicate Rooted(path: string) {
    |path| > 0 && path[0] == '/'
  }

  predicate WellRouted(c: Call) {
    Rooted(c.path) && (c.verb == "GET" || c.verb == "POST" || c.verb == "DELETE")
  }

  /**
   * Where a call goes: a fixed path, or a path under `/domains`, which the
   * PHP writes as `($this->domainAdmin ? '/admin' : '') . '/domains' . …`.
   */
  datatype Location = Fixed(path: string) | InDomains(tail: string)

  /** A fixed path starts with a slash and is not itself under `/domains`. */
  predicate Placed(l: Location) {
    l.Fixed? ==> Rooted(l.path) && !StartsWith(l.path, "/domains")
  }

  /** A path under `/domains`, behind `/admin` when the admin override is on. */
  function DomainPath(admin: bool, tail: string): (r: string)
    ensures Rooted(r)
    ensures !admin ==> StartsWith(r, "/domains")
    ensures admin ==> r == "/admin" + DomainPath(false, tail)
  {
    (if admin then "/admin" else "") + "/domains" + tail
  }

  /** The path a location names; only locations under `/domains` depend on the admin override. */
  function PathOf(admin: bool, l: Location): (r: string)
    requires Placed(l)
    ensures Rooted(r)
    ensures StartsWith(PathOf(false, l), "/domains") <==> l.InDomains?
    ensures l.InDomains? ==> r == DomainPath(admin, l.tail)
    ensures l.Fixed? ==> r == l.path
  {
    match l
    case Fixed(path) => path
    case InDomains(tail) => DomainPath(admin, tail)
  }

  /** A wrapper's call before the admin override is applied. */
  datatype Endpoint = Endpoint(verb: string, location: Location, data: Value)

  predicate WellPlaced(e: Endpoint) {
    Placed(e.location) && (e.verb == "GET" || e.verb == "POST" || e.verb == "DELETE")
  }

  function Get(l: Location): (e: Endpoint)
    requires Placed(l)
    ensures WellPlaced(e)
  {
    Endpoint("GET", l, EmptyArray)
  }

  function GetWith(l: Location, data: Value): (e: Endpoint)
    requires Placed(l)
    ensures WellPlaced(e)
  {
    Endpoint("GET", l, data)
  }

  function Post(l: Location, data: Value): (e: Endpoint)
    requires Placed(l)
    ensures WellPlaced(e)
  {
    Endpoint("POST", l, data)
  }

  function Delete(l: Location): (e: Endpoint)
    requires Placed(l)
    ensures WellPlaced(e)
  {
    Endpoint("DELETE", l, EmptyArray)
  }

  /** A literal path of the client: its second character is not `d`, so it is not under `/domains`. */
  function At(path: string): (l: Location)
    requires Rooted(path) && |path| > 1 && path[1] != 'd'
    ensures Placed(l) && l == Fixed(path)
  {
    NotUnderDomains(path);
    Fixed(path)
  }

  /** `'/prefix' . $argument`, which starts with the prefix's slash. */
  function Under(prefix: string, argument: string): (l: Location)
    requires Rooted(prefix) && |prefix| > 1 && prefix[1] != 'd'
    ensures Placed(l) && l == Fixed(prefix + argument)
  {
    At(prefix + argument)
  }

  /** `'/users/' . $userid . tail`. */
  function UserPath(userId: string, tail: string): (l: Location)
    ensures Placed(l) && l == Fixed("/users/" + userId + tail)
  {
    At("/users/" + userId + tail)
  }

  /** `($type != null ? '/' . $type : '')`: a record type that is NULL or "" adds nothing. */
  function TypeSuffix(recordType: Option<string>): string {
    if recordType.Some? && recordType.value != "" then "/" + recordType.value else ""
  }

  /** `(!empty($twoFactorCode) ? '/' . $twoFactorCode : '')`. */
  function CodeSuffix(code: string): string {
    if Truthy(code) then "/" + code else ""
  }

  /** What follows `/domains` in the listing: `?` and the built query string when that is not empty. */
  function ListingTail(queryString: string): string {
    if Truthy(queryString) then "?" + queryString else ""
  }

  /** `['domain' => $domain]`, with `owner` when the owner is not NULL. */
  function CreateDomainData(domain: string, owner: Value): (r: Value)
    ensures r.Arr? && "domain" in r.entries && r.entries["domain"] == Str(domain)
    ensures "owner" in r.entries <==> owner != Null
    ensures owner != Null ==> r.entries["owner"] == owner
    ensures r.entries.Keys <= {"domain", "owner"}
  {
    if owner != Null then Arr(map["domain" := Str(domain), "owner" := owner])
    else Arr(map["domain" := Str(domain)])
  }

  function AccountEndpoint(op: AccountOp): (e: Endpoint)
    ensures WellPlaced(e) && e.location.Fixed?
  {
    match op
    case Ping(time) => if time.None? then Get(At("/ping")) else Get(Under("/ping/", time.value))
    case GetVersion => Get(At("/version"))
    case Register(email, name, acceptTerms) =>
      Post(At("/register"), Arr(map["email" := Str(email), "realname" := Str(name), "acceptterms" := acceptTerms]))
    case RegisterConfirm(user, code, password) =>
      Post(Under("/register/confirm/", user), Arr(map["code" := Str(code), "password" := Str(password)]))
    case ResendWelcome(userId) => Post(UserPath(userId, "/resendwelcome"), EmptyArray)
    case AcceptTerms(userId) => Post(UserPath(userId, "/acceptterms"), Arr(map["acceptterms" := Str("true")]))
    case ForgotPassword(email) => Post(At("/forgotpassword"), Arr(map["email" := Str(email)]))
    case ForgotPasswordConfirm(user, code, password) =>
      Post(Under("/forgotpassword/confirm/", user), Arr(map["code" := Str(code), "password" := Str(password)]))
  }

  function UserEndpoint(op: UserOp): (e: Endpoint)
    ensures WellPlaced(e) && e.location.Fixed?
  {
    match op
    case GetUserData => Get(At("/userdata"))
    case GetUsers => Get(At("/users"))
    case GetSystemDataValue(key) => Get(Under("/system/datavalue/", key))
    case GetSystemStats(statsType, options) => GetWith(Under("/system/stats/", statsType), options)
    case GetUserStats(statsType, options, userId) => GetWith(UserPath(userId, "/stats/" + statsType), options)
    case GetUserInfo(userId) => Get(UserPath(userId, ""))
    case SetUserInfo(data, userId) => Post(UserPath(userId, ""), data)
    case CreateUser(data) => Post(At("/users/create"), data)
    case DeleteUser(userId) => Delete(UserPath(userId, ""))
    case DeleteUserConfirm(userId, confirmCode, twoFactorCode) =>
      Delete(UserPath(userId, "/confirm/" + confirmCode + CodeSuffix(twoFactorCode)))
    case GetApiKeys(userId) => Get(UserPath(userId, "/keys"))
    case CreateApiKey(data, userId) => Post(UserPath(userId, "/keys"), data)
    case UpdateApiKey(key, data, userId) => Post(UserPath(userId, "/keys/" + key), data)
    case DeleteApiKey(key, userId) => Delete(UserPath(userId, "/keys/" + key))
    case Get2faDevices(userId) => Get(UserPath(userId, "/2fadevices"))
    case Delete2faDevice(device, userId) => Delete(UserPath(userId, "/2fadevices/" + device))
    case Get2faKeys(userId) => Get(UserPath(userId, "/2fa"))
    case Create2faKey(data, userId) => Post(UserPath(userId, "/2fa"), data)
    case Update2faKey(key, data, userId) => Post(UserPath(userId, "/2fa/" + key), data)
    case Verify2faKey(key, code, userId) => Post(UserPath(userId, "/2fa/" + key + "/verify"), Arr(map["code" := Str(code)]))
    case Delete2faKey(key, userId) => Delete(UserPath(userId, "/2fa/" + key))
    case GetCustomDataList(userId) => Get(UserPath(userId, "/customdata"))
    case SetCustomData(key, value, userId) => Post(UserPath(userId, "/customdata/" + key), Arr(map["value" := value]))
    case GetCustomData(key, userId) => Get(UserPath(userId, "/customdata/" + key))
    case DeleteCustomData(key, userId) => Delete(UserPath(userId, "/customdata/" + key))
  }

  function SessionEndpoint(op: SessionOp): (e: Endpoint)
    ensures WellPlaced(e) && e.location.Fixed?
  {
    match op
    case GetJwtToken => Get(At("/session/jwt"))
    case GetSessionId => Get(At("/session"))
    case DeleteSession => Delete(At("/session"))
  }

  function DomainEndpoint(op: DomainOp, buildQuery: map<string, Value> -> string): (e: Endpoint)
    ensures WellPlaced(e) && e.location.InDomains?
  {
    match op
    case GetDomains(queryParams) => Get(InDomains(ListingTail(buildQuery(queryParams))))
    case CreateDomain(domain, owner) => Post(InDomains(""), CreateDomainData(domain, owner))
    case DeleteDomain(domain) => Delete(InDomains("/" + domain))
    case GetDomainData(domain) => Get(InDomains("/" + domain))
    case SetDomainData(domain, data) => Post(InDomains("/" + domain), data)
    case GetDomainAccess(domain) => Get(InDomains("/" + domain + "/access"))
    case SetDomainAccess(domain, data) => Post(InDomains("/" + domain + "/access"), data)
    case GetDomainStats(domain, options) => GetWith(InDomains("/" + domain + "/stats"), options)
    case GetDomainLogs(domain) => GetWith(InDomains("/" + domain + "/logs"), Null)
    case SyncDomain(domain) => Get(InDomains("/" + domain + "/sync"))
    case ExportZone(domain) => Get(InDomains("/" + domain + "/export"))
    case ImportZone(domain, zone) => Post(InDomains("/" + domain + "/import"), Arr(map["zone" := zone]))
    case GetDomainRecords(domain) => Get(InDomains("/" + domain + "/records"))
    case GetDomainRecord(domain, id) => Get(InDomains("/" + domain + "/records/" + id))
    case GetDomainRecordsByName(domain, name, recordType) =>
      Get(InDomains("/" + domain + "/record/" + name + TypeSuffix(recordType)))
    case SetDomainRecords(domain, data) => Post(InDomains("/" + domain + "/records"), data)
    case SetDomainRecord(domain, id, data) => Post(InDomains("/" + domain + "/records/" + id), data)
    case DeleteDomainRecords(domain) => Delete(InDomains("/" + domain + "/records"))
    case DeleteDomainRecord(domain, id) => Delete(InDomains("/" + domain + "/records/" + id))
    case DeleteDomainRecordsByName(domain, name, recordType) =>
      Delete(InDomains("/" + domain + "/record/" + name + TypeSuffix(recordType)))
    case GetDomainKeys(domain) => Get(InDomains("/" + domain + "/keys"))
    case CreateDomainKey(domain, data) => Post(InDomains("/" + domain + "/keys"), data)
    case UpdateDomainKey(domain, key, data) => Post(InDomains("/" + domain + "/keys/" + key), data)
    case DeleteDomainKey(domain, key) => Delete(InDomains("/" + domain + "/keys/" + key))
    case GetDomainHooks(domain) => Get(InDomains("/" + domain + "/hooks"))
    case CreateDomainHook(domain, data) => Post(InDomains("/" + domain + "/hooks"), data)
    case UpdateDomainHook(domain, hookId, data) => Post(InDomains("/" + domain + "/hooks/" + hookId), data)
    case DeleteDomainHook(domain, hookId) => Delete(InDomains("/" + domain + "/hooks/" + hookId))
  }

  function ArticleEndpoint(op: ArticleOp): (e: Endpoint)
    ensures WellPlaced(e) && e.location.Fixed?
  {
    match op
    case GetArticles => Get(At("/articles"))
    case GetAllArticles => Get(At("/admin/articles"))
    case CreateArticle(data) => Post(At("/admin/articles"), data)
    case GetArticle(articleId) => Get(Under("/admin/articles/", articleId))
    case UpdateArticle(articleId, data) => Post(Under("/admin/articles/", articleId), data)
    case DeleteArticle(articleId) => Delete(Under("/admin/articles/", articleId))
  }

  /** The verb, location and data each wrapper passes to `api`; only the domain group is under `/domains`. */
  function EndpointOf(op: Operation, buildQuery: map<string, Value> -> string): (e: Endpoint)
    ensures WellPlaced(e)
    ensures e.location.InDomains? <==> op.Domains?
  {
    match op
    case Accounts(a) => AccountEndpoint(a)
    case Users(u) => UserEndpoint(u)
    case Sessions(s) => SessionEndpoint(s)
    case Domains(d) => DomainEndpoint(d, buildQuery)
    case Articles(a) => ArticleEndpoint(a)
  }

  /** The `api` call each wrapper makes, with the admin override applied. */
  function Route(op: Operation, admin: bool, buildQuery: map<string, Value> -> string): (c: Call)
    ensures WellRouted(c)
    ensures c.verb == EndpointOf(op, buildQuery).verb && c.data == EndpointOf(op, buildQuery).data
    ensures c.path == PathOf(admin, EndpointOf(op, buildQuery).location)
  {
    var e := EndpointOf(op, buildQuery);
    Call(e.verb, PathOf(admin, e.location), e.data)
  }

  /** What a wrapper checks before calling `api`, and what it returns when the check fails. */
  datatype Guard =
    | Open                        // no check
    | NeedsAuth(otherwise: Value) // `if ($this->auth === FALSE) { return otherwise; }`
    | NeedsKey(key: string)       // `if (empty($key)) { return NULL; }`

  function AccountGuard(op: AccountOp): (g: Guard)
    ensures g.NeedsAuth? ==> g.otherwise == Null || g.otherwise == EmptyArray
  {
    match op
    case Ping(_) => Open
    case GetVersion => Open
    case Register(_, _, _) => Open
    case RegisterConfirm(_, _, _) => Open
    case ResendWelcome(_) => Open
    case AcceptTerms(_) => Open
    case ForgotPassword(_) => Open
    case ForgotPasswordConfirm(_, _, _) => Open
  }

  function UserGuard(op: UserOp): (g: Guard)
    ensures g.NeedsAuth? ==> g.otherwise == Null || g.otherwise == EmptyArray
  {
    match op
    case GetUserData => NeedsAuth(Null)
    case GetUsers => NeedsAuth(Null)
    case GetSystemDataValue(key) => NeedsKey(key)
    case GetUserStats(_, _, _) => NeedsAuth(Null)
    case GetUserInfo(_) => NeedsAuth(Null)
    case GetApiKeys(_) => NeedsAuth(Null)
    case Get2faDevices(_) => NeedsAuth(Null)
    case Get2faKeys(_) => NeedsAuth(Null)
    case GetCustomDataList(_) => NeedsAuth(Null)
    case _ => NeedsAuth(EmptyArray)
  }

  function SessionGuard(op: SessionOp): (g: Guard)
    ensures g.NeedsAuth? ==> g.otherwise == Null || g.otherwise == EmptyArray
  {
    match op
    case GetJwtToken => NeedsAuth(Null)
    case GetSessionId => NeedsAuth(Null)
    case DeleteSession => NeedsAuth(Null)
  }

  function DomainGuard(op: DomainOp): (g: Guard)
    ensures g.NeedsAuth? ==> g.otherwise == Null || g.otherwise == EmptyArray
  {
    match op
    case GetDomainKeys(_) => NeedsAuth(Null)
    case GetDomainHooks(_) => NeedsAuth(Null)
    case _ => NeedsAuth(EmptyArray)
  }

  function ArticleGuard(op: ArticleOp): (g: Guard)
    ensures g.NeedsAuth? ==> g.otherwise == Null || g.otherwise == EmptyArray
  {
    match op
    case GetArticles => Open
    case _ => NeedsAuth(EmptyArray)
  }

  /** The guard of each wrapper. */
  function GuardOf(op: Operation): (g: Guard)
    ensures g.NeedsAuth? ==> g.otherwise == Null || g.otherwise == EmptyArray
  {
    match op
    case Accounts(a) => AccountGuard(a)
    case Users(u) => UserGuard(u)
    case Sessions(s) => SessionGuard(s)
    case Domains(d) => DomainGuard(d)
    case Articles(a) => ArticleGuard(a)
  }

  /** The value a wrapper returns without calling `api`, when its guard fails. */
  function Refusal(g: Guard, auth: Value): (r: Option<Value>)
    ensures g.Open? ==> r.None?
    ensures g.NeedsAuth? ==> (r.Some? <==> auth == False)
    ensures g.NeedsKey? ==> (r.Some? <==> g.key == "" || g.key == "0")
  {
    match g
    case Open => None
    case NeedsAuth(otherwise) => if auth == False then Some(otherwise) else None
    case NeedsKey(key) => if Truthy(key) then None else Some(Null)
  }

  function AccountUnwrap(op: AccountOp): (u: Unwrap)
    ensures u.Field? ==> |u.path| > 0 && u.path[0] == "response"
  {
    match op
    case Ping(_) => Field(["response"], Null)
    case GetVersion => Field(["response"], Null)
    case _ => Whole
  }

  function UserUnwrap(op: UserOp): (u: Unwrap)
    ensures u.Field? ==> |u.path| > 0 && u.path[0] == "response"
  {
    match op
    case GetUserData => Field(["response"], Null)
    case GetSystemDataValue(key) => Field(["response", key], Null)
    case GetSystemStats(_, _) => Field(["response", "stats"], EmptyArray)
    case GetUserStats(_, _, _) => Field(["response", "stats"], EmptyArray)
    case GetUserInfo(_) => Field(["response"], Null)
    case GetApiKeys(_) => KeyList
    case Get2faDevices(_) => KeyList
    case Get2faKeys(_) => KeyList
    case GetCustomDataList(_) => KeyList
    case GetCustomData(_, _) => Field(["response", "value"], Null)
    case _ => Whole
  }

  function SessionUnwrap(op: SessionOp): (u: Unwrap)
    ensures u.Field? ==> |u.path| > 0 && u.path[0] == "response"
  {
    match op
    case GetJwtToken => Field(["response", "token"], Null)
    case GetSessionId => Field(["response", "session"], Null)
    case DeleteSession => Field(["response", "session"], Null)
  }

  function DomainUnwrap(op: DomainOp): (u: Unwrap)
    ensures u.Field? ==> |u.path| > 0 && u.path[0] == "response"
  {
    match op
    case GetDomains(_) => Field(["response"], EmptyArray)
    case GetDomainData(_) => Field(["response"], Null)
    case GetDomainAccess(_) => Field(["response"], EmptyArray)
    case GetDomainStats(_, _) => Field(["response", "stats"], EmptyArray)
    case GetDomainLogs(_) => Field(["response"], EmptyArray)
    case ExportZone(_) => Field(["response", "zone"], EmptyArray)
    case GetDomainRecords(_) => Field(["response"], EmptyArray)
    case GetDomainRecord(_, _) => Field(["response"], EmptyArray)
    case GetDomainRecordsByName(_, _, _) => Field(["response", "records"], EmptyArray)
    case DeleteDomainRecords(_) => Unchecked
    case DeleteDomainRecord(_, _) => Unchecked
    case DeleteDomainRecordsByName(_, _, _) => Unchecked
    case GetDomainKeys(_) => KeyList
    case GetDomainHooks(_) => KeyList
    case _ => Whole
  }

  function ArticleUnwrap(op: ArticleOp): (u: Unwrap)
    ensures u.Field? ==> |u.path| > 0 && u.path[0] == "response"
  {
    match op
    case GetArticles => Field(["response"], EmptyArray)
    case GetAllArticles => Field(["response"], EmptyArray)
    case GetArticle(_) => Field(["response"], EmptyArray)
    case _ => Whole
  }

  /** How each wrapper unwraps the envelope. */
  function UnwrapOf(op: Operation): (u: Unwrap)
    ensures u.Field? ==> |u.path| > 0 && u.path[0] == "response"
  {
    match op
    case Accounts(a) => AccountUnwrap(a)
    case Users(u) => UserUnwrap(u)
    case Sessions(s) => SessionUnwrap(s)
    case Domains(d) => DomainUnwrap(d)
    case Articles(a) => ArticleUnwrap(a)
  }

  predicate StartsWith(s: string, prefix: string) {
    |prefix| <= |s| && s[..|prefix|] == prefix
  }

  /** A path whose second character is not `d` is not under `/domains`. */
  lemma NotUnderDomains(r: string)
    requires |r| > 1 && r[1] != 'd'
    ensures !StartsWith(r, "/domains")
  {
    if |r| >= 8 {
      assert r[..8][1] == r[1];
    }
  }

  /**
   * The admin override changes the path of exactly the domain group, whose
   * paths are the ones under `/domains`, putting `/admin` in front; every
   * other path (the article paths, which always carry `/admin`, included),
   * the verb and the data are the same either way.
   */
  lemma AdminOverrideOnlyPrefixesDomains(op: Operation, buildQuery: map<string, Value> -> string)
    ensures var on, off := Route(op, true, buildQuery), Route(op, false, buildQuery);
            && on.verb == off.verb && on.data == off.data
            && (StartsWith(off.path, "/domains") <==> op.Domains?)
            && on.path == (if op.Domains? then "/admin" + off.path else off.path)
  {
    var loc := EndpointOf(op, buildQuery).location;
    assert Route(op, false, buildQuery).path == PathOf(false, loc);
    assert Route(op, true, buildQuery).path == PathOf(true, loc);
  }

  /**
   * getDomains lists at `/domains` (behind `/admin` with the override) and
   * appends `?` and the built query string exactly when that string is not
   * empty.
   */
  lemma ListingQueryString(queryParams: map<string, Value>, admin: bool, buildQuery: map<string, Value> -> string)
    ensures var c, head, q := Route(Domains(GetDomains(queryParams)), admin, buildQuery), DomainPath(admin, ""),
                              buildQuery(queryParams);
            && c.verb == "GET" && |c.path| >= |head| && c.path[..|head|] == head
            && (c.path == head <==> !Truthy(q))
            && (Truthy(q) ==> c.path[|head|..] == "?" + q)
  {
    var q := buildQuery(queryParams);
    var op := GetDomains(queryParams);
    assert DomainEndpoint(op, buildQuery) == Get(InDomains(ListingTail(q)));
    assert EndpointOf(Domains(op), buildQuery) == Get(InDomains(ListingTail(q)));
    assert DomainPath(admin, ListingTail(q)) == DomainPath(admin, "") + ListingTail(q);
  }

  /**
   * getDomainRecordsByName and deleteDomainRecordsByName address the same
   * path: `/record/<name>` under the domain, followed by `/<type>` exactly
   * when the type is neither NULL nor "".
   */
  lemma RecordsByNamePath(domain: string, name: string, recordType: Option<string>, admin: bool,
                          buildQuery: map<string, Value> -> string)
    ensures var get := Route(Domains(GetDomainRecordsByName(domain, name, recordType)), admin, buildQuery);
            var del := Route(Domains(DeleteDomainRecordsByName(domain, name, recordType)), admin, buildQuery);
            var base := DomainPath(admin, "/" + domain + "/record/" + name);
            && get.verb == "GET" && del.verb == "DELETE" && get.path == del.path
            && (get.path == base <==> recordType.None? || recordType.value == "")
            && (recordType.Some? && recordType.value != "" ==> get.path == base + "/" + recordType.value)
  {
    var tail := "/" + domain + "/record/" + name;
    var l := InDomains(tail + TypeSuffix(recordType));
    var getOp, delOp := GetDomainRecordsByName(domain, name, recordType), DeleteDomainRecordsByName(domain, name, recordType);
    assert DomainEndpoint(getOp, buildQuery) == Get(l);
    assert EndpointOf(Domains(getOp), buildQuery) == Get(l);
    assert DomainEndpoint(delOp, buildQuery) == Delete(l);
    assert EndpointOf(Domains(delOp), buildQuery) == Delete(l);
    assert DomainPath(admin, tail + TypeSuffix(recordType)) == DomainPath(admin, tail) + TypeSuffix(recordType);
  }

  /** deleteUserConfirm appends `/<code>` to the confirmation path exactly when the 2FA code is not empty. */
  lemma ConfirmCodePath(userId: string, confirmCode: string, twoFactorCode: string, admin: bool,
                        buildQuery: map<string, Value> -> string)
    ensures var c := Route(Users(DeleteUserConfirm(userId, confirmCode, twoFactorCode)), admin, buildQuery);
            var base := "/users/" + userId + "/confirm/" + confirmCode;
            && c.verb == "DELETE"
            && (c.path == base <==> !Truthy(twoFactorCode))
            && (Truthy(twoFactorCode) ==> c.path == base + "/" + twoFactorCode)
  {
    var op := DeleteUserConfirm(userId, confirmCode, twoFactorCode);
    var l := UserPath(userId, "/confirm/" + confirmCode + CodeSuffix(twoFactorCode));
    assert UserEndpoint(op) == Delete(l);
    assert EndpointOf(Users(op), buildQuery) == Delete(l);
    assert l.path == "/users/" + userId + "/confirm/" + confirmCode + CodeSuffix(twoFactorCode);
  }
}
