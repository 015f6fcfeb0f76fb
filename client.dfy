/**
 * The MyDNSHost API client object: its settings, which the setters update in
 * place, the `api` call that turns them into one HTTP request and one
 * response envelope, and the wrappers that guard, route and unwrap.
 */
module Client {
  import opened Php
  import opened Url
  import opened Auth
  import opened Transport
  import opened Envelope
  import opened Operations

  /** `if ($auth == NULL) { $auth = $this->auth; }`: an override that is loosely NULL falls back to the client's auth. */
  function EffectiveAuth(authOverride: Value, own: Value): (r: Value)
    ensures r == own || r == authOverride
    ensures r == authOverride <==> !LooseNull(authOverride) || authOverride == own
  {
    if LooseNull(authOverride) then own else authOverride
  }

  /** A typed descriptor is never loosely NULL, so passed as an override it is always the one used. */
  lemma DescriptorOverrides(c: Credentials, own: Value)
    ensures EffectiveAuth(Descriptor(c), own) == Descriptor(c)
  {
    assert "type" in Descriptor(c).entries;
  }

  /** What a call to `api` returns, given its plan and how many requests went before. */
  function ApiResult(lib: Library, debug: bool, reply: (nat, Request) -> Reply, verb: string, p: Plan, before: nat): (o: Outcome<Value>)
    ensures p.CountError? ==> o.Raised?
    ensures p.NoRequest? && !debug ==> o == Returned(ErrorEnvelope)
  {
    match p
    case CountError => Raised
    case NoRequest => Respond(lib, debug, verb == "POST", None)
    case Send(request) => Respond(lib, debug, verb == "POST", Some(reply(before, request)))
  }

  lemma ApiResultOfReply(lib: Library, debug: bool, reply: (nat, Request) -> Reply, verb: string, p: Plan, before: nat,
                         r: Option<Reply>)
    requires !p.CountError?
    requires r == (if p.Send? then Some(reply(before, p.request)) else None)
    ensures ApiResult(lib, debug, reply, verb, p, before) == Respond(lib, debug, verb == "POST", r)
  {
  }

  /** The transport log after a call with this plan: one more request exactly when there is one to send. */
  function SentAfter(p: Plan, before: seq<Request>): seq<Request> {
    if p.Send? then before + [p.request] else before
  }

  /**
   * A wrapper's result: the unwrapped envelope, or an Error. The Error is the
   * one that escaped `api`, or the one an unchecked `$result['response']`
   * raises when the envelope is a string (a non-numeric offset on a string);
   * every other read of a missing entry gives NULL.
   */
  function Unwrapped(u: Unwrap, o: Outcome<Value>): (r: Outcome<Value>)
    ensures r.Raised? <==> o.Raised? || (u.Unchecked? && o.value.Str?)
  {
    if o.Raised? then Raised
    else if u.Unchecked? && o.value.Str? then Raised
    else Returned(ApplyUnwrap(u, o.value))
  }

  /** What each unwrap rule gives when `api` had no reply: the rule's fallback, or the error envelope itself. */
  function FailureValue(u: Unwrap): Value {
    match u
    case Whole => ErrorEnvelope
    case Field(_, otherwise) => otherwise
    case KeyList => Null
    case Unchecked => Null
  }

  /**
   * When the transport fails (or no request is made) and debug is off, every
   * wrapper returns its fallback: the default of its isset test, NULL for
   * the key lists and unchecked reads, the error envelope for the rest.
   */
  lemma {:induction false} FailureGivesFallback(op: Operation, lib: Library, isPost: bool, reply: Option<Reply>)
    requires reply == None || reply == Some(Thrown)
    ensures Unwrapped(UnwrapOf(op), Respond(lib, false, isPost, reply)) == Returned(FailureValue(UnwrapOf(op)))
  {
    NoReplyIsUnknownError(lib, false, isPost, reply);
    UnwrapOfFailure(UnwrapOf(op));
  }

  /**
   * For the wrappers that test isset on the envelope, refusing without auth
   * returns the same value as a request that got no reply, except in three
   * wrappers whose guard disagrees with their isset default: getUserStats
   * (NULL against `[]`), getDomainData and getCustomData (`[]` against NULL).
   */
  lemma RefusalMatchesFailure(op: Operation)
    requires GuardOf(op).NeedsAuth?
    requires UnwrapOf(op).Field? || UnwrapOf(op).KeyList?
    ensures GuardOf(op).otherwise == FailureValue(UnwrapOf(op)) <==>
              !(op.Users? && (op.userOp.GetUserStats? || op.userOp.GetCustomData?)) &&
              !(op.Domains? && op.domainOp.GetDomainData?)
  {
  }

  /**
   * The key-list rule belongs to exactly six getters: API keys, 2FA devices,
   * 2FA keys, the custom data list, domain keys and domain hooks. Each
   * returns NULL without auth, and after its `api` call returns NULL exactly
   * when the envelope reports an error and no response; it raises only when
   * `api` raised.
   */
  lemma KeyListGetters(op: Operation, o: Outcome<Value>)
    ensures UnwrapOf(op).KeyList? <==>
              (op.Users? && (op.userOp.GetApiKeys? || op.userOp.Get2faDevices? ||
                             op.userOp.Get2faKeys? || op.userOp.GetCustomDataList?))
              || (op.Domains? && (op.domainOp.GetDomainKeys? || op.domainOp.GetDomainHooks?))
    ensures UnwrapOf(op).KeyList? ==>
              && GuardOf(op) == NeedsAuth(Null)
              && (Unwrapped(UnwrapOf(op), o).Raised? <==> o.Raised?)
              && (Unwrapped(UnwrapOf(op), o) == Returned(Null) <==>
                    o.Returned? && !Isset(o.value, "response") && Isset(o.value, "error"))
  {
    if UnwrapOf(op).KeyList? && o.Returned? {
      KeyListRule(o.value);
    }
  }

  /** getDomainLogs hands `api` an undefined `$options`, which is NULL, so its GET always raises in count(). */
  lemma DomainLogsAlwaysRaise(lib: Library, url: string, headers: map<string, Value>, basic: Option<(Value, Value)>,
                              domain: string, admin: bool, buildQuery: map<string, Value> -> string)
    ensures var c := Route(Domains(GetDomainLogs(domain)), admin, buildQuery);
            PlanOf(lib, url, headers, basic, c.verb, c.data).CountError?
  {
  }

  lemma UpdateIsUnion(h: map<string, Value>, k: string, v: Value)
    ensures h[k := v] == h + map[k := v]
  {
  }

  /** The auth part of the header selection, branch by branch as `api` takes it. */
  method SelectAuthHeaders(authValue: Value) returns (headers: map<string, Value>, basic: Option<(Value, Value)>)
    ensures headers == AuthHeaders(authValue)
    ensures basic == BasicAuth(authValue)
  {
    headers := map[];
    basic := None;
    if authValue != False {
      var t := Index(authValue, "type");
      if LooseEqualsWord(t, "jwt") {
        assert SchemeOf(authValue) == JwtScheme;
        headers := headers["Authorization" := BearerHeader(Index(authValue, "token"))];
      } else if LooseEqualsWord(t, "session") {
        assert SchemeOf(authValue) == SessionScheme;
        headers := headers["X-SESSION-ID" := Index(authValue, "sessionid")];
      } else if LooseEqualsWord(t, "userkey") {
        assert SchemeOf(authValue) == UserKeyScheme;
        headers := headers["X-API-USER" := Index(authValue, "user")];
        headers := headers["X-API-KEY" := Index(authValue, "key")];
      } else if LooseEqualsWord(t, "domainkey") {
        assert SchemeOf(authValue) == DomainKeyScheme;
        headers := headers["X-DOMAIN" := Index(authValue, "domain")];
        headers := headers["X-DOMAIN-KEY" := Index(authValue, "key")];
      } else if LooseEqualsWord(t, "userpass") {
        assert SchemeOf(authValue) == UserPassScheme;
        basic := Some((Index(authValue, "user"), Index(authValue, "pass")));
        if Isset(authValue, "2fa") {
          headers := headers["X-2FA-KEY" := Index(authValue, "2fa")];
        }
        assert headers == HeaderIfSet(authValue, "X-2FA-KEY", "2fa");
        if Isset(authValue, "2fa_push") {
          headers := headers["X-2FA-PUSH" := Index(authValue, "2fa_push")];
        }
      } else {
        assert SchemeOf(authValue) == NoScheme;
      }
    }
  }

  /** The branch on the verb: the request to send, none, or the TypeError of count(). */
  method PlanRequest(lib: Library, url: string, headers: map<string, Value>, basic: Option<(Value, Value)>,
                     verb: string, data: Value) returns (p: Plan)
    ensures p == PlanOf(lib, url, headers, basic, verb, data)
  {
    if verb == "GET" {
      if !data.Arr? {
        return CountError;
      }
      var target := MergeIntoQuery(lib, url, data.entries);
      p := Send(Request("GET", target, headers, basic, None));
    } else if verb == "POST" {
      p := Send(Request("POST", url, headers, basic, Some(lib.jsonEncode(Arr(map["data" := data])))));
    } else if verb == "DELETE" {
      p := Send(Request("DELETE", url, headers, basic, None));
    } else {
      p := NoRequest;
    }
  }

  /**
   * The GET branch's URL rewrite: with data, parse the URL, merge the data
   * into its query (or make the data the query) and put the URL back together.
   */
  method MergeIntoQuery(lib: Library, url: string, data: map<string, Value>) returns (r: string)
    ensures r == GetUrl(lib, url, data)
  {
    r := url;
    if |data| > 0 {
      var parts := PartsOf(lib, url);
      var query;
      if parts.query.Some? {
        var existing := lib.parseQuery(parts.query.value);
        query := lib.buildQuery(Merge(existing, data));
      } else {
        query := lib.buildQuery(data);
      }
      r := UnparseUrl(parts.(query := Some(query)));
    }
  }

  /** `X-2FA-DEVICE-ID` and `X-2FA-SAVE-DEVICE` added one after the other. */
  method AddDeviceHeaders(h: map<string, Value>, deviceId: Option<string>, deviceName: Option<string>)
    returns (headers: map<string, Value>)
    ensures headers == h + DeviceHeaders(deviceId, deviceName)
  {
    headers := h;
    if deviceId.Some? {
      UpdateIsUnion(headers, "X-2FA-DEVICE-ID", Str(deviceId.value));
      headers := headers["X-2FA-DEVICE-ID" := Str(deviceId.value)];
    }
    if deviceName.Some? {
      UpdateIsUnion(headers, "X-2FA-SAVE-DEVICE", Str(deviceName.value));
      headers := headers["X-2FA-SAVE-DEVICE" := Str(deviceName.value)];
    }
  }

  /** The impersonation header, by ID for type 'id' and by email address otherwise. */
  method AddImpersonationHeaders(h: map<string, Value>, target: Option<string>, kind: Option<string>)
    returns (headers: map<string, Value>)
    ensures headers == h + ImpersonationHeaders(target, kind)
  {
    headers := h;
    if target.Some? {
      if kind == Some("id") {
        headers := headers["X-IMPERSONATE-ID" := Str(target.value)];
      } else {
        headers := headers["X-IMPERSONATE" := Str(target.value)];
      }
    }
  }

  class MyDnsHostApi {
    const baseUrl: string
    const version: string
    var auth: Value
    var impersonate: Option<string>
    var impersonateType: Option<string>
    var domainAdmin: bool
    var debug: bool
    var lastResponse: Value
    var deviceId: Option<string>
    var deviceName: Option<string>
    const lib: Library
    const net: Network

    constructor (baseUrl: string, lib: Library, net: Network)
      ensures this.baseUrl == baseUrl && version == "1.0"
      ensures auth == False && impersonate.None? && impersonateType.None?
      ensures !domainAdmin && !debug && lastResponse == Null
      ensures deviceId.None? && deviceName.None?
      ensures this.lib == lib && this.net == net
    {
      this.baseUrl := baseUrl;
      version := "1.0";
      auth := False;
      impersonate := None;
      impersonateType := None;
      domainAdmin := false;
      debug := false;
      lastResponse := Null;
      deviceId := None;
      deviceName := None;
      this.lib := lib;
      this.net := net;
    }

    method SetDebug(value: bool)
      modifies this`debug
      ensures debug == value
    {
      debug := value;
    }

    method IsDebug() returns (r: bool)
      ensures r == debug
    {
      r := debug;
    }

    method SetAuthUserPass(user: string, pass: string, key: Option<string>)
      modifies this`auth
      ensures auth == Descriptor(UserPass(user, pass, key))
    {
      auth := Descriptor(UserPass(user, pass, key));
    }

    method SetAuthUserKey(user: string, key: string)
      modifies this`auth
      ensures auth == Descriptor(UserKey(user, key))
    {
      auth := Descriptor(UserKey(user, key));
    }

    method SetAuthDomainKey(domain: string, key: string)
      modifies this`auth
      ensures auth == Descriptor(DomainKey(domain, key))
    {
      auth := Descriptor(DomainKey(domain, key));
    }

    method SetAuthSession(sessionId: string)
      modifies this`auth
      ensures auth == Descriptor(Session(sessionId))
    {
      auth := Descriptor(Session(sessionId));
    }

    method SetAuthJwt(token: string)
      modifies this`auth
      ensures auth == Descriptor(Jwt(token))
    {
      auth := Descriptor(Jwt(token));
    }

    /** A custom descriptor, stored as given. */
    method SetAuth(value: Value)
      modifies this`auth
      ensures auth == value
    {
      auth := value;
    }

    method SetDeviceId(id: Option<string>)
      modifies this`deviceId
      ensures deviceId == id
    {
      deviceId := id;
    }

    method SetDeviceName(name: Option<string>)
      modifies this`deviceName
      ensures deviceName == name
    {
      deviceName := name;
    }

    /** Impersonate a user by email address or, with type 'id', by ID; FALSE (None) stops impersonating. */
    method Impersonate(user: Option<string>, kind: string)
      modifies this`impersonate, this`impersonateType
      ensures impersonate == user && impersonateType == Some(kind)
    {
      impersonate := user;
      impersonateType := Some(kind);
    }

    method DomainAdmin(value: bool)
      modifies this`domainAdmin
      ensures domainAdmin == value
    {
      domainAdmin := value;
    }

    method GetLastResponse() returns (r: Value)
      ensures r == lastResponse
    {
      r := lastResponse;
    }

    /** The headers and basic-auth pair of a request made with the given auth descriptor. */
    method BuildHeaders(authValue: Value) returns (headers: map<string, Value>, basic: Option<(Value, Value)>)
      ensures headers == RequestHeaders(authValue, deviceId, deviceName, impersonate, impersonateType)
      ensures basic == BasicAuth(authValue)
    {
      headers, basic := SelectAuthHeaders(authValue);
      headers := AddDeviceHeaders(headers, deviceId, deviceName);
      headers := AddImpersonationHeaders(headers, impersonate, impersonateType);
    }

    /** The request plan of an `api` call in the current settings. */
    function PlanFor(apiMethod: string, verb: string, data: Value, authOverride: Value): Plan
      reads this`auth, this`deviceId, this`deviceName, this`impersonate, this`impersonateType
    {
      var a := EffectiveAuth(authOverride, auth);
      PlanOf(lib, JoinUrl(baseUrl, version, apiMethod),
             RequestHeaders(a, deviceId, deviceName, impersonate, impersonateType), BasicAuth(a), verb, data)
    }

    /**
     * `api`: one request according to the plan (none for an unknown verb,
     * none when count() raises), the envelope made of its reply, and
     * `lastResponse` set to what is returned.
     */
    method Api(apiMethod: string, verb: string, data: Value, authOverride: Value) returns (o: Outcome<Value>)
      modifies this`lastResponse, net
      ensures var p := old(PlanFor(apiMethod, verb, data, authOverride));
              && net.sent == SentAfter(p, old(net.sent))
              && o == ApiResult(lib, debug, net.reply, verb, p, |old(net.sent)|)
              && lastResponse == (if o.Returned? then o.value else old(lastResponse))
    {
      var a := EffectiveAuth(authOverride, auth);
      var headers, basic := BuildHeaders(a);
      var url := JoinUrl(baseUrl, version, apiMethod);
      var p := PlanRequest(lib, url, headers, basic, verb, data);
      assert p == PlanFor(apiMethod, verb, data, authOverride);
      o := Perform(p, verb);
    }

    /** Send the planned request, if any, and make the envelope of its reply the last response. */
    method Perform(p: Plan, verb: string) returns (o: Outcome<Value>)
      modifies this`lastResponse, net
      ensures net.sent == SentAfter(p, old(net.sent))
      ensures o == ApiResult(lib, debug, net.reply, verb, p, |old(net.sent)|)
      ensures lastResponse == (if o.Returned? then o.value else old(lastResponse))
    {
      match p {
        case CountError =>
          o := Raised;
        case NoRequest =>
          o := Respond(lib, debug, verb == "POST", None);
        case Send(request) =>
          var r := net.Send(request);
          o := Respond(lib, debug, verb == "POST", Some(r));
      }
      if o.Returned? {
        lastResponse := o.value;
      }
    }

    /** A wrapper method: its guard, then its `api` call, then its unwrap rule. */
    method Invoke(op: Operation) returns (o: Outcome<Value>)
      modifies this`lastResponse, net
      ensures var refused := Refusal(GuardOf(op), auth);
              refused.Some? ==> o == Returned(refused.value) && net.sent == old(net.sent) && lastResponse == old(lastResponse)
      ensures var refused := old(Refusal(GuardOf(op), auth));
              var c := old(Route(op, domainAdmin, lib.buildQuery));
              var p := old(PlanFor(c.path, c.verb, c.data, Null));
              var result := ApiResult(lib, debug, net.reply, c.verb, p, |old(net.sent)|);
              refused.None? ==>
                && net.sent == SentAfter(p, old(net.sent))
                && o == Unwrapped(UnwrapOf(op), result)
                && lastResponse == (if result.Returned? then result.value else old(lastResponse))
    {
      var refused := Refusal(GuardOf(op), auth);
      if refused.Some? {
        return Returned(refused.value);
      }
      var c := Route(op, domainAdmin, lib.buildQuery);
      ghost var p := PlanFor(c.path, c.verb, c.data, Null);
      var result := Api(c.path, c.verb, c.data, Null);
      assert result == ApiResult(lib, debug, net.reply, c.verb, p, |old(net.sent)|);
      o := Unwrapped(UnwrapOf(op), result);
    }

    /**
     * validAuth: FALSE without asking the server when no auth is set;
     * otherwise TRUE exactly when getUserData's envelope has a response.
     */
    method ValidAuth() returns (o: Outcome<bool>)
      modifies this`lastResponse, net
      ensures auth == False ==> o == Returned(false) && net.sent == old(net.sent) && lastResponse == old(lastResponse)
      ensures var p := old(PlanFor("/userdata", "GET", EmptyArray, Null));
              var result := ApiResult(lib, debug, net.reply, "GET", p, |old(net.sent)|);
              auth != False ==>
                && net.sent == SentAfter(p, old(net.sent))
                && (o.Raised? <==> result.Raised?)
                && (o == Returned(true) <==> result.Returned? && Isset(result.value, "response"))
                && lastResponse == (if result.Returned? then result.value else old(lastResponse))
    {
      if auth == False {
        return Returned(false);
      }
      assert GuardOf(Users(GetUserData)) == NeedsAuth(Null);
      assert Route(Users(GetUserData), domainAdmin, lib.buildQuery) == Call("GET", "/userdata", EmptyArray);
      var user := Invoke(Users(GetUserData));
      ghost var result := ApiResult(lib, debug, net.reply, "GET", old(PlanFor("/userdata", "GET", EmptyArray, Null)), |old(net.sent)|);
      assert user == Unwrapped(Field(["response"], Null), result);
      if result.Returned? {
        ResponseOrNull(result.value);
      }
      o := if user.Returned? then Returned(user.value != Null) else Raised;
    }

    /** doAuth2FAPush: a GET of `/session` with a one-shot push descriptor; the stored auth is untouched. */
    method DoAuth2FAPush(user: string, pass: string) returns (o: Outcome<Value>)
      modifies this`lastResponse, net
      ensures auth == old(auth)
      ensures var p := old(PlanFor("/session", "GET", EmptyArray, Descriptor(UserPassPush(user, pass))));
              && net.sent == SentAfter(p, old(net.sent))
              && o == ApiResult(lib, debug, net.reply, "GET", p, |old(net.sent)|)
              && lastResponse == (if o.Returned? then o.value else old(lastResponse))
    {
      o := Api("/session", "GET", EmptyArray, Descriptor(UserPassPush(user, pass)));
    }
  }
}
