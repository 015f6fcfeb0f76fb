/**
 * The response envelope `api` returns, and the rules the wrappers use to
 * unwrap it. Whatever the server answers, `api` returns an array: the decoded
 * body when that is not loosely NULL, otherwise the unknown-error envelope;
 * in debug mode a `__DEBUG` entry is added.
 */
module Envelope {
  import opened Php
  import opened Transport

  const UnknownError: string := "There was an unknown error."

  /** `['error' => 'There was an unknown error.']`, what every failure turns into. */
  const ErrorEnvelope: Value := Arr(map["error" := Str(UnknownError)])

  /** The decoded body: NULL when no reply arrived (nothing sent, or the transport threw). */
  function Decoded(lib: Library, reply: Option<Reply>): Value {
    match reply
    case Some(Received(body)) => lib.jsonDecode(body)
    case _ => Null
  }

  /** `if ($data == NULL)` replaces anything loosely NULL by the error envelope. */
  function Normalize(decoded: Value): (r: Value)
    ensures !LooseNull(r)
    ensures LooseNull(decoded) ==> r == ErrorEnvelope
    ensures !LooseNull(decoded) ==> r == decoded
  {
    assert "error" in ErrorEnvelope.entries;
    if LooseNull(decoded) then ErrorEnvelope else decoded
  }

  /** `$response->body` as the debug block sees it: NULL when there was no response. */
  function ResponseBody(reply: Option<Reply>): Value {
    match reply
    case Some(Received(body)) => Str(body)
    case _ => Null
  }

  /**
   * The debug block. For a POST its `request` entry is the JSON of
   * `['data' => $data]` taken after `$data` was overwritten by the envelope,
   * so it shows the response, not the request body that was sent. Its
   * `response` entry is NULL exactly when no reply arrived.
   */
  function DebugBlock(lib: Library, isPost: bool, envelope: Value, reply: Option<Reply>): (r: Value)
    ensures r.Arr? && r.entries.Keys == {"request", "response"}
    ensures !isPost ==> r.entries["request"] == Str("")
    ensures r.entries["response"] == Null <==> !(reply.Some? && reply.value.Received?)
    ensures reply.Some? && reply.value.Received? ==> r.entries["response"] == Str(reply.value.body)
    ensures isPost ==> r.entries["request"] == Str(lib.jsonEncode(Arr(map["data" := envelope])))
  {
    Arr(map["request" := if isPost then Str(lib.jsonEncode(Arr(map["data" := envelope]))) else Str(""),
            "response" := ResponseBody(reply)])
  }

  /**
   * What `api` makes of a reply. With debug off it is the normalised
   * envelope. With debug on an array envelope gains `__DEBUG` and keeps
   * every other entry; any other envelope (a JSON scalar) cannot take an
   * offset and the assignment raises an Error.
   */
  function Respond(lib: Library, debug: bool, isPost: bool, reply: Option<Reply>): (o: Outcome<Value>)
    ensures o.Returned? ==> o.value.Arr? || !debug
    ensures o.Returned? ==> !LooseNull(o.value)
    ensures !debug ==> o == Returned(Normalize(Decoded(lib, reply)))
    ensures debug ==> (o.Raised? <==> !Normalize(Decoded(lib, reply)).Arr?)
    ensures debug && o.Returned? ==>
              var env := Normalize(Decoded(lib, reply)).entries;
              && o.value.entries.Keys == env.Keys + {"__DEBUG"}
              && o.value.entries["__DEBUG"] == DebugBlock(lib, isPost, Arr(env), reply)
              && (forall k :: k in env && k != "__DEBUG" ==> o.value.entries[k] == env[k])
  {
    var envelope := Normalize(Decoded(lib, reply));
    if !debug then Returned(envelope)
    else if envelope.Arr? then Returned(Arr(envelope.entries["__DEBUG" := DebugBlock(lib, isPost, envelope, reply)]))
    else Raised
  }

  /**
   * A request that got no reply (nothing sent, or the transport threw)
   * yields exactly the error envelope, with a debug block whose response is
   * NULL when debugging.
   */
  lemma NoReplyIsUnknownError(lib: Library, debug: bool, isPost: bool, reply: Option<Reply>)
    requires reply == None || reply == Some(Thrown)
    ensures Respond(lib, debug, isPost, reply) ==
              if debug then Returned(Arr(map["error" := Str(UnknownError),
                                            "__DEBUG" := DebugBlock(lib, isPost, ErrorEnvelope, None)]))
              else Returned(ErrorEnvelope)
  {
    assert ResponseBody(reply) == ResponseBody(None);
  }

  /**
   * A body that decodes to something loosely NULL — `null`, `false`, `0`,
   * `""` or even an empty array `[]` — is indistinguishable from a failure.
   */
  lemma EmptyDecodeIsUnknownError(lib: Library, debug: bool, isPost: bool, body: string)
    requires LooseNull(lib.jsonDecode(body))
    ensures !debug ==> Respond(lib, debug, isPost, Some(Received(body))) == Respond(lib, debug, isPost, Some(Thrown))
    ensures debug ==> Respond(lib, debug, isPost, Some(Received(body))).value.entries["error"] == Str(UnknownError)
  {
  }

  /** Without debug any other decoded body is returned as it is. */
  lemma DecodedPassesThrough(lib: Library, isPost: bool, body: string)
    requires !LooseNull(lib.jsonDecode(body))
    ensures Respond(lib, false, isPost, Some(Received(body))) == Returned(lib.jsonDecode(body))
  {
  }

  /** `isset($v['a']['b']…)`: the value at a path of keys, when every step exists and is not NULL. */
  function Dig(v: Value, path: seq<string>): (r: Option<Value>)
    ensures r.Some? ==> r.value != Null
    ensures path == [] ==> (r.Some? <==> v != Null)
    ensures |path| > 0 && !Isset(v, path[0]) ==> r.None?
    decreases |path|
  {
    if path == [] then (if v == Null then None else Some(v))
    else if Isset(v, path[0]) then Dig(Index(v, path[0]), path[1..])
    else None
  }

  /** `$v['a']['b']…` on a read: each step indexes the previous value, NULL once a key is missing. */
  function Lookup(v: Value, path: seq<string>): Value
    decreases |path|
  {
    if path == [] then v else Lookup(Index(v, path[0]), path[1..])
  }

  /** Reading past NULL stays NULL. */
  lemma {:induction false} LookupNull(path: seq<string>)
    ensures Lookup(Null, path) == Null
    decreases |path|
  {
    if path != [] {
      LookupNull(path[1..]);
    }
  }

  /**
   * The nested isset finds a value exactly when the nested read gives one
   * that is not NULL, and then it is that value: whatever else the envelope
   * holds, a set path is found and an unset step at any depth is not.
   */
  lemma {:induction false} DigIsLookup(v: Value, path: seq<string>)
    ensures Dig(v, path) == if Lookup(v, path) != Null then Some(Lookup(v, path)) else None
    decreases |path|
  {
    if path != [] {
      if Isset(v, path[0]) {
        DigIsLookup(Index(v, path[0]), path[1..]);
      } else {
        LookupNull(path[1..]);
      }
    }
  }

  /** How a wrapper turns the envelope into its result. */
  datatype Unwrap =
    | Whole                                        // return $result
    | Field(path: seq<string>, otherwise: Value)   // isset($result[…]…) ? $result[…]… : otherwise
    | KeyList                                      // response, else NULL on error, else []
    | Unchecked                                    // return $result['response'] (NULL when missing)

  function ApplyUnwrap(u: Unwrap, envelope: Value): Value {
    match u
    case Whole => envelope
    case Field(path, otherwise) => if Dig(envelope, path).Some? then Dig(envelope, path).value else otherwise
    case KeyList =>
      if Isset(envelope, "response") then Index(envelope, "response")
      else if Isset(envelope, "error") then Null
      else EmptyArray
    case Unchecked => Index(envelope, "response")
  }

  /**
   * A field unwrap yields the value at its path when that is set and its
   * default otherwise; so it yields NULL only when the path is unset and
   * NULL is the default.
   */
  lemma FieldRule(path: seq<string>, otherwise: Value, envelope: Value)
    ensures Dig(envelope, path).Some? ==> ApplyUnwrap(Field(path, otherwise), envelope) == Dig(envelope, path).value
    ensures Dig(envelope, path).None? ==> ApplyUnwrap(Field(path, otherwise), envelope) == otherwise
    ensures ApplyUnwrap(Field(path, otherwise), envelope) == Null ==> otherwise == Null && Dig(envelope, path).None?
  {
  }

  /** `isset($result['response']) ? $result['response'] : NULL` is NULL exactly when the response is unset. */
  lemma ResponseOrNull(envelope: Value)
    ensures ApplyUnwrap(Field(["response"], Null), envelope) != Null <==> Isset(envelope, "response")
  {
    assert ["response"][1..] == [];
  }

  /**
   * What a caller can tell from a key list: NULL means exactly that the
   * server reported an error and no response; `[]` means an empty response
   * or an envelope with neither entry; anything else is the response.
   */
  lemma KeyListRule(envelope: Value)
    ensures ApplyUnwrap(KeyList, envelope) == Null <==> !Isset(envelope, "response") && Isset(envelope, "error")
    ensures ApplyUnwrap(KeyList, envelope) == EmptyArray <==>
              Index(envelope, "response") == EmptyArray || (!Isset(envelope, "response") && !Isset(envelope, "error"))
    ensures ApplyUnwrap(KeyList, envelope) != Null && ApplyUnwrap(KeyList, envelope) != EmptyArray ==>
              ApplyUnwrap(KeyList, envelope) == Lookup(envelope, ["response"])
  {
    assert ["response"][1..] == [];
  }

  /**
   * On the unknown-error envelope every response-path unwrap falls back:
   * a field unwrap under `response` to its default, the key list to NULL,
   * the unchecked read to NULL; only the whole envelope shows the error.
   */
  lemma UnwrapOfFailure(u: Unwrap)
    requires u.Field? ==> |u.path| > 0 && u.path[0] == "response"
    ensures u.Field? ==> ApplyUnwrap(u, ErrorEnvelope) == u.otherwise
    ensures u.KeyList? || u.Unchecked? ==> ApplyUnwrap(u, ErrorEnvelope) == Null
    ensures u.Whole? ==> ApplyUnwrap(u, ErrorEnvelope) == ErrorEnvelope
  {
    assert !Isset(ErrorEnvelope, "response");
  }
}
