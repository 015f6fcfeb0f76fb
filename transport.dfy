/**
 * What the client hands to its HTTP transport, and the library calls it
 * relies on. The PHP runtime's parse_url, parse_str, http_build_query,
 * json_encode and json_decode are parameters of the model; the transport is
 * a log of the requests sent and a function giving each request its reply.
 */
module Transport {
  import opened Php
  import opened Url

  /** The PHP library calls the client makes, as functions of their inputs. */
  datatype Library = Library(
    parseUrl: string -> Option<UrlParts>,           // parse_url: None when it returns FALSE
    parseQuery: string -> map<string, Value>,       // parse_str
    buildQuery: map<string, Value> -> string,       // http_build_query
    jsonEncode: Value -> string,                    // json_encode
    jsonDecode: string -> Value)                    // json_decode(…, TRUE), NULL when the text is not JSON

  /** One HTTP request: verb, URL, headers, basic-auth pair (RFC 7617) and, for POST, the body. */
  datatype Request = Request(
    verb: string,
    url: string,
    headers: map<string, Value>,
    basicAuth: Option<(Value, Value)>,
    body: Option<string>)

  /** A reply body, or a transport failure (a Requests_Exception). */
  datatype Reply = Received(body: string) | Thrown

  /** What `api` does with the transport for a given verb and data. */
  datatype Plan =
    | Send(request: Request)   // GET, POST or DELETE
    | NoRequest                // any other verb: nothing is sent
    | CountError               // GET with data that is not an array: count() throws a TypeError

  /** The HTTP methods `api` knows. */
  predicate KnownVerb(verb: string) {
    verb == "GET" || verb == "POST" || verb == "DELETE"
  }

  /** The parts parse_url yields; when it fails, assigning the query creates an array holding only that. */
  function PartsOf(lib: Library, url: string): UrlParts {
    match lib.parseUrl(url)
    case Some(p) => p
    case None => UrlParts(None, None, None, None, None, None, None, None)
  }

  /** array_merge of two string-keyed arrays: every key of both, the later array winning. */
  function Merge(first: map<string, Value>, second: map<string, Value>): (r: map<string, Value>)
    ensures r.Keys == first.Keys + second.Keys
    ensures forall k :: k in second ==> r[k] == second[k]
    ensures forall k :: k in first && k !in second ==> r[k] == first[k]
  {
    first + second
  }

  /** The query of a GET URL once the data is merged into the query the URL already has. */
  function MergedQuery(lib: Library, existing: Option<string>, data: map<string, Value>): string {
    if existing.Some? then lib.buildQuery(Merge(lib.parseQuery(existing.value), data))
    else lib.buildQuery(data)
  }

  /** The URL a GET is sent to: unchanged for empty data, otherwise rebuilt with the merged query. */
  function GetUrl(lib: Library, url: string, data: map<string, Value>): (r: string)
    ensures |data| == 0 ==> r == url
  {
    if |data| == 0 then url
    else
      var parts := PartsOf(lib, url);
      UnparseUrl(parts.(query := Some(MergedQuery(lib, parts.query, data))))
  }

  /**
   * When parse_url splits the URL the way unparse_url rebuilds it, the GET
   * URL differs from the joined URL in its query alone: scheme, credentials,
   * host, port, path and fragment come back unchanged.
   */
  lemma GetUrlChangesOnlyQuery(lib: Library, url: string, data: map<string, Value>, p: UrlParts)
    requires |data| > 0
    requires lib.parseUrl(url) == Some(p) && WellFormed(p)
    requires '#' !in MergedQuery(lib, p.query, data)
    ensures ParseUrl(GetUrl(lib, url, data)) == p.(query := Some(MergedQuery(lib, p.query, data)))
  {
    ReplaceQueryKeepsComponents(p, MergedQuery(lib, p.query, data));
  }

  /** The request `api` makes, if any, for a joined URL, the headers and auth pair, a verb and the data. */
  function PlanOf(lib: Library, url: string, headers: map<string, Value>, basic: Option<(Value, Value)>,
                  verb: string, data: Value): (p: Plan)
    ensures p.NoRequest? <==> !KnownVerb(verb)
    ensures p.CountError? <==> verb == "GET" && !data.Arr?
    ensures p.Send? ==> p.request.verb == verb && p.request.headers == headers && p.request.basicAuth == basic
    ensures p.Send? ==> (p.request.body.Some? <==> verb == "POST")
    ensures p.Send? && verb == "POST" ==> p.request.url == url && p.request.body == Some(lib.jsonEncode(Arr(map["data" := data])))
    ensures p.Send? && verb == "DELETE" ==> p.request.url == url
    ensures p.Send? && verb == "GET" ==> p.request.url == GetUrl(lib, url, data.entries)
  {
    if verb == "GET" then
      if data.Arr? then Send(Request(verb, GetUrl(lib, url, data.entries), headers, basic, None)) else CountError
    else if verb == "POST" then Send(Request(verb, url, headers, basic, Some(lib.jsonEncode(Arr(map["data" := data])))))
    else if verb == "DELETE" then Send(Request(verb, url, headers, basic, None))
    else NoRequest
  }

  /** The HTTP transport: the requests sent so far, and the reply the n-th request gets. */
  class Network {
    var sent: seq<Request>
    const reply: (nat, Request) -> Reply

    constructor (reply: (nat, Request) -> Reply)
      ensures sent == [] && this.reply == reply
    {
      sent := [];
      this.reply := reply;
    }

    method Send(request: Request) returns (r: Reply)
      modifies this
      ensures sent == old(sent) + [request]
      ensures r == reply(|old(sent)|, request)
    {
      r := reply(|sent|, request);
      sent := sent + [request];
    }
  }
}
