/**
 * The blocking HTTP client of consul/std.py: the base URI fixed at
 * construction, URI assembly, wrapping a transport reply into a Response,
 * and `get`/`put`, which hand that Response to a formatter callback.
 *
 * `urllib.urlencode` and the `requests` transport are library calls; they
 * are parameters here (`urlencode`, `transport`).
 */
module Std {
  import opened Wrappers
  import opened Errors
  import opened Text
  import opened JsonValue
  import opened Http
  import Callback

  /** Query parameters, in order; the source's `params=None` is None. */
  type Params = seq<(string, string)>

  /**
   * The fields `HTTPClient.__init__` sets once and never updates. Clients are
   * built only by NewHttpClient, whose ensures ties `baseUri` to `host` and
   * `port`; no lemma here needs that link, so the type does not carry it.
   */
  datatype HttpClient = HttpClient(host: string, port: int, baseUri: string)

  const DefaultHost := "127.0.0.1"
  const DefaultPort := 8500

  function BaseUri(host: string, port: int): string {
    "http://" + host + ":" + IntToString(port)
  }

  /** The index of the last occurrence of `c` in `s`. */
  function LastIndexOf(s: string, c: char): (r: Option<nat>)
    ensures r.None? ==> forall j :: 0 <= j < |s| ==> s[j] != c
    ensures r.Some? ==> r.value < |s| && s[r.value] == c && forall j :: r.value < j < |s| ==> s[j] != c
    decreases |s|
  {
    if s == [] then None
    else if s[|s| - 1] == c then Some(|s| - 1)
    else LastIndexOf(s[..|s| - 1], c)
  }

  /** Reads host and port back from a base URI: the host is everything between "http://" and the last ':'. */
  function ParseBaseUri(uri: string): Option<(string, int)> {
    if |uri| < 7 || uri[..7] != "http://" then None
    else
      var rest := uri[7..];
      match LastIndexOf(rest, ':')
      case None => None
      case Some(k) =>
        match ParseInt(rest[k + 1..])
        case None => None
        case Some(port) => Some((rest[..k], port))
  }

  /** The base URI determines the host and the port it was built from, whatever the host contains. */
  lemma BaseUriRoundTrip(host: string, port: int)
    ensures ParseBaseUri(BaseUri(host, port)) == Some((host, port))
  {
    var digits := IntToString(port);
    var uri := BaseUri(host, port);
    var rest := host + ":" + digits;
    assert uri == "http://" + rest;
    assert uri[..7] == "http://" && uri[7..] == rest;
    assert rest[|host|] == ':';
    forall j | |host| < j < |rest|
      ensures rest[j] != ':'
    {
      assert rest[j] == digits[j - |host| - 1];
    }
    var k := LastIndexOf(rest, ':').value;
    assert k == |host|;
    assert rest[..k] == host && rest[k + 1..] == digits;
    IntToStringRoundTrip(port);
  }

  /** `HTTPClient(host, port)`. */
  function NewHttpClient(host: string, port: int): (client: HttpClient)
    ensures client.host == host && client.port == port
    ensures client.baseUri == "http://" + host + ":" + IntToString(port)
    ensures ParseBaseUri(client.baseUri) == Some((host, port))
  {
    BaseUriRoundTrip(host, port);
    HttpClient(host, port, BaseUri(host, port))
  }

  /** `HTTPClient()` with the default host and port. */
  function DefaultHttpClient(): (client: HttpClient)
    ensures client.host == DefaultHost && client.port == DefaultPort
    ensures client.baseUri == "http://127.0.0.1:8500"
  {
    assert NatToString(8) == "8";
    assert NatToString(85) == NatToString(8) + "5";
    assert NatToString(850) == NatToString(85) + "0";
    assert NatToString(8500) == NatToString(850) + "0";
    assert IntToString(8500) == "8500";
    assert BaseUri(DefaultHost, DefaultPort) == "http://127.0.0.1:8500";
    NewHttpClient(DefaultHost, DefaultPort)
  }

  /** `HTTPClient.uri(path, params)`: base URI and path, then `?` and the encoded parameters when there are any. */
  function Uri(client: HttpClient, path: string, params: Option<Params>, urlencode: Params -> string): (uri: string)
    ensures |client.baseUri + path| <= |uri| && uri[..|client.baseUri + path|] == client.baseUri + path
    ensures (params.None? || params.value == []) <==> uri == client.baseUri + path
    ensures params.Some? && params.value != [] ==>
              uri[|client.baseUri + path|] == '?' && uri[|client.baseUri + path| + 1..] == urlencode(params.value)
  {
    var uri := client.baseUri + path;
    if params.None? || params.value == [] then uri else uri + "?" + urlencode(params.value)
  }

  /** What the `requests` transport returns: `status_code`, `headers`, `text`. */
  datatype Reply = Reply(statusCode: int, headers: Headers, text: string)

  datatype Verb = GET | PUT

  /** One request handed to the transport; `data` is the body `put` sends. */
  datatype Request = Request(verb: Verb, uri: string, data: Option<string>)

  /** `HTTPClient.response(r)`. */
  function ToResponse(reply: Reply): Response {
    Response(reply.statusCode, reply.headers, reply.text)
  }

  /** The wrapping copies code, headers and text unchanged, so it loses nothing: distinct replies give distinct responses. */
  lemma ToResponseCopiesFields(reply: Reply, other: Reply)
    ensures ToResponse(reply).code == reply.statusCode
    ensures ToResponse(reply).headers == reply.headers && ToResponse(reply).body == reply.text
    ensures ToResponse(reply) == ToResponse(other) <==> reply == other
  {
  }

  /** `HTTPClient.get`: one GET of `uri(path, params)`, its reply wrapped and given to the callback. */
  function Get<T>(client: HttpClient, callback: Response -> Outcome<T>, path: string, params: Option<Params>,
                  urlencode: Params -> string, transport: Request -> Reply): Outcome<T>
  {
    var reply := transport(Request(GET, Uri(client, path, params, urlencode), None));
    callback(ToResponse(reply))
  }

  /** `HTTPClient.put`: one PUT of `uri(path, params)` carrying `data`, its reply wrapped and given to the callback. */
  function Put<T>(client: HttpClient, callback: Response -> Outcome<T>, path: string, params: Option<Params>,
                  data: string, urlencode: Params -> string, transport: Request -> Reply): Outcome<T>
  {
    var reply := transport(Request(PUT, Uri(client, path, params, urlencode), Some(data)));
    callback(ToResponse(reply))
  }

  /**
   * `get` sends one request, a GET without body to `uri(path, params)`: two
   * transports that answer that request alike give the same result, whatever
   * they answer to any other request, and the callback sees the reply unchanged.
   */
  lemma GetUsesOnlyItsRequest<T>(client: HttpClient, callback: Response -> Outcome<T>, path: string,
                                 params: Option<Params>, urlencode: Params -> string,
                                 transport: Request -> Reply, other: Request -> Reply)
    requires transport(Request(GET, Uri(client, path, params, urlencode), None))
             == other(Request(GET, Uri(client, path, params, urlencode), None))
    ensures Get(client, callback, path, params, urlencode, transport)
            == Get(client, callback, path, params, urlencode, other)
    ensures var reply := transport(Request(GET, Uri(client, path, params, urlencode), None));
            Get(client, callback, path, params, urlencode, transport) == callback(Response(reply.statusCode, reply.headers, reply.text))
  {
  }

  /**
   * `put` sends one request, a PUT of `data` to `uri(path, params)`: two
   * transports that answer that request alike give the same result, whatever
   * they answer to any other request, and the callback sees the reply unchanged.
   */
  lemma PutUsesOnlyItsRequest<T>(client: HttpClient, callback: Response -> Outcome<T>, path: string,
                                 params: Option<Params>, data: string, urlencode: Params -> string,
                                 transport: Request -> Reply, other: Request -> Reply)
    requires transport(Request(PUT, Uri(client, path, params, urlencode), Some(data)))
             == other(Request(PUT, Uri(client, path, params, urlencode), Some(data)))
    ensures Put(client, callback, path, params, data, urlencode, transport)
            == Put(client, callback, path, params, data, urlencode, other)
    ensures var reply := transport(Request(PUT, Uri(client, path, params, urlencode), Some(data)));
            Put(client, callback, path, params, data, urlencode, transport) == callback(Response(reply.statusCode, reply.headers, reply.text))
  {
  }

  /** A `get` formatted with any `CB.json(...)` raises the status error of the reply whenever there is one. */
  lemma GetJsonRaisesStatusError(client: HttpClient, lib: Callback.Codecs, opts: Callback.JsonOptions, path: string,
                                 params: Option<Params>, urlencode: Params -> string, transport: Request -> Reply)
    ensures var reply := transport(Request(GET, Uri(client, path, params, urlencode), None));
            var status := Callback.Status(ToResponse(reply), opts.allow404);
            status.Some? ==>
              Get(client, response => Callback.JsonFormat(lib, opts, response), path, params, urlencode, transport)
              == Raise(status.value)
  {
    var reply := transport(Request(GET, Uri(client, path, params, urlencode), None));
    if Callback.Status(ToResponse(reply), opts.allow404).Some? {
      Callback.StatusCheckedFirst(lib, opts, ToResponse(reply));
    }
  }

  // ---------------------------------------------------------------------
  // `uri` as written calls `urllib.urlencode`, which Python 3 does not have

  /**
   * `HTTPClient.uri` exactly as written: on Python 3 the module `urllib` has
   * no attribute `urlencode`, so any non-empty parameters raise AttributeError.
   */
  function UriAsWritten(client: HttpClient, path: string, params: Option<Params>): Outcome<string> {
    var uri := client.baseUri + path;
    if params.None? || params.value == [] then Ok(uri) else Raise(AttributeError)
  }

  /**
   * Any non-empty parameters (a `kv.get(..., recurse=True)`-style call, say):
   * as written `uri` raises, while the intended `uri` appends the query.
   */
  lemma UriAsWrittenRaisesWithParams(client: HttpClient, path: string, params: Option<Params>, urlencode: Params -> string)
    ensures params.Some? && params.value != [] <==> UriAsWritten(client, path, params) == Raise(AttributeError)
    ensures params.Some? && params.value != [] ==>
              Uri(client, path, params, urlencode) == client.baseUri + path + "?" + urlencode(params.value)
  {
  }

  /** Without parameters the code as written and the intended `uri` agree. */
  lemma UriAsWrittenAgreesWithoutParams(client: HttpClient, path: string, params: Option<Params>, urlencode: Params -> string)
    requires params.None? || params.value == []
    ensures UriAsWritten(client, path, params) == Ok(Uri(client, path, params, urlencode))
  {
  }

  /** A `put` formatted with `CB.bool()` is true exactly when the server answered 200, and raises exactly the status errors. */
  lemma PutBoolIsTrueIff200(client: HttpClient, path: string, params: Option<Params>, data: string,
                            urlencode: Params -> string, transport: Request -> Reply)
    ensures var reply := transport(Request(PUT, Uri(client, path, params, urlencode), Some(data)));
            var r := Put(client, Callback.Bool, path, params, data, urlencode, transport);
            (r == Ok(true) <==> reply.statusCode == 200) &&
            (r.Raise? <==> 400 <= reply.statusCode < 600 && reply.statusCode != 404)
  {
  }

  /** A `get` formatted with `CB.json(...)` that allows 404 answers a 404 with None, whatever the body. */
  lemma GetJsonMissingKeyIsNone(client: HttpClient, lib: Callback.Codecs, opts: Callback.JsonOptions, path: string,
                                params: Option<Params>, urlencode: Params -> string, transport: Request -> Reply)
    requires opts.allow404 && !opts.index
    requires transport(Request(GET, Uri(client, path, params, urlencode), None)).statusCode == 404
    ensures Get(client, response => Callback.JsonFormat(lib, opts, response), path, params, urlencode, transport)
              == Ok(Callback.Bare(JNull))
  {
  }
}
