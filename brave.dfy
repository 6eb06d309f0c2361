/**
 * The request/response gateway of the Brave Search client (`Client`):
 * host normalisation at construction, request building, and the
 * classification of the transport's reply into a value or a typed error.
 *
 * Foundation and the transport are not modelled; what the gateway learns from
 * them enters as parameters:
 *  - `Renderer`: a parameter value's `description` and the JSON encoder;
 *  - `urlOk`: whether Foundation could assemble the request URL;
 *  - `transport`: what the network exchange returns for a request;
 *  - `Decoders`: the JSON decoder, the `{"error": String}` decoder and UTF-8
 *    decoding, each applied to the response body.
 */
module Brave {
  import opened Wrappers
  import opened Decimal
  import Schema

  type Bytes = seq<bv8>

  // ---------------------------------------------------------------------------
  // URLs and parameter values
  // ---------------------------------------------------------------------------

  /** A URL as its scheme-and-authority part and its path. */
  datatype Url = Url(origin: string, path: string) {
    /** The URL's absolute string, as it is printed in error details. */
    function Text(): string {
      origin + path
    }
  }

  predicate EndsWithSeparator(path: string) {
    |path| > 0 && path[|path| - 1] == '/'
  }

  /** `Client.defaultHost`, before normalisation. */
  const DefaultHost := Url("https://api.search.brave.com", "/res/v1")

  /** `host.appending(path:)`: the relative path is joined after the host's path. */
  function Join(host: Url, path: string): Url {
    Url(host.origin, host.path + path)
  }

  /**
   * Joining a relative path onto a host whose path ends in a separator puts
   * the relative path right after that separator: the host's path is kept as
   * the prefix and no separator is added or dropped at the boundary. When the
   * host's path does not itself end in two separators and the relative path
   * does not start with one, exactly one separator stands at the boundary.
   */
  lemma JoinAfterSeparator(host: Url, path: string)
    requires EndsWithSeparator(host.path)
    ensures Join(host, path).origin == host.origin
    ensures Join(host, path).path[..|host.path|] == host.path
    ensures Join(host, path).path[|host.path|..] == path
    ensures Join(host, path).path[|host.path| - 1] == '/'
    ensures (|host.path| < 2 || host.path[|host.path| - 2] != '/') && (path == [] || path[0] != '/') ==>
              (|host.path| < 2 || Join(host, path).path[|host.path| - 2] != '/')
              && (|path| == 0 || Join(host, path).path[|host.path|] != '/')
  {
  }

  /**
   * A request parameter (`Value`). Its cases are the scalar kinds the API
   * accepts; floating-point numbers are represented by `real`.
   */
  datatype Value = StringValue(s: string) | BoolValue(b: bool) | IntValue(i: int) | DoubleValue(d: real)

  /** `Value.description` and `JSONEncoder().encode` on a parameter map (`None` when it throws). */
  datatype Renderer = Renderer(describe: Value -> string, encodeJson: map<string, Value> -> Option<Bytes>)

  // ---------------------------------------------------------------------------
  // Errors
  // ---------------------------------------------------------------------------

  /** `Client.Error`; the HTTP response is represented by its status code. */
  datatype Error =
    | RequestError(detail: string)
    | ResponseError(status: int, detail: string)
    | DecodingError(status: int, detail: string)
    | UnexpectedError(detail: string)

  /** Everything `fetch` can throw: a `Client.Error`, or an error its collaborators throw and it passes on. */
  datatype FetchError =
    | ClientError(error: Error)
    | EncodingFailed   // thrown by `JSONEncoder.encode`
    | TransportFailed  // thrown by `URLSession.data(for:)`

  /** `Error.description`: a prefix naming the kind (and status), then the detail. */
  function Describe(e: Error): (s: string)
    ensures |s| > |e.detail| && s[|s| - |e.detail|..] == e.detail
  {
    match e
    case RequestError(d) => "Request error: " + d
    case ResponseError(status, d) => "Response error (Status " + IntToString(status) + "): " + d
    case DecodingError(status, d) => "Decoding error (Status " + IntToString(status) + "): " + d
    case UnexpectedError(d) => "Unexpected error: " + d
  }

  lemma DropCommonPrefix(p: string, a: string, b: string)
    requires p + a == p + b
    ensures a == b
  {
    assert a == (p + a)[|p|..];
    assert b == (p + b)[|p|..];
  }

  /** A numeral followed by "): " can be split off unambiguously. */
  lemma SplitAfterNumeral(a: string, b: string, d1: string, d2: string)
    requires IsNumeral(a) && IsNumeral(b)
    requires a + "): " + d1 == b + "): " + d2
    ensures a == b && d1 == d2
  {
    var s := a + "): " + d1;
    assert forall i :: 0 <= i < |a| ==> a[i] != ')' by {
      forall i | 0 <= i < |a| ensures a[i] != ')' {
        if i > 0 { assert a[i] == a[1..][i - 1]; }
      }
    }
    assert forall i :: 0 <= i < |b| ==> b[i] != ')' by {
      forall i | 0 <= i < |b| ensures b[i] != ')' {
        if i > 0 { assert b[i] == b[1..][i - 1]; }
      }
    }
    // The first ')' of s ends whichever numeral comes first, so both end there.
    assert s[|a|] == ')';
    assert forall k :: 0 <= k < |b| ==> s[k] != ')' by {
      forall k | 0 <= k < |b| ensures s[k] != ')' { assert s[k] == b[k]; }
    }
    assert s[|b|] == ')';
    assert forall k :: 0 <= k < |a| ==> s[k] != ')' by {
      forall k | 0 <= k < |a| ensures s[k] != ')' { assert s[k] == a[k]; }
    }
    assert a == s[..|a|] == b;
    assert d1 == s[|a| + 3..] == d2;
  }

  /** The first and third characters of a description tell its kind apart. */
  lemma DescribeKindMarks(e: Error)
    ensures |Describe(e)| > 2
    ensures Describe(e)[0] == 'R' <==> e.RequestError? || e.ResponseError?
    ensures Describe(e)[0] == 'D' <==> e.DecodingError?
    ensures Describe(e)[2] == 'q' <==> e.RequestError?
  {
    match e
    case RequestError(d) => assert Describe(e) == "Request error: " + d;
    case ResponseError(st, d) => assert Describe(e) == "Response error (Status " + (IntToString(st) + "): " + d);
    case DecodingError(st, d) => assert Describe(e) == "Decoding error (Status " + (IntToString(st) + "): " + d);
    case UnexpectedError(d) => assert Describe(e) == "Unexpected error: " + d;
  }

  /** Under a common prefix, a status numeral and "): " then a detail determine both. */
  lemma StatusLineInjective(p: string, st1: int, d1: string, st2: int, d2: string)
    requires p + IntToString(st1) + "): " + d1 == p + IntToString(st2) + "): " + d2
    ensures st1 == st2 && d1 == d2
  {
    var a, b := IntToString(st1), IntToString(st2);
    assert p + a + "): " + d1 == p + (a + "): " + d1);
    assert p + b + "): " + d2 == p + (b + "): " + d2);
    DropCommonPrefix(p, a + "): " + d1, b + "): " + d2);
    SplitAfterNumeral(a, b, d1, d2);
    IntToStringInjective(st1, st2);
  }

  /** Two different errors never have the same description. */
  lemma DescribeInjective(e1: Error, e2: Error)
    requires Describe(e1) == Describe(e2)
    ensures e1 == e2
  {
    DescribeKindMarks(e1);
    DescribeKindMarks(e2);
    match e1 {
      case RequestError(d1) =>
        DropCommonPrefix("Request error: ", d1, e2.detail);
      case UnexpectedError(d1) =>
        DropCommonPrefix("Unexpected error: ", d1, e2.detail);
      case ResponseError(st1, d1) =>
        StatusLineInjective("Response error (Status ", st1, d1, e2.status, e2.detail);
      case DecodingError(st1, d1) =>
        StatusLineInjective("Decoding error (Status ", st1, d1, e2.status, e2.detail);
    }
  }

  // ---------------------------------------------------------------------------
  // Requests
  // ---------------------------------------------------------------------------

  /** `Client.Method`. */
  datatype Method = Get | Post | Delete {
    /** The HTTP method token written into the request. */
    function RawValue(): string {
      match this
      case Get => "GET"
      case Post => "POST"
      case Delete => "DELETE"
    }
  }

  datatype QueryItem = QueryItem(name: string, value: string)

  datatype Header = Header(field: string, value: string)

  /** A `URLRequest`: its method, URL, query items (unset or set), header fields in insertion order and body. */
  datatype Request = Request(
    httpMethod: string,
    url: Url,
    query: Option<seq<QueryItem>>,
    headers: seq<Header>,
    body: Option<Bytes>)

  /** The value of the first header with the given field name. */
  function Lookup(headers: seq<Header>, field: string): Option<string> {
    if headers == [] then None
    else if headers[0].field == field then Some(headers[0].value)
    else Lookup(headers[1..], field)
  }

  /**
   * The header list after adding `value` to `field`: a new field is appended;
   * an existing one has the value joined onto its current value after a comma.
   */
  function AppendValue(headers: seq<Header>, field: string, value: string): (r: seq<Header>)
    ensures Lookup(headers, field).None? ==> r == headers + [Header(field, value)]
    ensures Lookup(r, field) == Some(if Lookup(headers, field).Some? then Lookup(headers, field).value + "," + value else value)
    ensures forall f :: f != field ==> Lookup(r, f) == Lookup(headers, f)
  {
    if headers == [] then [Header(field, value)]
    else if headers[0].field == field then [Header(field, headers[0].value + "," + value)] + headers[1..]
    else
      var rest := AppendValue(headers[1..], field, value);
      assert ([headers[0]] + rest)[1..] == rest;
      [headers[0]] + rest
  }

  /** `URLRequest.addValue(_:forHTTPHeaderField:)`: only the header fields change. */
  function AddValue(request: Request, field: string, value: string): Request {
    request.(headers := AppendValue(request.headers, field, value))
  }

  const KnownFields: set<string> := {"Accept", "Accept-Encoding", "X-Subscription-Token", "Content-Type"}

  /**
   * The header fields of every request: JSON is accepted, gzip is accepted,
   * the subscription token is sent, and `Content-Type: application/json` is
   * present exactly when a body is; each field appears once and no other.
   */
  ghost predicate HeadersFor(headers: seq<Header>, token: string, hasBody: bool) {
    && Lookup(headers, "Accept") == Some("application/json")
    && Lookup(headers, "Accept-Encoding") == Some("gzip")
    && Lookup(headers, "X-Subscription-Token") == Some(token)
    && Lookup(headers, "Content-Type") == (if hasBody then Some("application/json") else None)
    && (forall i :: 0 <= i < |headers| ==> headers[i].field in KnownFields)
    && (forall i, j :: 0 <= i < j < |headers| ==> headers[i].field != headers[j].field)
  }

  /** The three fields added to every request, then `Content-Type`, give the headers `HeadersFor` describes. */
  lemma StandardHeaders(token: string)
    ensures var h := AppendValue(AppendValue(AppendValue([], "Accept", "application/json"), "Accept-Encoding", "gzip"),
                                 "X-Subscription-Token", token);
            && HeadersFor(h, token, false)
            && HeadersFor(AppendValue(h, "Content-Type", "application/json"), token, true)
  {
    var h1 := AppendValue([], "Accept", "application/json");
    assert h1 == [Header("Accept", "application/json")];
    var h2 := AppendValue(h1, "Accept-Encoding", "gzip");
    assert h2 == h1 + [Header("Accept-Encoding", "gzip")];
    var h3 := AppendValue(h2, "X-Subscription-Token", token);
    assert h3 == h2 + [Header("X-Subscription-Token", token)];
    var h4 := AppendValue(h3, "Content-Type", "application/json");
    assert h4 == h3 + [Header("Content-Type", "application/json")];
  }

  /** The query items expected for the entries of `params` whose keys are in `keys`. */
  function ItemsOver(params: map<string, Value>, keys: set<string>, describe: Value -> string): set<QueryItem> {
    set k | k in keys && k in params :: QueryItem(k, describe(params[k]))
  }

  /** `items` holds one item per entry of `params`, named by the key and valued by the value's description, in any order. */
  ghost predicate QueryMatches(items: seq<QueryItem>, params: map<string, Value>, describe: Value -> string) {
    multiset(items) == multiset(ItemsOver(params, params.Keys, describe))
  }

  lemma ItemsOverAdd(params: map<string, Value>, done: set<string>, key: string, describe: Value -> string)
    requires key in params && key !in done
    ensures ItemsOver(params, done + {key}, describe) == ItemsOver(params, done, describe) + {QueryItem(key, describe(params[key]))}
    ensures QueryItem(key, describe(params[key])) !in ItemsOver(params, done, describe)
  {
  }

  lemma {:induction false} ItemsOverCardinality(params: map<string, Value>, keys: set<string>, describe: Value -> string)
    requires keys <= params.Keys
    ensures |ItemsOver(params, keys, describe)| == |keys|
    decreases keys
  {
    if keys == {} {
      assert ItemsOver(params, keys, describe) == {};
    } else {
      var k :| k in keys;
      var rest := keys - {k};
      ItemsOverCardinality(params, rest, describe);
      ItemsOverAdd(params, rest, k, describe);
      assert keys == rest + {k};
    }
  }

  /**
   * Matching query items are exactly one per parameter entry: as many items as
   * entries, every entry's item present, every item an entry's, no name twice.
   */
  lemma QueryMatchesOnePerEntry(items: seq<QueryItem>, params: map<string, Value>, describe: Value -> string)
    requires QueryMatches(items, params, describe)
    ensures |items| == |params|
    ensures forall k :: k in params ==> QueryItem(k, describe(params[k])) in items
    ensures forall i :: 0 <= i < |items| ==> items[i].name in params && items[i].value == describe(params[items[i].name])
    ensures forall i, j :: 0 <= i < j < |items| ==> items[i].name != items[j].name
  {
    var expected := ItemsOver(params, params.Keys, describe);
    ItemsOverCardinality(params, params.Keys, describe);
    assert |items| == |multiset(items)| == |multiset(expected)| == |expected|;
    forall k | k in params ensures QueryItem(k, describe(params[k])) in items {
      assert QueryItem(k, describe(params[k])) in multiset(expected);
    }
    forall i | 0 <= i < |items| ensures items[i].name in params && items[i].value == describe(params[items[i].name]) {
      assert items[i] in multiset(items);
    }
    forall i, j | 0 <= i < j < |items| ensures items[i].name != items[j].name {
      // items[j] occurs once in all of items, and already in items[j..], so not in items[..j].
      var x := items[j];
      assert items == items[..j] + items[j..];
      assert multiset(items)[x] == multiset(items[..j])[x] + multiset(items[j..])[x];
      assert x in multiset(items[j..]) by { assert items[j..][0] == x; }
      assert multiset(items)[x] <= 1;
      assert x !in items[..j];
      assert items[i] in items[..j];
    }
  }

  /**
   * The query items of a GET request: one per entry of `params`, visited in
   * the dictionary's unspecified iteration order.
   */
  method QueryItemsFrom(params: map<string, Value>, describe: Value -> string) returns (items: seq<QueryItem>)
    ensures QueryMatches(items, params, describe)
  {
    items := [];
    var remaining := params.Keys;
    while remaining != {}
      invariant remaining <= params.Keys
      invariant multiset(items) == multiset(ItemsOver(params, params.Keys - remaining, describe))
      decreases remaining
    {
      var key :| key in remaining;
      ItemsOverAdd(params, params.Keys - remaining, key, describe);
      assert params.Keys - (remaining - {key}) == (params.Keys - remaining) + {key};
      items := items + [QueryItem(key, describe(params[key]))];
      remaining := remaining - {key};
    }
    assert params.Keys - remaining == params.Keys;
  }

  /** The detail of the `requestError` thrown when no URL can be assembled. */
  function UrlErrorDetail(host: Url, path: string): string {
    "Unable to construct URL with host \"" + host.Text() + "\" and path \"" + path + "\""
  }

  /**
   * What request building throws, if anything. The encoder runs first, so its
   * failure wins over a URL that cannot be assembled.
   */
  function RequestFailure(host: Url, m: Method, path: string, params: Option<map<string, Value>>,
                          renderer: Renderer, urlOk: bool): (f: Option<FetchError>)
    ensures f.Some? <==> (!m.Get? && params.Some? && renderer.encodeJson(params.value).None?) || !urlOk
    ensures f.Some? && m.Get? ==> f.value.ClientError? && f.value.error.RequestError?
  {
    if !m.Get? && params.Some? && renderer.encodeJson(params.value).None? then Some(EncodingFailed)
    else if !urlOk then Some(ClientError(RequestError(UrlErrorDetail(host, path))))
    else None
  }

  /**
   * What a successfully built request looks like: the method's token, the URL
   * joined from host and path, parameters as query items for GET and as a JSON
   * body for POST and DELETE, and the standard headers.
   */
  ghost predicate Prepared(req: Request, host: Url, token: string, m: Method, path: string,
                           params: Option<map<string, Value>>, renderer: Renderer)
  {
    && req.httpMethod == m.RawValue()
    && req.url == Join(host, path)
    && (m.Get? ==>
          && req.body.None?
          && (params.None? ==> req.query.None?)
          && (params.Some? ==> req.query.Some? && QueryMatches(req.query.value, params.value, renderer.describe)))
    && (!m.Get? ==>
          && req.query.None?
          && req.body == (if params.Some? then renderer.encodeJson(params.value) else None))
    && HeadersFor(req.headers, token, req.body.Some?)
  }

  // ---------------------------------------------------------------------------
  // Responses
  // ---------------------------------------------------------------------------

  /** What `session.data(for:)` yields: it throws, or returns a response that is or is not an `HTTPURLResponse`. */
  datatype Exchange =
    | Thrown
    | NotHttp
    | Http(status: int, body: Bytes)

  /**
   * The body decoders: `JSONDecoder` into the expected type (the error's
   * description on failure), `JSONDecoder` into `{"error": String}`, and
   * `String(data:encoding: .utf8)`.
   */
  datatype Decoders<T> = Decoders(
    decode: Bytes -> Result<T, string>,
    errorMessage: Bytes -> Option<string>,
    utf8Text: Bytes -> Option<string>)

  const NotHttpDetail := "Response is not HTTPURLResponse"
  const EmptyBodyDetail := "Empty response body"
  const InvalidResponseDetail := "Invalid response"

  /** The success class of status codes, 200 through 299. */
  predicate IsSuccessStatus(status: int) {
    200 <= status < 300
  }

  /** The checks both entry points make before looking at the status: the error to throw, if any. */
  function ReplyFailure(x: Exchange): Option<FetchError> {
    match x
    case Thrown => Some(TransportFailed)
    case NotHttp => Some(ClientError(UnexpectedError(NotHttpDetail)))
    case Http(_, _) => None
  }

  /**
   * Classification when the expected type is `Bool`: an HTTP reply never
   * throws and yields whether its status is a success, whatever its body; a
   * reply that is not HTTP is still an `unexpectedError`.
   */
  function Succeeded(x: Exchange): (r: Result<bool, FetchError>)
    ensures r.Success? <==> x.Http?
    ensures r.Success? ==> (r.value <==> 200 <= x.status < 300)
    ensures x.NotHttp? ==> r == Failure(ClientError(UnexpectedError(NotHttpDetail)))
    ensures x.Thrown? ==> r == Failure(TransportFailed)
  {
    match ReplyFailure(x)
    case Some(f) => Failure(f)
    case None => Success(IsSuccessStatus(x.status))
  }

  /** The detail of the `responseError` for a non-success status: the body's `error` field, else its UTF-8 text, else a fallback. */
  function FailureDetail<T>(body: Bytes, d: Decoders<T>): string {
    match d.errorMessage(body)
    case Some(message) => message
    case None =>
      match d.utf8Text(body)
      case Some(text) => text
      case None => InvalidResponseDetail
  }

  /**
   * Classification when a structured type `T` is expected.
   */
  function Decoded<T>(x: Exchange, d: Decoders<T>): (r: Result<T, FetchError>)
    // Before the status is consulted, both entry points throw the same error.
    ensures !x.Http? ==> r.Failure? && Succeeded(x) == Failure(r.error)
    // A value is returned only for a success status and a non-empty body that decodes to it.
    ensures r.Success? ==> x.Http? && IsSuccessStatus(x.status) && |x.body| > 0 && d.decode(x.body) == Success(r.value)
    ensures x.Http? && IsSuccessStatus(x.status) && |x.body| == 0 ==>
              r == Failure(ClientError(ResponseError(x.status, EmptyBodyDetail)))
    ensures x.Http? && IsSuccessStatus(x.status) && |x.body| > 0 && d.decode(x.body).Failure? ==>
              r == Failure(ClientError(DecodingError(x.status, "Error decoding response: " + d.decode(x.body).error)))
    ensures x.Http? && IsSuccessStatus(x.status) && |x.body| > 0 && d.decode(x.body).Success? ==>
              r == Success(d.decode(x.body).value)
    // A failure status is always a responseError, never a decodingError; the
    // detail prefers the `error` field, then the UTF-8 text, then the fallback.
    ensures x.Http? && !IsSuccessStatus(x.status) ==> r.Failure? && r.error.ClientError? && r.error.error.ResponseError?
    ensures x.Http? && !IsSuccessStatus(x.status) ==> r.error.error.status == x.status
    ensures x.Http? && !IsSuccessStatus(x.status) && d.errorMessage(x.body).Some? ==>
              r.error.error.detail == d.errorMessage(x.body).value
    ensures x.Http? && !IsSuccessStatus(x.status) && d.errorMessage(x.body).None? && d.utf8Text(x.body).Some? ==>
              r.error.error.detail == d.utf8Text(x.body).value
    ensures x.Http? && !IsSuccessStatus(x.status) && d.errorMessage(x.body).None? && d.utf8Text(x.body).None? ==>
              r.error.error.detail == InvalidResponseDetail
  {
    match ReplyFailure(x)
    case Some(f) => Failure(f)
    case None =>
      if IsSuccessStatus(x.status) then
        if |x.body| == 0 then Failure(ClientError(ResponseError(x.status, EmptyBodyDetail)))
        else
          match d.decode(x.body)
          case Success(v) => Success(v)
          case Failure(cause) => Failure(ClientError(DecodingError(x.status, "Error decoding response: " + cause)))
      else Failure(ClientError(ResponseError(x.status, FailureDetail(x.body, d))))
  }

  /**
   * The two entry points agree: a decoded value implies `true`, `false`
   * implies a responseError with the same status, and a failure of the
   * `Bool` entry point is the failure of the decoding one.
   */
  lemma EntryPointsAgree<T>(x: Exchange, d: Decoders<T>)
    ensures Decoded(x, d).Success? ==> Succeeded(x) == Success(true)
    ensures Succeeded(x) == Success(false) ==>
              Decoded(x, d).Failure? && Decoded(x, d).error == ClientError(ResponseError(x.status, FailureDetail(x.body, d)))
    ensures Succeeded(x).Failure? ==> Decoded(x, d) == Failure(Succeeded(x).error)
  {
  }

  /** The `Bool` entry point never reads the body: two replies with the same status classify alike. */
  lemma SucceededIgnoresBody(status: int, body1: Bytes, body2: Bytes)
    ensures Succeeded(Http(status, body1)) == Succeeded(Http(status, body2))
  {
  }

  // ---------------------------------------------------------------------------
  // The client
  // ---------------------------------------------------------------------------

  /** `Client`: the host every path is joined to and the subscription token sent with every request. */
  class Client {
    const host: Url
    const token: string

    /** The host's path always ends in a separator, so joining a relative path is unambiguous. */
    predicate Valid() {
      EndsWithSeparator(host.path)
    }

    /** `init`: a separator is appended to the host's path unless it already ends in one. */
    constructor (host: Url, token: string)
      ensures Valid()
      ensures this.host.origin == host.origin
      ensures EndsWithSeparator(host.path) ==> this.host == host
      ensures !EndsWithSeparator(host.path) ==> this.host.path == host.path + "/"
      ensures this.token == token
    {
      var normalized := host;
      if !EndsWithSeparator(normalized.path) {
        normalized := normalized.(path := normalized.path + "/");
      }
      this.host := normalized;
      this.token := token;
    }

    /** Builds the request `fetch` sends (everything before `session.data(for:)`). */
    method BuildRequest(m: Method, path: string, params: Option<map<string, Value>>, renderer: Renderer, urlOk: bool)
      returns (r: Result<Request, FetchError>)
      requires Valid()
      ensures r.Failure? <==> RequestFailure(host, m, path, params, renderer, urlOk).Some?
      ensures r.Failure? ==> r.error == RequestFailure(host, m, path, params, renderer, urlOk).value
      ensures r.Success? ==> Prepared(r.value, host, token, m, path, params, renderer)
      // The relative path follows the separator that ends the host's path.
      ensures r.Success? ==> r.value.url.path[|host.path| - 1] == '/' && r.value.url.path[|host.path|..] == path
    {
      var url := Join(host, path);
      JoinAfterSeparator(host, path);
      var query: Option<seq<QueryItem>> := None;
      var httpBody: Option<Bytes> := None;
      match m {
        case Get =>
          if params.Some? {
            var items := QueryItemsFrom(params.value, renderer.describe);
            query := Some(items);
          }
        case Post | Delete =>
          if params.Some? {
            httpBody := renderer.encodeJson(params.value);
            if httpBody.None? {
              return Failure(EncodingFailed);
            }
          }
      }
      if !urlOk {
        return Failure(ClientError(RequestError(UrlErrorDetail(host, path))));
      }
      var request := Request(m.RawValue(), url, query, [], None);
      request := AddValue(request, "Accept", "application/json");
      request := AddValue(request, "Accept-Encoding", "gzip");
      request := AddValue(request, "X-Subscription-Token", token);
      StandardHeaders(token);
      if httpBody.Some? {
        request := request.(body := httpBody);
        request := AddValue(request, "Content-Type", "application/json");
      }
      r := Success(request);
    }

    /** `fetch` with `T == Bool`: whether the exchange returned a success status. */
    method FetchSucceeded(m: Method, path: string, params: Option<map<string, Value>>, renderer: Renderer,
                          urlOk: bool, transport: Request -> Exchange)
      returns (r: Result<bool, FetchError>, ghost sent: Option<Request>)
      requires Valid()
      ensures sent.None? <==> RequestFailure(host, m, path, params, renderer, urlOk).Some?
      ensures RequestFailure(host, m, path, params, renderer, urlOk).Some? ==>
                r == Failure(RequestFailure(host, m, path, params, renderer, urlOk).value)
      ensures sent.Some? ==> Prepared(sent.value, host, token, m, path, params, renderer)
      ensures sent.Some? ==> r == Succeeded(transport(sent.value))
    {
      var built := BuildRequest(m, path, params, renderer, urlOk);
      match built
      case Failure(f) =>
        r, sent := Failure(f), None;
      case Success(request) =>
        r, sent := Succeeded(transport(request)), Some(request);
    }

    /** `fetch` with a structured result type `T`. */
    method FetchDecoded<T>(m: Method, path: string, params: Option<map<string, Value>>, renderer: Renderer,
                           urlOk: bool, transport: Request -> Exchange, d: Decoders<T>)
      returns (r: Result<T, FetchError>, ghost sent: Option<Request>)
      requires Valid()
      ensures sent.None? <==> RequestFailure(host, m, path, params, renderer, urlOk).Some?
      ensures RequestFailure(host, m, path, params, renderer, urlOk).Some? ==>
                r == Failure(RequestFailure(host, m, path, params, renderer, urlOk).value)
      ensures sent.Some? ==> Prepared(sent.value, host, token, m, path, params, renderer)
      ensures sent.Some? ==> r == Decoded(transport(sent.value), d)
    {
      var built := BuildRequest(m, path, params, renderer, urlOk);
      match built
      case Failure(f) =>
        r, sent := Failure(f), None;
      case Success(request) =>
        r, sent := Decoded(transport(request), d), Some(request);
    }

    /**
     * `search`: a GET of `web/search` whose only query item is `q`, carrying
     * the query's description, and whose reply is decoded as a `SearchResponse`.
     */
    method Search(query: string, renderer: Renderer, urlOk: bool, transport: Request -> Exchange,
                  d: Decoders<Schema.SearchResponse>)
      returns (r: Result<Schema.SearchResponse, FetchError>, ghost sent: Option<Request>)
      requires Valid()
      ensures sent.None? <==> !urlOk
      ensures !urlOk ==> r == Failure(ClientError(RequestError(UrlErrorDetail(host, "web/search"))))
      ensures sent.Some? ==> sent.value.httpMethod == "GET" && sent.value.url == Join(host, "web/search")
      ensures sent.Some? ==> sent.value.url.path[|host.path| - 1] == '/' && sent.value.url.path[|host.path|..] == "web/search"
      ensures sent.Some? ==> sent.value.query == Some([QueryItem("q", renderer.describe(StringValue(query)))])
      ensures sent.Some? ==> sent.value.body.None? && HeadersFor(sent.value.headers, token, false)
      ensures sent.Some? ==> r == Decoded(transport(sent.value), d)
    {
      var params := map["q" := StringValue(query)];
      r, sent := FetchDecoded(Get, "web/search", Some(params), renderer, urlOk, transport, d);
      if sent.Some? {
        JoinAfterSeparator(host, "web/search");
        var items := sent.value.query.value;
        QueryMatchesOnePerEntry(items, params, renderer.describe);
        assert params.Keys == {"q"};
        assert |items| == 1;
        assert items == [QueryItem("q", renderer.describe(StringValue(query)))];
      }
    }
  }

  /** `Client(token:)`: a client on the default host, `https://api.search.brave.com/res/v1/`. */
  method DefaultClient(token: string) returns (c: Client)
    ensures c.Valid() && c.host == Url("https://api.search.brave.com", "/res/v1/")
    ensures c.token == token
  {
    c := new Client(DefaultHost, token);
  }
}
