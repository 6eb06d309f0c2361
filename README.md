# Brave Search client gateway, in Dafny

This project models the request/response gateway of the Swift Brave Search
client (`Client` in `Sources/Brave/Client.swift`). The gateway has three parts:

- **Host normalisation.** `init` appends a path separator to the host unless
  the host's path already ends in one.
- **Request building.** This is the first half of `fetch`. For GET, each
  parameter becomes a query item whose value is the parameter's `description`.
  For POST and DELETE, the whole parameter map becomes a JSON body. Every
  request carries `Accept: application/json`, `Accept-Encoding: gzip` and
  `X-Subscription-Token: <token>`. `Content-Type: application/json` is added
  only when there is a body. The `Accept`, `Accept-Encoding` and
  `Content-Type` fields are defined in sections 12.5.1, 12.5.3 and 8.3 of
  RFC 9110.
- **Response classification.** This is the second half of `fetch`. A reply
  that is not HTTP-shaped is an `unexpectedError`. For a `Bool` result, the
  answer is whether the status is in the success class 200–299 (section 15.3
  of RFC 9110), and the body is never read. For any other result type:
  - a success status with an empty body is a `responseError`;
  - a success status with a body that decodes gives the decoded value;
  - a success status with a body that does not decode is a `decodingError`;
  - a failure status is always a `responseError`. Its detail is the body's
    `error` field if there is one, otherwise the body as UTF-8 text, otherwise
    `"Invalid response"`.

Swift's runtime test `T.self == Bool.self` becomes two entry points, which
share request building and the first response check:
`Client.FetchSucceeded` returns a `bool` and `Client.FetchDecoded<T>` returns
a `T`. `search` is `FetchDecoded` on `GET web/search` with the single
parameter `q`.

Files:

- `wrappers.dfy`: `Option` and `Result`.
- `decimal.dfy`: how Swift writes an `Int` status code into a string, and the
  parser that reads it back.
- `schema.dfy`: the `SearchResponse` decode targets, as datatypes. Optional
  JSON fields are `Option`s.
- `brave.dfy`: URLs, parameter values, `Client.Error` and its description,
  requests, response classification and the `Client` class.

Foundation and the network are not modelled. The results the gateway gets
from them are parameters:

- `Renderer.describe` stands for `Value.description`.
- `Renderer.encodeJson` stands for `JSONEncoder.encode`. It returns `None` when
  the encoder throws.
- `urlOk` says whether `URLComponents` produced a URL.
- `transport` maps the built request to what `session.data(for:)` yields: it
  threw, it returned a non-HTTP response, or it returned an HTTP status and a
  body.
- `Decoders` holds three decoders applied to the body: `JSONDecoder` into
  `T` (on failure, the error's description), `JSONDecoder` into
  `{"error": String}`, and `String(data:encoding: .utf8)`.

The fetch methods also return, as a ghost out-parameter, the request they
handed to the transport. Their contracts can therefore say what was sent.

Besides a URL that cannot be assembled, `try encoder.encode(params)`
(line 69) can also throw before the request is sent. That error is not a
`Client.Error`: it passes through unchanged, and because the encoder runs
before the URL guard, it takes precedence over a URL failure. The model calls
it `FetchError.EncodingFailed`. It likewise calls an error thrown by the
transport `FetchError.TransportFailed`.

## Model

| member | source | states |
|---|---|---|
| `Brave.Client.constructor` | Sources/Brave/Client.swift:12-20 | After `init` the host's path ends in `/`. A host whose path already ends in `/` is kept unchanged. Otherwise exactly one `/` is appended and the origin is kept. The token is stored unchanged. |
| `Brave.DefaultClient` | Sources/Brave/Client.swift:5-20 | A client built with the default host satisfies the class invariant (its host's path ends in `/`) and has host `https://api.search.brave.com` with path `/res/v1/`. |
| `Brave.JoinAfterSeparator` | Sources/Brave/Client.swift:13-17 | Joining a relative path onto a host whose path ends in `/` keeps the origin and the host's path as prefix, and puts the relative path right after that `/`. No separator is added or dropped at the boundary. When the host's path does not end in `//` and the relative path does not start with `/`, exactly one `/` stands at the boundary. |
| `Decimal.NatToString` | Sources/Brave/Client.swift:33 | A status code is rendered as a non-empty string of decimal digits. |
| `Decimal.IntToString` | Sources/Brave/Client.swift:33 | An `Int` is rendered as a well-formed numeral: digits, with an optional leading `-`. |
| `Decimal.IntToStringRoundTrip` | Sources/Brave/Client.swift:33 | Parsing the rendered status code gives back the status code. |
| `Decimal.IntToStringInjective` | Sources/Brave/Client.swift:35 | Different status codes are rendered as different strings. |
| `Brave.Describe` | Sources/Brave/Client.swift:28-39 | An error's description is longer than its detail and ends with that detail. |
| `Brave.DescribeKindMarks` | Sources/Brave/Client.swift:30-37 | The first and third characters of a description tell the four error kinds apart. |
| `Brave.DescribeInjective` | Sources/Brave/Client.swift:28-39 | Two errors with the same description are the same error: kind, status and detail are all the same. |
| `Brave.AppendValue` | Sources/Brave/Client.swift:82-88 | `addValue` appends a new field. For a field already present, it joins the new value after a comma. All other fields keep their values. |
| `Brave.StandardHeaders` | Sources/Brave/Client.swift:82-89 | The three headers every request gets satisfy the header rules with no body. Adding `Content-Type` afterwards satisfies them with a body. |
| `Brave.QueryItemsFrom` | Sources/Brave/Client.swift:59-64 | The loop builds exactly the multiset of expected items: one item per parameter entry, named by the key, valued by the value's description, in any order. |
| `Brave.QueryMatchesOnePerEntry` | Sources/Brave/Client.swift:60-63 | Matching query items are as many as the parameter entries. Every entry has its item. Every item belongs to an entry. No name occurs twice. |
| `Brave.RequestFailure` | Sources/Brave/Client.swift:66-76 | Request building fails exactly when the encoder throws for POST or DELETE with parameters, or when no URL can be built. A GET can fail only with `requestError`. |
| `Brave.Client.BuildRequest` | Sources/Brave/Client.swift:52-89 | Building fails with the `RequestFailure` error, with encoder failure taking precedence. A built request has the method's token and the URL joined from host and path. Given the class invariant, the relative path follows the `/` that ends the host's path. GET: query items exactly when parameters are given, and no body. POST/DELETE: no query items, and the body is the encoded parameters when given. Headers: `Accept: application/json`, `Accept-Encoding: gzip` and `X-Subscription-Token: token`; `Content-Type: application/json` if and only if there is a body; no other field, and no field twice. |
| `Brave.Succeeded` | Sources/Brave/Client.swift:93-121 | Classification for `Bool`. An HTTP reply never throws and yields `true` if and only if its status is in [200,300). A non-HTTP reply is `unexpectedError` even here. A transport failure is passed on. |
| `Brave.SucceededIgnoresBody` | Sources/Brave/Client.swift:98-101 | The `Bool` classification does not depend on the body. |
| `Brave.Decoded` | Sources/Brave/Client.swift:93-132 | Classification for a structured type. A non-HTTP reply gives the same error as for `Bool`. A value is returned only for a success status and a non-empty body that decodes to it. A success status gives `responseError("Empty response body")` for an empty body and `decodingError` when decoding fails. A failure status is always `responseError` with that status, never `decodingError`. Its detail is the `error` field, otherwise the UTF-8 text, otherwise "Invalid response". |
| `Brave.EntryPointsAgree` | Sources/Brave/Client.swift:97-121 | A decoded value implies the `Bool` entry point returns `true`. `false` implies the structured entry point throws `responseError` with the same status. A failure of the `Bool` entry point is also the failure of the structured one. |
| `Brave.Client.FetchSucceeded` | Sources/Brave/Client.swift:52-121 | The request is sent if and only if building succeeds. When building fails, the result is the building error, whatever the transport would return. The request sent is well-formed as in `BuildRequest`. The result is `Succeeded` of what the transport returns for that request. |
| `Brave.Client.FetchDecoded` | Sources/Brave/Client.swift:52-132 | Same as `FetchSucceeded`, with the result given by `Decoded` of the transport's reply. |
| `Brave.Client.Search` | Sources/Brave/Client.swift:251-254 | `search` sends a request if and only if a URL can be built. Otherwise it throws `requestError` naming the host and `web/search`. The request is a GET of `host + "web/search"`, with `web/search` right after the `/` that ends the host's path, whose only query item is `q` with the query's description, with no body and the standard headers. The result is the reply classified as a `SearchResponse`. |

## Left out

- `URLSession.data(for:)` and the `actor` isolation of `Client` are network I/O and concurrency. The transport is a function from the request to its outcome, and calls are sequential. The `session` field is not modelled.
- Foundation's URL mechanics (`appending(path:)`, `URLComponents`, percent-encoding, the exact output of `appendingPathComponent("")`) are foreign library code. A URL is an origin and a path string, joining concatenates the paths, and URL-construction failure is the input flag `urlOk`.
- `Value` is defined in a file that is not part of this model. Its cases are represented here as string, boolean, integer and (as `real`) floating point. Its `description` is an input function.
- The internals of `JSONEncoder` and `JSONDecoder`, including the ISO-8601 date strategy, are foreign code. Their outcomes are input functions of the parameter map or body.
- `Client.Error` carries the whole `HTTPURLResponse`; the model keeps only its status code.
- The query items come from iterating a dictionary in an unspecified order. The model picks keys in an arbitrary order, and its contracts compare the items as a multiset.
- `Brave.AppendValue`: header field names are compared case-sensitively, whereas `URLRequest` compares them case-insensitively. The gateway only adds four distinct fields, so this does not affect any request it builds.
- The debugging `print` of the URL (line 80) is output only.
- The `SearchResponse` tree (lines 138-248) is declared as datatypes with no operations. Its `URL`-typed fields are strings.
- The command-line tool (`Sources/BraveCmd/Cmd.swift`) and `Package.swift` are argument parsing, printing and build configuration, with no gateway logic.
