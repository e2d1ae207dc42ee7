# OpenTracing decorators for Go HTTP, redis and Elasticsearch clients — a Dafny model

The repository wraps four kinds of Go calls in OpenTracing spans:

- the server middleware `ServerMiddleware` (net/http/server.go);
- the outbound `TracedTransport.RoundTrip` (net/http/client.go);
- the redis connection `TracedConn` and its `ConnectTo` helper (github.com/garyburd/redigo/redis.go);
- the Elasticsearch `TracedTransport.RoundTrip` (github.com/olivere/elastic/elastic.go).

Each wrapper only makes a few decisions around calls into libraries: the span's name, its parent, which tags it gets, whether the request body is captured, when to return early, and what is handed to and returned from the wrapped code. This project models those decisions and proves what they guarantee.

The model works as follows:

- **The tracer is an event log.** `Tracing.Tracer` is a class whose `log` records every span start, tag, injection and finish, in order. It also records every call the wrapper makes into the code it decorates (`Call` events). The tracer is passed in explicitly instead of being reached through `GlobalTracer()`.
- **External outcomes are parameters.** These are:
  - what `Extract` and `Inject` return;
  - what reading the body returns;
  - what the HTTP transport, the HTTP handler or the redis connection returns;
  - what `url.Parse` returns.
- **Each wrapper has a pure specification function.** These are `ServeRun`, `ClientRun` (with `GuardedClientRun` for the corrected client), `DoRun` and `QueryRun`. Each gives the events the wrapper appends and the result it returns, for given outcomes.
- **Each wrapper method is proved against its specification function.** The method is written step by step, as in the source, on the tracer. Its postcondition says it appends exactly the specification function's events and returns its result.
- **The properties are lemmas about the specification functions.** They cover:
  - exactly one start and one finish on every path, the panicking ones included (`Tracing.Bracketed`);
  - "iff" conditions for the capture of the body and for error tags;
  - early returns that skip the wrapped call;
  - arguments, requests and results that pass through unchanged.
- **Go semantics are modelled where the code depends on them:**
  - `strings.Split` on a one-character separator (`Strings`);
  - `strconv.Atoi` as `ParseUint` scans it, left to right: a non-digit reached first gives 0, and digits that overflow first saturate at the int64 bound of the sign, whatever follows them; every caller drops the error (`Strconv`);
  - integer division that truncates toward zero (`HttpServer.GoQuotient`);
  - `string(buf)` (`Values.BytesToString`);
  - a Go string as its bytes, one character per byte, so `len(URL.Path) > 1` and `URL.Path[1:]` (redis.go:69-70) count and slice bytes.
- **`http.Header` is a class.** `r.WithContext` copies the request but shares the header map. `Inject` writes the span context into that shared map, so the caller sees the write. The model keeps this sharing.

### Behaviour worth knowing

- **The outbound HTTP span name.** The span is always named `http.request`. Only the server names spans with `getOperationName`.
- **No 5xx handling in the outbound transport.** It marks the span as an error only when `Inject` fails or the transport returns an error; the status code itself is only tagged.
- **The body ceiling uses the declared length.** The ceiling is decided by the `Content-Length` header. A missing or unparsable header counts as 0, so such a body is read and captured whatever its size. Any body that passes the ceiling is captured, textual or not.
- **The redis trace context comes first.** The context is taken from the first argument. It is forwarded to the wrapped `Do` together with the other arguments.
- **The redis tags.** The only tag is `redis.<cmd>.Args`, holding the argument list.
- **No redis pipelining span.** `Send`, `Flush` and `Receive` create no span at all; they delegate directly.
- **A transport error panics.** In the outbound HTTP transport, a transport error ends in a nil dereference on `resp.StatusCode` (see Findings).

## Model

| member | source | states |
|---|---|---|
| Values.BytesToString | net/http/client.go:40 | `string(buf)` has one character per byte, each with the byte's code |
| Values.BytesToStringInjective | net/http/client.go:40 | different bodies give different captured strings, so the tag determines the bytes read |
| Strconv.Clamp | net/http/client.go:34 | values above int64 become its maximum, values below become its minimum, and in-range values are unchanged |
| Strconv.Atoi | net/http/client.go:34 | the result lies within int64; text the scan rejects gives 0; digits that overflow give the bound of the sign; a negative result needs a leading minus |
| Strconv.ScanDecimal | net/http/client.go:34 | a digit run within the uint64 range scans to its decimal value |
| Strconv.ScanOverflow | net/http/client.go:34 | once the digits read exceed the uint64 range the scan reports a range error, whatever follows |
| Strconv.ScanJunk | net/http/client.go:34 | a non-digit reached before any overflow is a syntax error |
| Strconv.AtoiOverflowIgnoresRest | net/http/client.go:34 | digits beyond uint64 followed by anything read as the int64 maximum |
| Strconv.AtoiJunkIsZero | net/http/client.go:34 | digits within uint64 followed by a non-digit read as 0 |
| Strconv.AtoiFormatInt | net/http/client.go:34 | `Atoi` reads back every int64 written in decimal, so a well-formed `Content-Length` is read exactly |
| Strconv.AtoiSaturates | net/http/client.go:34 | a decimal above the int64 range reads as the int64 maximum |
| Strconv.AtoiSaturatesNegative | net/http/client.go:34 | a minus followed by a decimal below the int64 range reads as the int64 minimum |
| Strings.Split | net/http/server.go:42 | `strings.Split` always returns at least one piece |
| Strings.SplitPiecesLackSep | net/http/server.go:42 | no piece of a split contains the separator |
| Strings.SplitWithoutSep | net/http/server.go:42-44 | a string without the separator splits into one piece, itself |
| Strings.SplitAtFirst | net/http/server.go:42 | splitting `a + sep + b` with no separator in `a` gives `a` followed by the pieces of `b` |
| Strings.SplitHasManyPieces | net/http/server.go:43 | the split has more than one piece exactly when the separator occurs |
| Strings.SplitFirstPiece | net/http/server.go:42 | the first piece is the text before the first separator |
| Strings.SplitSecondPiece | net/http/server.go:46 | the second piece is the text between the first and second separators |
| Strings.BeforeAfter | net/http/server.go:42 | the text before and after the first separator put the string back together |
| Strings.JoinSplit | net/http/server.go:42 | joining the pieces of a split with the separator restores the string |
| Strings.SplitJoin | net/http/server.go:42 | splitting a join of separator-free pieces gives the pieces back |
| Http.HeaderGet | net/http/client.go:34 | `Header.Get` is the first value under the key, or "" when the key is absent or holds no value |
| Http.ContentLength | net/http/client.go:34 | a missing or unparsable `Content-Length` counts as 0 |
| Http.CapturesBody | net/http/client.go:35 | the guard shared by both transports: a non-nil body whose declared length is below the limit |
| Http.UnknownLengthIsCaptured | net/http/client.go:34-35 | a non-nil body with an unparsable or missing length is always captured |
| Http.DeclaredLengthDecides | net/http/client.go:34-35 | with a well-formed length, a non-nil body is captured iff its length is below the limit |
| Http.OverflowingLengthIsNotCaptured | net/http/client.go:34-35 | a length whose leading digits overflow uint64 reads as the int64 maximum whatever follows, so the body is not captured |
| Tracing.Bracket | net/http/client.go:27-29 | a start, a middle that neither starts nor finishes a span, and a finish form exactly one bracketed span |
| Tracing.Tracer.StartSpan | net/http/client.go:27 | appends one start with a fresh span identity, the next in order |
| Tracing.Tracer.SetTag | net/http/client.go:31 | appends one tag about an existing span |
| Tracing.Tracer.Finish | net/http/client.go:29 | appends one finish of an existing span |
| Tracing.Tracer.Inject | net/http/client.go:44 | on success, writes the injected fields into the shared header; on failure, returns the error and leaves the header unchanged |
| Tracing.Tracer.Record | net/http/client.go:51 | appends one call into the wrapped code |
| HttpServer.NormalizedPath | net/http/server.go:42-47 | the path part is a slash followed by text without a slash |
| HttpServer.OperationName | net/http/server.go:41-49 | the name is the method, one space, a slash, then no further slash |
| HttpServer.OperationNameKeepsSegmentAfterSlash | net/http/server.go:41-49 | the name keeps exactly the text after the path's first slash, up to the next one (the first segment when the path starts with a slash), a reference definition that does not split |
| HttpServer.SlashlessPathNamesRoot | net/http/server.go:42-44 | an empty path, or one without a slash, names `method /` |
| HttpServer.LeadingSegmentNamesOperation | net/http/server.go:42-48 | `/seg` followed by nothing or by `/...` names `method /seg`, whatever follows |
| HttpServer.NormalizationIdempotent | net/http/server.go:41-49 | normalising twice changes nothing, and the normalised path names the same operation |
| HttpServer.UsersExample | net/http/server.go:41-49 | `GET /users/42` is named `GET /users` |
| HttpServer.NestedUsersExample | net/http/server.go:41-49 | `GET /users/42/profile` is named `GET /users` |
| HttpServer.RootExample | net/http/server.go:42-46 | both `/` (two empty pieces) and the empty path name `GET /` |
| HttpServer.GoQuotient | net/http/server.go:35 | Go's `/` on `int`, truncating toward zero (its meaning is `GoQuotientTruncates`) |
| HttpServer.EuclidNonNegative | net/http/server.go:35 | on a non-negative dividend, `q * b` lies between 0 and `a`, less than one `b` from `a` |
| HttpServer.GoQuotientTruncates | net/http/server.go:35 | `q * b` lies between 0 and `a`, less than one `b` from `a`, for either sign of `a` |
| HttpServer.IsServerError | net/http/server.go:35 | `status/100 == 5` under Go's truncating division holds iff the status is between 500 and 599 |
| HttpServer.HttpTags | net/http/server.go:28-39 | every tag `setHTTPTags` records is about the request's span |
| HttpServer.ErrorTagIffServerError | net/http/server.go:34-37 | the error tag is set once, to true, for a 5xx status, and never otherwise |
| HttpServer.ResponseTagsRecorded | net/http/server.go:30-34 | the method, path and status are each tagged exactly once |
| HttpServer.ServeRun | net/http/server.go:14-26 | the events and outcome of one request through the middleware, for given extraction and handler outcomes; its properties are the lemmas below |
| HttpServer.ServeRunBracketed | net/http/server.go:17-24 | one span per request, named by `getOperationName` and parented by the extracted context; the handler runs once with the span in its context; a panic propagates and leaves the span untagged but finished |
| HttpServer.TagsFollowHandler | net/http/server.go:23-24 | no tag comes before the handler call; after it come exactly the `setHTTPTags` tags |
| HttpServer.ServedErrorIffServerError | net/http/server.go:35-37 | a served request is marked as an error exactly once for a 5xx status, and never otherwise |
| HttpServer.ExtractionFailureIsHarmless | net/http/server.go:17-18 | a failed extraction only loses the parent; the handler and everything after it are unchanged |
| HttpServer.SetHttpTags | net/http/server.go:28-39 | appends exactly the `setHTTPTags` tags |
| HttpServer.ServeTraced | net/http/server.go:14-26 | the middleware appends exactly the run's events and propagates a handler panic |
| HttpClient.Forwarded | net/http/client.go:28-41 | the request sent on is the caller's, with the span in its context, the same shared header, and the buffered body iff it was captured |
| HttpClient.ClientRun | net/http/client.go:26-58 | the events and outcome of one `RoundTrip` as written, for given read, inject and transport outcomes |
| HttpClient.GuardedClientRun | net/http/client.go:26-58 | the same for the round trip with the status read only when there is a response |
| HttpClient.Prepare | net/http/client.go:31-48 | everything before the inner round trip is about the request's span |
| HttpClient.Exchange | net/http/client.go:51-57 | as written, the round trip and its tags are about the request's span |
| HttpClient.ExchangeGuarded | net/http/client.go:51-57 | the corrected round trip and its tags are about the request's span |
| HttpClient.ClientSpanBracketed | net/http/client.go:27-29 | on every path, the panic included, one `http.request` span is started first and finished last, as a child of the request's context |
| HttpClient.GuardedSpanBracketed | net/http/client.go:27-29 | the same holds for the corrected round trip |
| HttpClient.MethodAndUrlTaggedFirst | net/http/client.go:31-32 | the method and URL are tagged before anything else, so before any early return |
| HttpClient.BodyTaggedIffCaptured | net/http/client.go:34-40 | the body is tagged, once and as the bytes read, iff it is non-nil, its declared length is below 65536, and the read succeeds |
| HttpClient.ReadFailureAbandons | net/http/client.go:36-39 | a failed read returns `(nil, err)` after only the method and URL tags, with no injection and no transport call |
| HttpClient.InjectFailureAbandons | net/http/client.go:44-48 | a failed injection sets `error` = true once and returns `(nil, err)` without calling the transport |
| HttpClient.InjectedRequestForwarded | net/http/client.go:41 | after injection, the transport is called exactly once, with the caller's request carrying the span, the buffered body if one was captured, and the same shared header |
| HttpClient.TransportFailurePanics | net/http/client.go:51-56 | as written, every transport error sets `http.error` to the error's message and `error` = true once each, tags no status, and ends in a nil dereference; the corrected version returns `(nil, err)` |
| HttpClient.GuardedPassesTransportResult | net/http/client.go:51-57 | corrected: the transport's answer is returned unchanged; status tagged iff there is a response; `http.error` (the error's message) and `error` = true each set once iff the transport failed |
| HttpClient.ExchangeGuardedTallies | net/http/client.go:51-57 | the corrected exchange tags the status, or the error message and the error mark, once each |
| HttpClient.GuardAgreesOnResponse | net/http/client.go:56 | the correction changes nothing when the transport answers |
| HttpClient.HeaderChangedOnlyByInjection | net/http/client.go:44 | the caller's header changes only through a successful injection, which adds every injected field |
| HttpClient.LimitIsExclusive | net/http/client.go:17 | a declared length of 65535 is captured; 65536 is not |
| HttpClient.PrepareTraced | net/http/client.go:31-48 | appends the preparation's events and updates the shared header as injection dictates |
| HttpClient.ExchangeTraced | net/http/client.go:51-57 | appends the round trip's events as written |
| HttpClient.ExchangeGuardedTraced | net/http/client.go:51-57 | appends the corrected round trip's events |
| HttpClient.RoundTrip | net/http/client.go:26-58 | `TracedTransport.RoundTrip` as written follows `ClientRun` exactly |
| HttpClient.RoundTripGuarded | net/http/client.go:26-58 | the corrected round trip follows `GuardedClientRun` exactly |
| Redigo.DoRun | github.com/garyburd/redigo/redis.go:27-42 | the events and reply of one `Do`, for a given reply of the wrapped connection; its properties are the lemmas below |
| Redigo.EmptyCommandRejected | github.com/garyburd/redigo/redis.go:28-30 | `Do` with no arguments returns the usage error, with no span and no call |
| Redigo.CommandSpanBracketed | github.com/garyburd/redigo/redis.go:31-39 | otherwise one span named `redis.<cmd>` is started first and finished last |
| Redigo.ContextSelectsParent | github.com/garyburd/redigo/redis.go:31-37 | the span is a child of `s` iff the first argument is a context carrying `s`, and a root otherwise |
| Redigo.OnlyFirstArgumentDecides | github.com/garyburd/redigo/redis.go:31 | only the first argument decides the span's start |
| Redigo.ArgumentsForwardedUnchanged | github.com/garyburd/redigo/redis.go:34-41 | the wrapped `Do` is called once with the command and every argument, the context included; the same list is the tag's value |
| Redigo.ReplyPassedThrough | github.com/garyburd/redigo/redis.go:35-41 | the wrapped reply and error are returned unchanged |
| Redigo.Do | github.com/garyburd/redigo/redis.go:27-42 | `TracedConn.Do` follows `DoRun` and uses no span identity when rejecting |
| Redigo.Send | github.com/garyburd/redigo/redis.go:44-46 | delegates with the same arguments, creates no span, returns the wrapped error |
| Redigo.Flush | github.com/garyburd/redigo/redis.go:48-50 | delegates, creates no span, returns the wrapped error |
| Redigo.Receive | github.com/garyburd/redigo/redis.go:52-54 | delegates, creates no span, returns the wrapped reply |
| Redigo.Close | github.com/garyburd/redigo/redis.go:19-21 | delegates, creates no span, returns the wrapped error |
| Redigo.Err | github.com/garyburd/redigo/redis.go:23-25 | delegates, creates no span, returns the wrapped error |
| Redigo.DialOptionsOf | github.com/garyburd/redigo/redis.go:62-72 | a password option iff the URL has userinfo (first, with "" when no password was set); a database option iff the path is longer than `/`, with `Atoi` of the rest (last); nothing else |
| Redigo.DialOptions | github.com/garyburd/redigo/redis.go:62-72 | appending the options one at a time builds exactly `DialOptionsOf` |
| Redigo.BothOptionsInOrder | github.com/garyburd/redigo/redis.go:64-71 | with userinfo and a database path the options are the password, then the database |
| Redigo.ConnectTo | github.com/garyburd/redigo/redis.go:56-74 | a parse error is returned as is; otherwise the URL's host is dialled over TCP with exactly the options `DialOptionsOf` gives |
| Redigo.DatabaseNumberRoundTrip | github.com/garyburd/redigo/redis.go:69-71 | a URL whose path is `/n` gets `DialDatabase(n)` as its last dial option |
| Elastic.Forwarded | github.com/olivere/elastic/elastic.go:26-39 | the request sent on is the caller's, with the span in its context and the buffered body iff it was captured |
| Elastic.QueryRun | github.com/olivere/elastic/elastic.go:24-44 | the events and result of one `RoundTrip`, for given read and transport outcomes; its properties are the lemmas below |
| Elastic.Dispatch | github.com/olivere/elastic/elastic.go:32-43 | body capture and the transport call are about the request's span |
| Elastic.QuerySpanBracketed | github.com/olivere/elastic/elastic.go:25-27 | on every path, one `elastic.query` span is started first and finished last, as a child of the request's context |
| Elastic.RequestTaggedFirst | github.com/olivere/elastic/elastic.go:28-30 | the method, path and query parameters are tagged first, before any early return |
| Elastic.BodyTaggedIffCaptured | github.com/olivere/elastic/elastic.go:32-38 | the body is tagged, once and as the bytes read, iff it is non-nil, its declared length is below 65536, and the read succeeds |
| Elastic.ReadFailureAbandons | github.com/olivere/elastic/elastic.go:34-37 | a failed read returns `(nil, err)` after only the three request tags, without calling the transport |
| Elastic.TransportResultPassedThrough | github.com/olivere/elastic/elastic.go:39-43 | otherwise the transport is called once, with the span and the buffered body, and its result is returned unchanged |
| Elastic.NoInjectionNoErrorTag | github.com/olivere/elastic/elastic.go:24-44 | this transport never injects and never tags an error |
| Elastic.DispatchTraced | github.com/olivere/elastic/elastic.go:32-43 | appends the dispatch events and returns the dispatch result |
| Elastic.RoundTrip | github.com/olivere/elastic/elastic.go:24-44 | `TracedTransport.RoundTrip` follows `QueryRun` exactly |

## Left out

- **External libraries are not modelled; their outcomes are parameters.** This covers:
  - the network, `http.Transport`, the HTTP handler;
  - `redis.Dial` and the redis wire protocol;
  - `ioutil.ReadAll`, `url.Parse`, `URL.String()` and `URL.Query().Encode()`.
- **OpenTracing internals are not modelled.** Span contexts are span identities, and `Extract` and `Inject` results are parameters. `GlobalTracer()` global state is replaced by an explicit `Tracer`.
- **Span-kind tag at start:** `ext.RPCServerOption` also sets the span-kind tag when the server span starts. The model keeps only the parent that option gives. The span-kind tag that `setHTTPTags` sets is modelled.
- **negroni internals:** the model does not track how negroni's writer records status and size. `Status()` and `Size()` are handler outcomes.
- **Header key canonicalisation:** `Header.Get` canonicalises its key. The model takes header keys to be in canonical form already.
- **The caller's drained body:** after a capture, the caller's original request still holds its drained body stream, because only the copy gets the buffer. Streams are modelled only by identity, not by contents.
- **Timestamps and durations** are not modelled. They belong to the tracer.
- **Constructors:** the two `NewTracedHTTPClient` functions (net/http/client.go:61-65, github.com/olivere/elastic/elastic.go:47-51) are wiring only.
- **net/http/shared.go:** it declares a tag that nothing uses.
- **Panics:** beyond the deferred `Finish`, a panic is modelled only as an outcome (`HandlerPanicked`, `NilDereference`). Recovery and stack unwinding are not modelled.
- **Strconv.Atoi:** `int` is taken to be 64 bits wide. The error result is not modelled, because every caller discards it. Only base 10 is modelled, the only base `Atoi` uses.
- **Tracing.Tracer.Inject:** a failed `Inject` is taken to leave the header untouched. The OpenTracing carrier may have written some fields before failing; `HttpClient.HeaderChangedOnlyByInjection` rests on this assumption.
- **The `http.url` tag:** client.go:32 tags the `*url.URL` value itself. The model tags its `String()` text, which is what a tracer renders.
- **HttpClient.TransportResult:** the model assumes the embedded `*http.Transport` gives a nil response exactly when it gives an error. A round tripper that returns both a response and an error is not modelled.

## Findings

| source | as written | input that shows it | evidently intended | confidence | as-written member | corrected member |
|---|---|---|---|---|---|---|
| net/http/client.go:56 | `resp.StatusCode` is read even after `t.Transport.RoundTrip(r)` returned an error | any transport failure, e.g. a refused connection, for which `http.Transport` returns a nil response and the error | tag the status only when there is a response and return `(nil, err)`, as the error tags on lines 52-55 prepare for | high, not executed | HttpClient.TransportFailurePanics | HttpClient.RoundTripGuarded |
