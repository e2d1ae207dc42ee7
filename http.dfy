/** The parts of Go's `net/http` request and response that the wrappers read
    or change, and the body-capture rule shared by the two traced transports. */
module Http {
  import opened Values
  import Strconv

  /** A parsed URL: its `String()` form, its `Path`, and `Query().Encode()`. */
  datatype Url = Url(text: string, path: string, encodedQuery: string)

  /** `http.Header`. It is a reference: `r.WithContext` copies a request but the
      copy shares the header map, so a header written through the copy (by
      `Inject`) is visible to whoever holds the original request. Keys are
      taken to be in canonical form already. */
  class Header {
    var fields: map<string, seq<string>>

    constructor (fields: map<string, seq<string>>)
      ensures this.fields == fields
    {
      this.fields := fields;
    }
  }

  /** `Header.Get`: the first value stored under `key`, or "" when there is none. */
  function HeaderGet(fields: map<string, seq<string>>, key: string): (v: string)
    ensures key in fields && fields[key] != [] ==> v == fields[key][0]
    ensures key !in fields || fields[key] == [] ==> v == ""
  {
    if key in fields && fields[key] != [] then fields[key][0] else ""
  }

  /** `r.Body`: nil (`NilBody`; not Go's `http.NoBody`, which is a non-nil
      empty body and would be a `Stream` here), a stream only the caller can read, or the in-memory buffer
      that replaces a captured body. */
  datatype Body = NilBody | Stream(id: nat) | Buffered(data: seq<byte>)

  /** `*http.Request` (`verb` is its `Method`); `ctx` is the span stored in `r.Context()`, if any. */
  datatype Request = Request(
    verb: string,
    url: Url,
    host: string,
    header: Header,
    body: Body,
    ctx: Option<SpanId>)

  /** `*http.Response`, of which the wrappers read only the status code. */
  datatype Response = Response(statusCode: int, id: nat)

  /** What `ioutil.ReadAll(r.Body)` returned. */
  datatype ReadResult = ReadOk(data: seq<byte>) | ReadFailed(err: Error)

  /** The `(*http.Response, error)` pair of a round trip. */
  datatype RoundTripResult = RoundTripResult(resp: Option<Response>, err: Option<Error>)

  const ContentLengthKey: string := "Content-Length"

  /** `contentLength, _ := strconv.Atoi(r.Header.Get("Content-Length"))`. */
  function ContentLength(fields: map<string, seq<string>>): (n: int)
    ensures ContentLengthKey !in fields ==> n == 0
    ensures Strconv.Unparsable(HeaderGet(fields, ContentLengthKey)) ==> n == 0
  {
    Strconv.Atoi(HeaderGet(fields, ContentLengthKey))
  }

  /** The guard both traced transports put around reading the body:
      `r.Body != nil && contentLength < MaxContentLength`. */
  predicate CapturesBody(body: Body, fields: map<string, seq<string>>, limit: int) {
    body != NilBody && ContentLength(fields) < limit
  }

  /** A body whose length header is missing or unparsable counts as empty, so
      it is captured whatever its real size. */
  lemma UnknownLengthIsCaptured(body: Body, fields: map<string, seq<string>>, limit: int)
    requires body != NilBody && 0 < limit
    requires Strconv.Unparsable(HeaderGet(fields, ContentLengthKey))
    ensures CapturesBody(body, fields, limit)
  {
  }

  /** With a well-formed length header the guard compares the declared length
      with the limit: capture iff the length is below it. */
  lemma DeclaredLengthDecides(body: Body, fields: map<string, seq<string>>, n: int, limit: int)
    requires body != NilBody
    requires Strconv.MinInt64 <= n <= Strconv.MaxInt64
    requires ContentLengthKey in fields && fields[ContentLengthKey] != []
    requires fields[ContentLengthKey][0] == Strconv.FormatInt(n)
    ensures CapturesBody(body, fields, limit) <==> n < limit
  {
    Strconv.AtoiFormatInt(n);
  }

  /** A length header whose leading digits already overflow uint64 reads as
      the largest int64 whatever follows them, so the body is never captured. */
  lemma OverflowingLengthIsNotCaptured(body: Body, fields: map<string, seq<string>>, digits: string, rest: string, limit: int)
    requires Strconv.IsDecimal(digits) && Strconv.DecimalValue(digits) > Strconv.MaxUint64
    requires ContentLengthKey in fields && fields[ContentLengthKey] != []
    requires fields[ContentLengthKey][0] == digits + rest
    requires limit <= Strconv.MaxInt64
    ensures !CapturesBody(body, fields, limit)
  {
    Strconv.AtoiOverflowIgnoresRest(digits, rest);
  }
}
