/** `TracedTransport.RoundTrip` (github.com/olivere/elastic/elastic.go): every
    Elasticsearch request gets a span named "elastic.query" holding the
    method, path and query parameters and, when small enough, the body. No
    span context is injected and the transport's answer is returned as is. */
module Elastic {
  import opened Values
  import opened Http
  import opened Tracing

  /** `MaxContentLength = 1 << 16`, declared again by this package. */
  const MaxContentLength: int := 0x1_0000

  const QuerySpanName: string := "elastic.query"
  const MethodTag: string := "elasticsearch.method"
  const UrlTag: string := "elasticsearch.url"
  const ParamsTag: string := "elasticsearch.params"
  const BodyTag: string := "elasticsearch.body"

  predicate Captures(r: Request, fields: map<string, seq<string>>) {
    CapturesBody(r.body, fields, MaxContentLength)
  }

  /** The request the transport gets, when the body read did not fail. */
  function Forwarded(id: SpanId, r: Request, fields: map<string, seq<string>>, read: ReadResult): (fwd: Request)
    requires !(Captures(r, fields) && read.ReadFailed?)
    ensures fwd.ctx == Some(id)
    ensures fwd.verb == r.verb && fwd.url == r.url && fwd.host == r.host && fwd.header == r.header
    ensures Captures(r, fields) ==> fwd.body == Buffered(read.data)
    ensures !Captures(r, fields) ==> fwd.body == r.body
  {
    r.(ctx := Some(id), body := if Captures(r, fields) then Buffered(read.data) else r.body)
  }

  /** The three tags set before the body is looked at. */
  function RequestTags(id: SpanId, r: Request): seq<Event> {
    [Tag(id, MethodTag, Str(r.verb)), Tag(id, UrlTag, Str(r.url.path)), Tag(id, ParamsTag, Str(r.url.encodedQuery))]
  }

  /** Lines 32-43: the body capture and the transport call. */
  function Dispatch(id: SpanId, r: Request, fields: map<string, seq<string>>, read: ReadResult, transport: RoundTripResult)
    : (run: Run<RoundTripResult>)
    ensures Inner(run.events, id)
  {
    if Captures(r, fields) && read.ReadFailed? then
      Run([], RoundTripResult(None, Some(read.err)))
    else
      var captured := if Captures(r, fields) then [Tag(id, BodyTag, Bytes(read.data))] else [];
      Run(captured + [Call(RoundTripCall(Forwarded(id, r, fields, read)))], transport)
  }

  /** One call of `RoundTrip` with the span numbered `id`; `fields` is what the
      request header holds. */
  function QueryRun(id: SpanId, r: Request, fields: map<string, seq<string>>, read: ReadResult, transport: RoundTripResult)
    : Run<RoundTripResult>
  {
    var rest := Dispatch(id, r, fields, read, transport);
    Run([Start(id, QuerySpanName, r.ctx)] + (RequestTags(id, r) + rest.events) + [Finish(id)], rest.outcome)
  }

  /** Every path starts one "elastic.query" span, a child of the span in the
      request's context, and finishes it last, once. */
  lemma QuerySpanBracketed(id: SpanId, r: Request, fields: map<string, seq<string>>, read: ReadResult, transport: RoundTripResult)
    ensures Bracketed(QueryRun(id, r, fields, read, transport).events, id, QuerySpanName, r.ctx)
  {
    var rest := Dispatch(id, r, fields, read, transport);
    InnerAppend(RequestTags(id, r), rest.events, id);
    Bracket(id, QuerySpanName, r.ctx, RequestTags(id, r) + rest.events);
  }

  /** The method, path and parameters are tagged first, on every path. */
  lemma RequestTaggedFirst(id: SpanId, r: Request, fields: map<string, seq<string>>, read: ReadResult, transport: RoundTripResult)
    ensures QueryRun(id, r, fields, read, transport).events[1..4] == RequestTags(id, r)
  {
  }

  /** The body is tagged, once and as the bytes read, exactly when the guard
      lets it be read and the read succeeds. */
  lemma BodyTaggedIffCaptured(id: SpanId, r: Request, fields: map<string, seq<string>>, read: ReadResult, transport: RoundTripResult)
    ensures Tally(QueryRun(id, r, fields, read, transport).events, KeyIs(BodyTag))
         == if Captures(r, fields) && read.ReadOk? then 1 else 0
    ensures Captures(r, fields) && read.ReadOk? ==>
      QueryRun(id, r, fields, read, transport).events[4] == Tag(id, BodyTag, Bytes(read.data))
  {
    var rest := Dispatch(id, r, fields, read, transport);
    var q := KeyIs(BodyTag);
    TallyInside(id, QuerySpanName, r.ctx, RequestTags(id, r), rest.events, q);
    TallyNone(RequestTags(id, r), q);
    if Captures(r, fields) && read.ReadOk? {
      TallyOne(rest.events, q, 0);
    } else {
      TallyNone(rest.events, q);
    }
  }

  /** A failed body read returns the read error at once: only the three
      request tags are set and the transport is not called. */
  lemma ReadFailureAbandons(id: SpanId, r: Request, fields: map<string, seq<string>>, read: ReadResult, transport: RoundTripResult)
    requires Captures(r, fields) && read.ReadFailed?
    ensures QueryRun(id, r, fields, read, transport)
         == Run([Start(id, QuerySpanName, r.ctx)] + RequestTags(id, r) + [Finish(id)], RoundTripResult(None, Some(read.err)))
  {
    assert RequestTags(id, r) + [] == RequestTags(id, r);
  }

  /** Otherwise the transport is called once, with the request carrying the
      span and, when captured, the buffered body, and its response and error
      are returned unchanged. */
  lemma TransportResultPassedThrough(id: SpanId, r: Request, fields: map<string, seq<string>>, read: ReadResult, transport: RoundTripResult)
    requires !(Captures(r, fields) && read.ReadFailed?)
    ensures Tally(QueryRun(id, r, fields, read, transport).events, OfKind(CallKind)) == 1
    ensures Tally(QueryRun(id, r, fields, read, transport).events,
                  Exactly(Call(RoundTripCall(Forwarded(id, r, fields, read))))) == 1
    ensures QueryRun(id, r, fields, read, transport).outcome == transport
  {
    var rest := Dispatch(id, r, fields, read, transport);
    var call := Call(RoundTripCall(Forwarded(id, r, fields, read)));
    TallyInside(id, QuerySpanName, r.ctx, RequestTags(id, r), rest.events, OfKind(CallKind));
    TallyInside(id, QuerySpanName, r.ctx, RequestTags(id, r), rest.events, Exactly(call));
    TallyNone(RequestTags(id, r), OfKind(CallKind));
    TallyNone(RequestTags(id, r), Exactly(call));
    TallyOne(rest.events, OfKind(CallKind), |rest.events| - 1);
    TallyOne(rest.events, Exactly(call), |rest.events| - 1);
  }

  /** Unlike the plain HTTP transport, this one never injects the span context
      and never marks the span as an error. */
  lemma NoInjectionNoErrorTag(id: SpanId, r: Request, fields: map<string, seq<string>>, read: ReadResult, transport: RoundTripResult)
    ensures Tally(QueryRun(id, r, fields, read, transport).events, OfKind(InjectKind)) == 0
    ensures Tally(QueryRun(id, r, fields, read, transport).events, KeyIs(ErrorTag)) == 0
  {
    var evs := QueryRun(id, r, fields, read, transport).events;
    QuerySpanBracketed(id, r, fields, read, transport);
    TallyNone(evs, OfKind(InjectKind));
    TallyNone(evs, KeyIs(ErrorTag));
  }

  /** Lines 32-43, once the span is started and the request tagged. */
  method DispatchTraced(t: Tracer, id: SpanId, r: Request, read: ReadResult, transport: RoundTripResult)
    returns (result: RoundTripResult)
    requires t.Valid() && id < t.nextId
    modifies t`log
    ensures t.Valid()
    ensures t.log == old(t.log) + Dispatch(id, r, r.header.fields, read, transport).events
    ensures result == Dispatch(id, r, r.header.fields, read, transport).outcome
  {
    var contentLength := ContentLength(r.header.fields);
    var body := r.body;
    if r.body != NilBody && contentLength < MaxContentLength {
      if read.ReadFailed? {
        return RoundTripResult(None, Some(read.err));
      }
      t.SetTag(id, BodyTag, Bytes(read.data));
      body := Buffered(read.data);
    }
    t.Record(RoundTripCall(r.(ctx := Some(id), body := body)));
    result := transport;
  }

  /** `TracedTransport.RoundTrip`; the single `Finish` at the end is the
      deferred one, run on both exits. */
  method RoundTrip(t: Tracer, r: Request, read: ReadResult, transport: RoundTripResult)
    returns (result: RoundTripResult)
    requires t.Valid()
    modifies t
    ensures t.Valid() && t.nextId == old(t.nextId) + 1
    ensures t.log == old(t.log) + QueryRun(old(t.nextId), r, r.header.fields, read, transport).events
    ensures result == QueryRun(old(t.nextId), r, r.header.fields, read, transport).outcome
  {
    ghost var log0 := t.log;
    var id := t.StartSpan(QuerySpanName, r.ctx);
    t.SetTag(id, MethodTag, Str(r.verb));
    t.SetTag(id, UrlTag, Str(r.url.path));
    t.SetTag(id, ParamsTag, Str(r.url.encodedQuery));
    result := DispatchTraced(t, id, r, read, transport);
    ghost var rest := Dispatch(id, r, r.header.fields, read, transport).events;
    t.Finish(id);
    assert t.log == log0 + ([Start(id, QuerySpanName, r.ctx)] + (RequestTags(id, r) + rest) + [Finish(id)]);
  }
}
