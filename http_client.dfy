/** `TracedTransport.RoundTrip` (net/http/client.go): every outgoing request
    gets a span named "http.request", a child of the span in the request's
    context; the method and URL are tagged, a small enough body is read,
    tagged and put back, the span context is injected into the request
    headers, and the request is handed to the underlying `http.Transport`. */
module HttpClient {
  import opened Values
  import opened Http
  import opened Tracing

  /** `MaxContentLength = 1 << 16`: a body whose declared length is below it
      is captured. */
  const MaxContentLength: int := 0x1_0000

  const ClientSpanName: string := "http.request"
  const HttpErrorTag: string := "http.error"

  /** What the embedded `*http.Transport` returned. It answers with a response
      or with an error, and with a nil response whenever it returns an error. */
  datatype TransportResult = Responded(resp: Response) | Failed(err: Error)

  /** How `RoundTrip` ends: it returns a `(*http.Response, error)` pair, or it
      panics on a nil-pointer dereference. */
  datatype ClientOutcome = Returned(resp: Option<Response>, err: Option<Error>) | NilDereference

  /** Where the code before the inner round trip leaves the request: ready to
      send (as rewritten), or abandoned with an error. */
  datatype Prepared = Ready(req: Request) | Abandoned(err: Error)

  /** Whether the body is read, given the header fields at the time of the call. */
  predicate Captures(r: Request, fields: map<string, seq<string>>) {
    CapturesBody(r.body, fields, MaxContentLength)
  }

  /** Whether the request gets as far as `Inject`: only a failed body read stops it before. */
  predicate ReachesInject(r: Request, fields: map<string, seq<string>>, read: ReadResult) {
    !(Captures(r, fields) && read.ReadFailed?)
  }

  /** The request the inner transport gets: the caller's request with the span
      in its context and, when the body was captured, the buffered copy of it. */
  function Forwarded(id: SpanId, r: Request, fields: map<string, seq<string>>, read: ReadResult): (fwd: Request)
    requires ReachesInject(r, fields, read)
    ensures fwd.ctx == Some(id)
    ensures fwd.verb == r.verb && fwd.url == r.url && fwd.host == r.host && fwd.header == r.header
    ensures Captures(r, fields) ==> fwd.body == Buffered(read.data)
    ensures !Captures(r, fields) ==> fwd.body == r.body
  {
    r.(ctx := Some(id), body := if Captures(r, fields) then Buffered(read.data) else r.body)
  }

  /** Lines 31-48 of the round trip, after the span is started: the method and
      URL tags, the body capture, and the injection. */
  function Prepare(id: SpanId, r: Request, fields: map<string, seq<string>>, read: ReadResult, inject: InjectResult)
    : (run: Run<Prepared>)
    ensures Inner(run.events, id)
  {
    var tags := [Tag(id, HttpMethodTag, Str(r.verb)), Tag(id, HttpUrlTag, Str(r.url.text))];
    if !ReachesInject(r, fields, read) then
      Run(tags, Abandoned(read.err))
    else
      var captured := if Captures(r, fields) then [Tag(id, DbStatementTag, Str(BytesToString(read.data)))] else [];
      if inject.InjectFailed? then
        Run(tags + captured + [Event.Inject(id), Tag(id, ErrorTag, Bool(true))], Abandoned(inject.err))
      else
        Run(tags + captured + [Event.Inject(id)], Ready(Forwarded(id, r, fields, read)))
  }

  /** Lines 51-57 as written: the inner round trip, the error tags when it
      fails, and then `resp.StatusCode`, which dereferences the nil response a
      failed transport returns. */
  function Exchange(id: SpanId, req: Request, transport: TransportResult): (run: Run<ClientOutcome>)
    ensures Inner(run.events, id)
  {
    var call := [Call(RoundTripCall(req))];
    match transport
    case Responded(resp) =>
      Run(call + [Tag(id, HttpStatusCodeTag, Int(resp.statusCode))], Returned(Some(resp), None))
    case Failed(err) =>
      Run(call + [Tag(id, HttpErrorTag, Str(err.message)), Tag(id, ErrorTag, Bool(true))], NilDereference)
  }

  /** Lines 51-57 with the status tagged only when there is a response: the
      transport's answer is passed back unchanged. */
  function ExchangeGuarded(id: SpanId, req: Request, transport: TransportResult): (run: Run<ClientOutcome>)
    ensures Inner(run.events, id)
  {
    var call := [Call(RoundTripCall(req))];
    match transport
    case Responded(resp) =>
      Run(call + [Tag(id, HttpStatusCodeTag, Int(resp.statusCode))], Returned(Some(resp), None))
    case Failed(err) =>
      Run(call + [Tag(id, HttpErrorTag, Str(err.message)), Tag(id, ErrorTag, Bool(true))], Returned(None, Some(err)))
  }

  /** The outcome of an abandoned request: a nil response and the error. */
  function Abandon(err: Error): Run<ClientOutcome> {
    Run([], Returned(None, Some(err)))
  }

  /** One call of `RoundTrip` as written, with the span numbered `id`; `fields`
      is what the request header holds when the call starts. */
  function ClientRun(id: SpanId, r: Request, fields: map<string, seq<string>>, read: ReadResult,
                     inject: InjectResult, transport: TransportResult): Run<ClientOutcome>
  {
    var prep := Prepare(id, r, fields, read, inject);
    var rest := if prep.outcome.Ready? then Exchange(id, prep.outcome.req, transport) else Abandon(prep.outcome.err);
    Run([Start(id, ClientSpanName, r.ctx)] + (prep.events + rest.events) + [Finish(id)], rest.outcome)
  }

  /** One call of the corrected `RoundTrip`. */
  function GuardedClientRun(id: SpanId, r: Request, fields: map<string, seq<string>>, read: ReadResult,
                            inject: InjectResult, transport: TransportResult): Run<ClientOutcome>
  {
    var prep := Prepare(id, r, fields, read, inject);
    var rest := if prep.outcome.Ready? then ExchangeGuarded(id, prep.outcome.req, transport) else Abandon(prep.outcome.err);
    Run([Start(id, ClientSpanName, r.ctx)] + (prep.events + rest.events) + [Finish(id)], rest.outcome)
  }

  /** The header after the call: the injected fields are added when, and only
      when, `Inject` is reached and succeeds. */
  function HeaderAfter(r: Request, fields: map<string, seq<string>>, read: ReadResult, inject: InjectResult)
    : map<string, seq<string>>
  {
    if ReachesInject(r, fields, read) && inject.Injected? then fields + inject.fields else fields
  }

  /** Whatever happens, even the panic, the span is started first, finished
      last (by the deferred `Finish`), once each, as a child of the span in the
      request's context, and everything logged in between is about it. */
  lemma ClientSpanBracketed(id: SpanId, r: Request, fields: map<string, seq<string>>, read: ReadResult,
                            inject: InjectResult, transport: TransportResult)
    ensures Bracketed(ClientRun(id, r, fields, read, inject, transport).events, id, ClientSpanName, r.ctx)
  {
    var prep := Prepare(id, r, fields, read, inject);
    var rest := if prep.outcome.Ready? then Exchange(id, prep.outcome.req, transport) else Abandon(prep.outcome.err);
    InnerAppend(prep.events, rest.events, id);
    Bracket(id, ClientSpanName, r.ctx, prep.events + rest.events);
  }

  /** The same holds of the corrected round trip. */
  lemma GuardedSpanBracketed(id: SpanId, r: Request, fields: map<string, seq<string>>, read: ReadResult,
                             inject: InjectResult, transport: TransportResult)
    ensures Bracketed(GuardedClientRun(id, r, fields, read, inject, transport).events, id, ClientSpanName, r.ctx)
  {
    var prep := Prepare(id, r, fields, read, inject);
    var rest := if prep.outcome.Ready? then ExchangeGuarded(id, prep.outcome.req, transport) else Abandon(prep.outcome.err);
    InnerAppend(prep.events, rest.events, id);
    Bracket(id, ClientSpanName, r.ctx, prep.events + rest.events);
  }

  /** The method and the URL are the first two things tagged. */
  lemma MethodAndUrlTaggedFirst(id: SpanId, r: Request, fields: map<string, seq<string>>, read: ReadResult,
                                inject: InjectResult, transport: TransportResult)
    ensures ClientRun(id, r, fields, read, inject, transport).events[1] == Tag(id, HttpMethodTag, Str(r.verb))
    ensures ClientRun(id, r, fields, read, inject, transport).events[2] == Tag(id, HttpUrlTag, Str(r.url.text))
  {
  }

  /** The body is tagged, once, exactly when the guard lets it be read and the
      read succeeds; the tag holds the bytes read, as a string. */
  lemma BodyTaggedIffCaptured(id: SpanId, r: Request, fields: map<string, seq<string>>, read: ReadResult,
                              inject: InjectResult, transport: TransportResult)
    ensures Tally(ClientRun(id, r, fields, read, inject, transport).events, KeyIs(DbStatementTag))
         == if Captures(r, fields) && read.ReadOk? then 1 else 0
    ensures Captures(r, fields) && read.ReadOk? ==>
      ClientRun(id, r, fields, read, inject, transport).events[3]
        == Tag(id, DbStatementTag, Str(BytesToString(read.data)))
  {
    var prep := Prepare(id, r, fields, read, inject);
    var rest := if prep.outcome.Ready? then Exchange(id, prep.outcome.req, transport) else Abandon(prep.outcome.err);
    var q := KeyIs(DbStatementTag);
    TallyInside(id, ClientSpanName, r.ctx, prep.events, rest.events, q);
    TallyNone(rest.events, q);
    if Captures(r, fields) && read.ReadOk? {
      TallyOne(prep.events, q, 2);
    } else {
      TallyNone(prep.events, q);
    }
  }

  /** A failed body read ends the call at once: the span holds only the method
      and URL tags, nothing is injected or sent, and the read error is returned. */
  lemma ReadFailureAbandons(id: SpanId, r: Request, fields: map<string, seq<string>>, read: ReadResult,
                            inject: InjectResult, transport: TransportResult)
    requires Captures(r, fields) && read.ReadFailed?
    ensures ClientRun(id, r, fields, read, inject, transport)
         == Run([Start(id, ClientSpanName, r.ctx), Tag(id, HttpMethodTag, Str(r.verb)),
                 Tag(id, HttpUrlTag, Str(r.url.text)), Finish(id)],
                Returned(None, Some(read.err)))
  {
    var prep := Prepare(id, r, fields, read, inject);
    assert prep.events + Abandon(read.err).events == prep.events;
  }

  /** A failed injection marks the span as an error, once, and returns the
      injection error without calling the transport. */
  lemma InjectFailureAbandons(id: SpanId, r: Request, fields: map<string, seq<string>>, read: ReadResult,
                              inject: InjectResult, transport: TransportResult)
    requires ReachesInject(r, fields, read) && inject.InjectFailed?
    ensures Tally(ClientRun(id, r, fields, read, inject, transport).events, OfKind(CallKind)) == 0
    ensures Tally(ClientRun(id, r, fields, read, inject, transport).events, KeyIs(ErrorTag)) == 1
    ensures Tally(ClientRun(id, r, fields, read, inject, transport).events, Exactly(Tag(id, ErrorTag, Bool(true)))) == 1
    ensures ClientRun(id, r, fields, read, inject, transport).outcome == Returned(None, Some(inject.err))
  {
    var prep := Prepare(id, r, fields, read, inject);
    var n := |prep.events|;
    var marked := Exactly(Tag(id, ErrorTag, Bool(true)));
    TallyInside(id, ClientSpanName, r.ctx, prep.events, [], OfKind(CallKind));
    TallyInside(id, ClientSpanName, r.ctx, prep.events, [], KeyIs(ErrorTag));
    TallyInside(id, ClientSpanName, r.ctx, prep.events, [], marked);
    TallyNone([], OfKind(CallKind));
    TallyNone([], KeyIs(ErrorTag));
    TallyNone([], marked);
    TallyNone(prep.events, OfKind(CallKind));
    TallyOne(prep.events, KeyIs(ErrorTag), n - 1);
    TallyOne(prep.events, marked, n - 1);
  }


  /** Once the context is injected the transport is called exactly once, with
      the caller's request carrying the span in its context and, when it was
      captured, the buffered body. */
  lemma InjectedRequestForwarded(id: SpanId, r: Request, fields: map<string, seq<string>>, read: ReadResult,
                                 inject: InjectResult, transport: TransportResult)
    requires ReachesInject(r, fields, read) && inject.Injected?
    ensures Tally(ClientRun(id, r, fields, read, inject, transport).events, OfKind(CallKind)) == 1
    ensures Tally(ClientRun(id, r, fields, read, inject, transport).events,
                  Exactly(Call(RoundTripCall(Forwarded(id, r, fields, read))))) == 1
    ensures Forwarded(id, r, fields, read).header == r.header
  {
    var prep := Prepare(id, r, fields, read, inject);
    var rest := Exchange(id, prep.outcome.req, transport);
    var call := Call(RoundTripCall(Forwarded(id, r, fields, read)));
    TallyInside(id, ClientSpanName, r.ctx, prep.events, rest.events, OfKind(CallKind));
    TallyInside(id, ClientSpanName, r.ctx, prep.events, rest.events, Exactly(call));
    TallyNone(prep.events, OfKind(CallKind));
    TallyNone(prep.events, Exactly(call));
    TallyOne(rest.events, OfKind(CallKind), 0);
    TallyOne(rest.events, Exactly(call), 0);
  }

  /** As written, every failure of the transport ends in a panic on
      `resp.StatusCode` instead of returning the transport's error, though the
      span has been given the error's message under "http.error" and marked
      with `error` = true, has no status tag, and is finished. */
  lemma TransportFailurePanics(id: SpanId, r: Request, fields: map<string, seq<string>>, read: ReadResult,
                               inject: InjectResult, err: Error)
    requires ReachesInject(r, fields, read) && inject.Injected?
    ensures ClientRun(id, r, fields, read, inject, Failed(err)).outcome == NilDereference
    ensures Tally(ClientRun(id, r, fields, read, inject, Failed(err)).events,
                  Exactly(Tag(id, HttpErrorTag, Str(err.message)))) == 1
    ensures Tally(ClientRun(id, r, fields, read, inject, Failed(err)).events,
                  Exactly(Tag(id, ErrorTag, Bool(true)))) == 1
    ensures Tally(ClientRun(id, r, fields, read, inject, Failed(err)).events, KeyIs(HttpStatusCodeTag)) == 0
    ensures GuardedClientRun(id, r, fields, read, inject, Failed(err)).outcome == Returned(None, Some(err))
  {
    var prep := Prepare(id, r, fields, read, inject);
    var rest := Exchange(id, prep.outcome.req, Failed(err));
    var message := Exactly(Tag(id, HttpErrorTag, Str(err.message)));
    var marked := Exactly(Tag(id, ErrorTag, Bool(true)));
    var status := KeyIs(HttpStatusCodeTag);
    TallyInside(id, ClientSpanName, r.ctx, prep.events, rest.events, message);
    TallyInside(id, ClientSpanName, r.ctx, prep.events, rest.events, marked);
    TallyInside(id, ClientSpanName, r.ctx, prep.events, rest.events, status);
    TallyNone(prep.events, message);
    TallyNone(prep.events, marked);
    TallyNone(prep.events, status);
    TallyOne(rest.events, message, 1);
    TallyOne(rest.events, marked, 2);
    TallyNone(rest.events, status);
  }


  /** The corrected round trip returns whatever the transport returned, tags
      the status exactly when there is a response and marks the span as an
      error exactly when the transport failed. */
  lemma GuardedPassesTransportResult(id: SpanId, r: Request, fields: map<string, seq<string>>, read: ReadResult,
                                     inject: InjectResult, transport: TransportResult)
    requires ReachesInject(r, fields, read) && inject.Injected?
    ensures GuardedClientRun(id, r, fields, read, inject, transport).outcome
         == if transport.Responded? then Returned(Some(transport.resp), None) else Returned(None, Some(transport.err))
    ensures Tally(GuardedClientRun(id, r, fields, read, inject, transport).events, KeyIs(HttpStatusCodeTag))
         == if transport.Responded? then 1 else 0
    ensures Tally(GuardedClientRun(id, r, fields, read, inject, transport).events, KeyIs(ErrorTag))
         == if transport.Failed? then 1 else 0
    ensures Tally(GuardedClientRun(id, r, fields, read, inject, transport).events, Exactly(Tag(id, ErrorTag, Bool(true))))
         == if transport.Failed? then 1 else 0
    ensures Tally(GuardedClientRun(id, r, fields, read, inject, transport).events, KeyIs(HttpErrorTag))
         == if transport.Failed? then 1 else 0
    ensures transport.Failed? ==>
      Tally(GuardedClientRun(id, r, fields, read, inject, transport).events,
            Exactly(Tag(id, HttpErrorTag, Str(transport.err.message)))) == 1
  {
    var prep := Prepare(id, r, fields, read, inject);
    var rest := ExchangeGuarded(id, prep.outcome.req, transport);
    var marked := Exactly(Tag(id, ErrorTag, Bool(true)));
    TallyInside(id, ClientSpanName, r.ctx, prep.events, rest.events, KeyIs(HttpStatusCodeTag));
    TallyInside(id, ClientSpanName, r.ctx, prep.events, rest.events, KeyIs(ErrorTag));
    TallyInside(id, ClientSpanName, r.ctx, prep.events, rest.events, marked);
    TallyInside(id, ClientSpanName, r.ctx, prep.events, rest.events, KeyIs(HttpErrorTag));
    TallyNone(prep.events, KeyIs(HttpStatusCodeTag));
    TallyNone(prep.events, KeyIs(ErrorTag));
    TallyNone(prep.events, marked);
    TallyNone(prep.events, KeyIs(HttpErrorTag));
    ExchangeGuardedTallies(id, prep.outcome.req, transport);
    if transport.Failed? {
      var message := Exactly(Tag(id, HttpErrorTag, Str(transport.err.message)));
      TallyInside(id, ClientSpanName, r.ctx, prep.events, rest.events, message);
      TallyNone(prep.events, message);
    }
  }

  /** The tags the guarded exchange records: the status, or the error message
      and the error mark. */
  lemma ExchangeGuardedTallies(id: SpanId, req: Request, transport: TransportResult)
    ensures Tally(ExchangeGuarded(id, req, transport).events, KeyIs(HttpStatusCodeTag)) == if transport.Responded? then 1 else 0
    ensures Tally(ExchangeGuarded(id, req, transport).events, KeyIs(ErrorTag)) == if transport.Failed? then 1 else 0
    ensures Tally(ExchangeGuarded(id, req, transport).events, Exactly(Tag(id, ErrorTag, Bool(true))))
         == if transport.Failed? then 1 else 0
    ensures Tally(ExchangeGuarded(id, req, transport).events, KeyIs(HttpErrorTag)) == if transport.Failed? then 1 else 0
    ensures transport.Failed? ==>
      Tally(ExchangeGuarded(id, req, transport).events, Exactly(Tag(id, HttpErrorTag, Str(transport.err.message)))) == 1
  {
    var evs := ExchangeGuarded(id, req, transport).events;
    var marked := Exactly(Tag(id, ErrorTag, Bool(true)));
    if transport.Responded? {
      TallyOne(evs, KeyIs(HttpStatusCodeTag), 1);
      TallyNone(evs, KeyIs(ErrorTag));
      TallyNone(evs, marked);
      TallyNone(evs, KeyIs(HttpErrorTag));
    } else {
      TallyNone(evs, KeyIs(HttpStatusCodeTag));
      TallyOne(evs, KeyIs(ErrorTag), 2);
      TallyOne(evs, marked, 2);
      TallyOne(evs, KeyIs(HttpErrorTag), 1);
      TallyOne(evs, Exactly(Tag(id, HttpErrorTag, Str(transport.err.message))), 1);
    }
  }



  /** The correction changes nothing when the transport answers. */
  lemma GuardAgreesOnResponse(id: SpanId, r: Request, fields: map<string, seq<string>>, read: ReadResult,
                              inject: InjectResult, resp: Response)
    ensures GuardedClientRun(id, r, fields, read, inject, Responded(resp))
         == ClientRun(id, r, fields, read, inject, Responded(resp))
  {
  }

  /** Only a successful injection writes to the caller's header. */
  lemma HeaderChangedOnlyByInjection(r: Request, fields: map<string, seq<string>>, read: ReadResult, inject: InjectResult)
    ensures HeaderAfter(r, fields, read, inject) != fields ==> ReachesInject(r, fields, read) && inject.Injected?
    ensures ReachesInject(r, fields, read) && inject.Injected? ==>
      forall k :: k in inject.fields ==> k in HeaderAfter(r, fields, read, inject) &&
                                         HeaderAfter(r, fields, read, inject)[k] == inject.fields[k]
  {
  }

  /** A body declared one byte below the limit is captured; one declared at the
      limit is not. */
  lemma LimitIsExclusive(body: Body, fields: map<string, seq<string>>, n: int)
    requires body != NilBody
    requires ContentLengthKey in fields && fields[ContentLengthKey] != []
    requires fields[ContentLengthKey][0] == Strconv.FormatInt(n)
    requires n == MaxContentLength - 1 || n == MaxContentLength
    ensures CapturesBody(body, fields, MaxContentLength) <==> n == MaxContentLength - 1
  {
    DeclaredLengthDecides(body, fields, n, MaxContentLength);
  }

  /** Lines 31-48, shared by both round trips. */
  method PrepareTraced(t: Tracer, id: SpanId, r: Request, read: ReadResult, inject: InjectResult)
    returns (prepared: Prepared)
    requires t.Valid() && id < t.nextId
    modifies t`log, r.header
    ensures t.Valid() && t.nextId == old(t.nextId)
    ensures t.log == old(t.log) + Prepare(id, r, old(r.header.fields), read, inject).events
    ensures prepared == Prepare(id, r, old(r.header.fields), read, inject).outcome
    ensures r.header.fields == HeaderAfter(r, old(r.header.fields), read, inject)
  {
    ghost var fields := r.header.fields;
    t.SetTag(id, HttpMethodTag, Str(r.verb));
    t.SetTag(id, HttpUrlTag, Str(r.url.text));
    var body := r.body;
    var contentLength := ContentLength(r.header.fields);
    if r.body != NilBody && contentLength < MaxContentLength {
      if read.ReadFailed? {
        return Abandoned(read.err);
      }
      t.SetTag(id, DbStatementTag, Str(BytesToString(read.data)));
      body := Buffered(read.data);
    }
    var err := t.Inject(id, r.header, inject);
    if err.Some? {
      t.SetTag(id, ErrorTag, Bool(true));
      return Abandoned(err.value);
    }
    prepared := Ready(r.(ctx := Some(id), body := body));
  }

  /** Lines 51-57 as written, after the request is prepared. */
  method ExchangeTraced(t: Tracer, id: SpanId, req: Request, transport: TransportResult)
    returns (outcome: ClientOutcome)
    requires t.Valid() && id < t.nextId
    modifies t`log
    ensures t.Valid()
    ensures t.log == old(t.log) + Exchange(id, req, transport).events
    ensures outcome == Exchange(id, req, transport).outcome
  {
    t.Record(RoundTripCall(req));
    match transport
    case Failed(err) =>
      t.SetTag(id, HttpErrorTag, Str(err.message));
      t.SetTag(id, ErrorTag, Bool(true));
      // `resp.StatusCode` on the nil response panics
      outcome := NilDereference;
    case Responded(resp) =>
      t.SetTag(id, HttpStatusCodeTag, Int(resp.statusCode));
      outcome := Returned(Some(resp), None);
  }

  /** Lines 51-57 with the status tag guarded by `resp != nil`. */
  method ExchangeGuardedTraced(t: Tracer, id: SpanId, req: Request, transport: TransportResult)
    returns (outcome: ClientOutcome)
    requires t.Valid() && id < t.nextId
    modifies t`log
    ensures t.Valid()
    ensures t.log == old(t.log) + ExchangeGuarded(id, req, transport).events
    ensures outcome == ExchangeGuarded(id, req, transport).outcome
  {
    t.Record(RoundTripCall(req));
    match transport
    case Failed(err) =>
      t.SetTag(id, HttpErrorTag, Str(err.message));
      t.SetTag(id, ErrorTag, Bool(true));
      outcome := Returned(None, Some(err));
    case Responded(resp) =>
      t.SetTag(id, HttpStatusCodeTag, Int(resp.statusCode));
      outcome := Returned(Some(resp), None);
  }

  /** `TracedTransport.RoundTrip` as written. The single `Finish` at the end is
      the deferred one, which runs on every exit, the panic included. */
  method RoundTrip(t: Tracer, r: Request, read: ReadResult, inject: InjectResult, transport: TransportResult)
    returns (outcome: ClientOutcome)
    requires t.Valid()
    modifies t, r.header
    ensures t.Valid() && t.nextId == old(t.nextId) + 1
    ensures t.log == old(t.log) + ClientRun(old(t.nextId), r, old(r.header.fields), read, inject, transport).events
    ensures outcome == ClientRun(old(t.nextId), r, old(r.header.fields), read, inject, transport).outcome
    ensures r.header.fields == HeaderAfter(r, old(r.header.fields), read, inject)
  {
    ghost var log0, fields := t.log, r.header.fields;
    var id := t.StartSpan(ClientSpanName, r.ctx);
    var prepared := PrepareTraced(t, id, r, read, inject);
    ghost var prep := Prepare(id, r, fields, read, inject).events;
    ghost var rest: Run<ClientOutcome>;
    ghost var log1 := t.log;
    if prepared.Abandoned? {
      outcome := Returned(None, Some(prepared.err));
      rest := Abandon(prepared.err);
    } else {
      outcome := ExchangeTraced(t, id, prepared.req, transport);
      rest := Exchange(id, prepared.req, transport);
    }
    assert t.log == log1 + rest.events;
    t.Finish(id);
    assert t.log == log0 + ([Start(id, ClientSpanName, r.ctx)] + (prep + rest.events) + [Finish(id)]);
  }

  /** `RoundTrip` with the status tagged only when the transport returned a response. */
  method RoundTripGuarded(t: Tracer, r: Request, read: ReadResult, inject: InjectResult, transport: TransportResult)
    returns (outcome: ClientOutcome)
    requires t.Valid()
    modifies t, r.header
    ensures t.Valid() && t.nextId == old(t.nextId) + 1
    ensures t.log == old(t.log) + GuardedClientRun(old(t.nextId), r, old(r.header.fields), read, inject, transport).events
    ensures outcome == GuardedClientRun(old(t.nextId), r, old(r.header.fields), read, inject, transport).outcome
    ensures r.header.fields == HeaderAfter(r, old(r.header.fields), read, inject)
  {
    ghost var log0, fields := t.log, r.header.fields;
    var id := t.StartSpan(ClientSpanName, r.ctx);
    var prepared := PrepareTraced(t, id, r, read, inject);
    ghost var prep := Prepare(id, r, fields, read, inject).events;
    ghost var rest: Run<ClientOutcome>;
    ghost var log1 := t.log;
    if prepared.Abandoned? {
      outcome := Returned(None, Some(prepared.err));
      rest := Abandon(prepared.err);
    } else {
      outcome := ExchangeGuardedTraced(t, id, prepared.req, transport);
      rest := ExchangeGuarded(id, prepared.req, transport);
    }
    assert t.log == log1 + rest.events;
    t.Finish(id);
    assert t.log == log0 + ([Start(id, ClientSpanName, r.ctx)] + (prep + rest.events) + [Finish(id)]);
  }
}
