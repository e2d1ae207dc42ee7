/** `ServerMiddleware` (net/http/server.go): each inbound request gets a span
    named after its method and the first segment of its path, a child of the
    caller's span when the request headers carry one; the handler runs with
    the span in its request context, and the response is tagged afterwards. */
module HttpServer {
  import opened Values
  import opened Http
  import opened Tracing
  import Strings

  const ResponseSizeTag: string := "http.response_body.size"

  /** The path part of an operation name: a slash and then the second piece
      of the path split at `/`, or a lone slash when there is no such piece. */
  function NormalizedPath(path: string): (p: string)
    ensures |p| >= 1 && p[0] == '/' && '/' !in p[1..]
  {
    var spath := Strings.Split(path, '/');
    Strings.SplitPiecesLackSep(path, '/');
    if |spath| <= 1 then "/" else "/" + spath[1]
  }

  /** `getOperationName`: the method, one space, then a slash followed by text
      without any further slash. */
  function OperationName(verb: string, path: string): (name: string)
    ensures |name| >= |verb| + 2
    ensures name[..|verb|] == verb && name[|verb|] == ' ' && name[|verb| + 1] == '/'
    ensures '/' !in name[|verb| + 2..]
  {
    var p := NormalizedPath(path);
    assert (verb + " " + p)[|verb| + 2..] == p[1..];
    verb + " " + p
  }

  /** The text after the first slash of a path, up to the next slash, by a
      definition that does not split. For a path with a leading slash this is
      its first segment; for "users/42" it is "42". */
  function SegmentAfterSlash(path: string): string {
    Strings.Before(Strings.After(path, '/'), '/')
  }

  /** The operation name keeps exactly the text after the path's first slash,
      up to the next one. */
  lemma OperationNameKeepsSegmentAfterSlash(verb: string, path: string)
    ensures OperationName(verb, path) == verb + " /" + SegmentAfterSlash(path)
  {
    Strings.SplitHasManyPieces(path, '/');
    if '/' in path {
      Strings.SplitSecondPiece(path, '/');
    } else {
      Strings.BeforeAfter(path, '/');
    }
  }

  /** A path without a slash, the empty path included, names the root. */
  lemma SlashlessPathNamesRoot(verb: string, path: string)
    requires '/' !in path
    ensures OperationName(verb, path) == verb + " /"
  {
    Strings.SplitWithoutSep(path, '/');
  }

  /** A path that starts with a segment followed by a slash (or nothing) names
      that segment, whatever comes after it. */
  lemma LeadingSegmentNamesOperation(verb: string, segment: string, rest: string)
    requires '/' !in segment
    requires rest == [] || rest[0] == '/'
    ensures OperationName(verb, "/" + segment + rest) == verb + " /" + segment
  {
    var path := "/" + segment + rest;
    OperationNameKeepsSegmentAfterSlash(verb, path);
    assert Strings.After(path, '/') == segment + rest by { assert path[1..] == segment + rest; }
    if rest == [] {
      Strings.BeforeAfter(segment, '/');
      assert segment + rest == segment;
    } else {
      assert segment + rest == segment + ['/'] + rest[1..];
      BeforeOfPrefix(segment, rest[1..]);
    }
  }

  lemma {:induction false} BeforeOfPrefix(a: string, b: string)
    requires '/' !in a
    ensures Strings.Before(a + ['/'] + b, '/') == a
    decreases |a|
  {
    if a != [] {
      BeforeOfPrefix(a[1..], b);
      assert (a + ['/'] + b)[1..] == a[1..] + ['/'] + b;
    }
  }

  /** Normalising is idempotent: the normalised path of a request names the
      same operation as the request itself. */
  lemma NormalizationIdempotent(verb: string, path: string)
    ensures NormalizedPath(NormalizedPath(path)) == NormalizedPath(path)
    ensures OperationName(verb, NormalizedPath(path)) == OperationName(verb, path)
  {
    var p := NormalizedPath(path);
    var segment := p[1..];
    assert p == "" + ['/'] + segment;
    Strings.SplitAtFirst("", segment, '/');
    Strings.SplitWithoutSep(segment, '/');
  }

  /** `/users/42` names `GET /users`. */
  lemma UsersExample()
    ensures OperationName("GET", "/users/42") == "GET /users"
  {
    assert "GET" + " /" + "users" == "GET /users";
    LeadingSegmentNamesOperation("GET", "users", "/42");
    assert "/" + "users" + "/42" == "/users/42";
  }

  /** `/users/42/profile` names the same operation as `/users/42`. */
  lemma NestedUsersExample()
    ensures OperationName("GET", "/users/42/profile") == "GET /users"
  {
    var rest := "/42/profile";
    assert "/" + "users" + rest == "/users/42/profile";
    assert "GET" + " /" + "users" == "GET /users";
    LeadingSegmentNamesOperation("GET", "users", rest);
  }

  /** The root path, which splits into two empty pieces, and the empty path,
      which splits into one, both name `GET /`. */
  lemma RootExample()
    ensures OperationName("GET", "/") == "GET /"
    ensures OperationName("GET", "") == "GET /"
  {
    LeadingSegmentNamesOperation("GET", "", "");
    assert "/" + "" + "" == "/";
    SlashlessPathNamesRoot("GET", "");
  }

  /** Go's integer `/`, which truncates toward zero. */
  function GoQuotient(a: int, b: int): int
    requires b > 0
  {
    if a >= 0 then a / b else -((-a) / b)
  }

  /** `GoQuotient` truncates toward zero: `q * b` lies between 0 and `a`,
      less than one `b` away from `a`. */
  lemma GoQuotientTruncates(a: int, b: int)
    requires b > 0
    ensures a >= 0 ==> 0 <= GoQuotient(a, b) * b <= a < GoQuotient(a, b) * b + b
    ensures a < 0 ==> GoQuotient(a, b) * b - b < a <= GoQuotient(a, b) * b <= 0
  {
    if a >= 0 {
      EuclidNonNegative(a, b);
    } else {
      EuclidNonNegative(-a, b);
      NegateProduct((-a) / b, b);
    }
  }

  /** On a non-negative dividend Dafny's `/` already truncates. */
  lemma EuclidNonNegative(a: int, b: int)
    requires a >= 0 && b > 0
    ensures 0 <= (a / b) * b <= a < (a / b) * b + b
  {
    var q, r := a / b, a % b;
    assert a == q * b + r && 0 <= r < b;
    assert 0 <= q;
    MulNonNegative(q, b);
  }

  lemma MulNonNegative(x: int, y: int)
    requires 0 <= x && 0 <= y
    ensures 0 <= x * y
  {
  }

  lemma NegateProduct(x: int, y: int)
    ensures (-x) * y == -(x * y)
  {
  }


  /** `rw.Status()/100 == 5`: the 5xx class of section 15.6 of RFC 9110, and
      nothing else, negative codes included. */
  function IsServerError(status: int): (isError: bool)
    ensures isError <==> 500 <= status <= 599
  {
    GoQuotient(status, 100) == 5
  }

  /** The tags `setHTTPTags` records once the handler has returned, all of
      them about the request's span. */
  function HttpTags(id: SpanId, r: Request, status: int, size: int): (evs: seq<Event>)
    ensures Inner(evs, id)
    ensures forall i :: 0 <= i < |evs| ==> evs[i].Tag?
  {
    [Tag(id, SpanKindTag, Str(SpanKindServer)),
     Tag(id, HttpMethodTag, Str(r.verb)),
     Tag(id, HttpUrlTag, Str(r.url.path)),
     Tag(id, PeerHostnameTag, Str(r.host)),
     Tag(id, HttpStatusCodeTag, Int(status))]
    + (if IsServerError(status) then [Tag(id, ErrorTag, Bool(true))] else [])
    + [Tag(id, ResponseSizeTag, Int(size))]
  }

  /** The span is marked as an error, once, exactly for a 5xx status; no
      other value is ever set under the error tag. */
  lemma ErrorTagIffServerError(id: SpanId, r: Request, status: int, size: int)
    ensures Tally(HttpTags(id, r, status, size), KeyIs(ErrorTag)) == if 500 <= status <= 599 then 1 else 0
    ensures Tally(HttpTags(id, r, status, size), Exactly(Tag(id, ErrorTag, Bool(true))))
         == if 500 <= status <= 599 then 1 else 0
  {
    var evs := HttpTags(id, r, status, size);
    if 500 <= status <= 599 {
      TallyOne(evs, KeyIs(ErrorTag), 5);
      TallyOne(evs, Exactly(Tag(id, ErrorTag, Bool(true))), 5);
    } else {
      TallyNone(evs, KeyIs(ErrorTag));
      TallyNone(evs, Exactly(Tag(id, ErrorTag, Bool(true))));
    }
  }

  /** The status, method and path are each recorded once. */
  lemma ResponseTagsRecorded(id: SpanId, r: Request, status: int, size: int)
    ensures Tally(HttpTags(id, r, status, size), KeyIs(HttpStatusCodeTag)) == 1
    ensures HttpTags(id, r, status, size)[4] == Tag(id, HttpStatusCodeTag, Int(status))
    ensures Tally(HttpTags(id, r, status, size), KeyIs(HttpMethodTag)) == 1
    ensures HttpTags(id, r, status, size)[1] == Tag(id, HttpMethodTag, Str(r.verb))
    ensures Tally(HttpTags(id, r, status, size), KeyIs(HttpUrlTag)) == 1
    ensures HttpTags(id, r, status, size)[2] == Tag(id, HttpUrlTag, Str(r.url.path))
  {
    var evs := HttpTags(id, r, status, size);
    TallyOne(evs, KeyIs(HttpStatusCodeTag), 4);
    TallyOne(evs, KeyIs(HttpMethodTag), 1);
    TallyOne(evs, KeyIs(HttpUrlTag), 2);
  }

  /** What `Extract` returned: the caller's span context, or an error. */
  datatype ExtractResult = Extracted(ctx: SpanId) | ExtractFailed(err: Error)

  /** What the wrapped handler did: wrote a response whose status and size the
      negroni writer reports, or panicked. */
  datatype HandlerResult = Served(status: int, size: int) | HandlerPanicked

  /** A handler panic propagates to the caller; nothing else stops a request. */
  datatype ServeOutcome = Completed | Panicked

  /** The parent a server span gets: the extracted context, or none. */
  function ServerParent(extract: ExtractResult): Option<SpanId> {
    if extract.Extracted? then Some(extract.ctx) else None
  }

  /** One request through the middleware, with the span numbered `id`: the
      start, the handler call with the span in its context, the response tags
      when the handler returned, and the deferred finish. */
  function ServeRun(id: SpanId, r: Request, extract: ExtractResult, handler: HandlerResult): Run<ServeOutcome> {
    var tags := if handler.Served? then HttpTags(id, r, handler.status, handler.size) else [];
    Run([Start(id, OperationName(r.verb, r.url.path), ServerParent(extract)),
         Call(ServeHttp(r.(ctx := Some(id))))] + tags + [Finish(id)],
        if handler.HandlerPanicked? then Panicked else Completed)
  }

  /** Every request gets one span, started first and finished last whether or
      not the handler panics, named by `getOperationName` and parented by the
      extracted context; the handler runs once, with that span in its request
      context; a panic propagates, and leaves the span untagged. */
  lemma ServeRunBracketed(id: SpanId, r: Request, extract: ExtractResult, handler: HandlerResult)
    ensures Bracketed(ServeRun(id, r, extract, handler).events, id,
                      OperationName(r.verb, r.url.path), ServerParent(extract))
    ensures ServeRun(id, r, extract, handler).events[1] == Call(ServeHttp(r.(ctx := Some(id))))
    ensures Tally(ServeRun(id, r, extract, handler).events, OfKind(CallKind)) == 1
    ensures ServeRun(id, r, extract, handler).outcome.Panicked? <==> handler.HandlerPanicked?
    ensures handler.HandlerPanicked? ==> Tally(ServeRun(id, r, extract, handler).events, OfKind(TagKind)) == 0
  {
    var name := OperationName(r.verb, r.url.path);
    var call := [Call(ServeHttp(r.(ctx := Some(id))))];
    var tags := if handler.Served? then HttpTags(id, r, handler.status, handler.size) else [];
    var evs := ServeRun(id, r, extract, handler).events;
    assert evs == [Start(id, name, ServerParent(extract))] + (call + tags) + [Finish(id)];
    Bracket(id, name, ServerParent(extract), call + tags);
    TallyOne(evs, OfKind(CallKind), 1);
    if handler.HandlerPanicked? {
      TallyNone(evs, OfKind(TagKind));
    }
  }

  /** Every response tag comes after the handler call: the run is the start,
      the call, and then the tags of `setHTTPTags` (none if the handler
      panicked) before the finish. */
  lemma TagsFollowHandler(id: SpanId, r: Request, extract: ExtractResult, handler: HandlerResult)
    ensures forall i :: (0 <= i < |ServeRun(id, r, extract, handler).events| &&
                         ServeRun(id, r, extract, handler).events[i].Tag?) ==> i >= 2
    ensures handler.Served? ==>
      ServeRun(id, r, extract, handler).events[2..|ServeRun(id, r, extract, handler).events| - 1]
        == HttpTags(id, r, handler.status, handler.size)
  {
  }

  /** A served request is marked as an error exactly for a 5xx status. */
  lemma ServedErrorIffServerError(id: SpanId, r: Request, extract: ExtractResult, status: int, size: int)
    ensures Tally(ServeRun(id, r, extract, Served(status, size)).events, KeyIs(ErrorTag))
         == if 500 <= status <= 599 then 1 else 0
  {
    var evs := ServeRun(id, r, extract, Served(status, size)).events;
    var tags := HttpTags(id, r, status, size);
    var head := evs[..2];
    assert evs == head + tags + [Finish(id)];
    ErrorTagIffServerError(id, r, status, size);
    TallyNone(head, KeyIs(ErrorTag));
    TallyNone([Finish(id)], KeyIs(ErrorTag));
    TallyAppend(head, tags, KeyIs(ErrorTag));
    TallyAppend(head + tags, [Finish(id)], KeyIs(ErrorTag));
  }

  /** An extraction failure changes nothing but the parent: the handler still
      runs, with the same request, and the request ends the same way. */
  lemma ExtractionFailureIsHarmless(id: SpanId, r: Request, ctx: SpanId, err: Error, handler: HandlerResult)
    ensures ServeRun(id, r, ExtractFailed(err), handler).events[1..]
         == ServeRun(id, r, Extracted(ctx), handler).events[1..]
    ensures ServeRun(id, r, ExtractFailed(err), handler).outcome
         == ServeRun(id, r, Extracted(ctx), handler).outcome
    ensures ServeRun(id, r, ExtractFailed(err), handler).events[0].parent == None
  {
  }

  /** `setHTTPTags`. */
  method SetHttpTags(t: Tracer, id: SpanId, r: Request, status: int, size: int)
    requires t.Valid() && id < t.nextId
    modifies t`log
    ensures t.Valid()
    ensures t.log == old(t.log) + HttpTags(id, r, status, size)
  {
    t.SetTag(id, SpanKindTag, Str(SpanKindServer));
    t.SetTag(id, HttpMethodTag, Str(r.verb));
    t.SetTag(id, HttpUrlTag, Str(r.url.path));
    t.SetTag(id, PeerHostnameTag, Str(r.host));
    t.SetTag(id, HttpStatusCodeTag, Int(status));
    if IsServerError(status) {
      t.SetTag(id, ErrorTag, Bool(true));
    }
    t.SetTag(id, ResponseSizeTag, Int(size));
  }

  /** The handler `ServerMiddleware` returns, applied to one request. The
      deferred `Finish` runs on both exits, the panicking one included. */
  method ServeTraced(t: Tracer, r: Request, extract: ExtractResult, handler: HandlerResult)
    returns (outcome: ServeOutcome)
    requires t.Valid()
    modifies t
    ensures t.Valid() && t.nextId == old(t.nextId) + 1
    ensures t.log == old(t.log) + ServeRun(old(t.nextId), r, extract, handler).events
    ensures outcome == ServeRun(old(t.nextId), r, extract, handler).outcome
  {
    // the extraction error is discarded; a failed extraction gives no parent
    var parent := if extract.Extracted? then Some(extract.ctx) else None;
    ghost var log0 := t.log;
    var id := t.StartSpan(OperationName(r.verb, r.url.path), parent);
    t.Record(ServeHttp(r.(ctx := Some(id))));
    ghost var head := [Start(id, OperationName(r.verb, r.url.path), parent), Call(ServeHttp(r.(ctx := Some(id))))];
    assert t.log == log0 + head;
    if handler.HandlerPanicked? {
      t.Finish(id);
      assert t.log == log0 + (head + [] + [Finish(id)]);
      return Panicked;
    }
    SetHttpTags(t, id, r, handler.status, handler.size);
    t.Finish(id);
    assert t.log == log0 + (head + HttpTags(id, r, handler.status, handler.size) + [Finish(id)]);
    outcome := Completed;
  }
}
