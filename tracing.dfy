/** The tracer every wrapper talks to, modelled as an event log. The wrappers
    reach the tracer through `opentracing.GlobalTracer()`; here it is passed
    in explicitly. Calls the wrappers make to the code they decorate (the HTTP
    transport, the HTTP handler, the redis connection) are logged as `Call`
    events, so that one sequence records everything a wrapper did, in order. */
module Tracing {
  import opened Values
  import opened Http

  // Tag names of opentracing-go's `ext` package.
  const HttpMethodTag: string := "http.method"
  const HttpUrlTag: string := "http.url"
  const HttpStatusCodeTag: string := "http.status_code"
  const DbStatementTag: string := "db.statement"
  const ErrorTag: string := "error"
  const SpanKindTag: string := "span.kind"
  const PeerHostnameTag: string := "peer.hostname"
  const SpanKindServer: string := "server"

  /** A call into the decorated code. */
  datatype Invocation =
    | RoundTripCall(req: Request)
    | ServeHttp(req: Request)
    | ConnDo(cmd: string, args: seq<Value>)
    | ConnSend(cmd: string, args: seq<Value>)
    | ConnFlush
    | ConnReceive
    | ConnClose
    | ConnErr

  datatype Event =
    | Start(span: SpanId, name: string, parent: Option<SpanId>)
    | Tag(span: SpanId, key: string, value: Value)
    | Inject(span: SpanId)
    | Finish(span: SpanId)
    | Call(call: Invocation)

  datatype Kind = StartKind | TagKind | InjectKind | FinishKind | CallKind

  function KindOf(e: Event): Kind {
    match e
    case Start(_, _, _) => StartKind
    case Tag(_, _, _) => TagKind
    case Inject(_) => InjectKind
    case Finish(_) => FinishKind
    case Call(_) => CallKind
  }

  /** A question asked of each event of a log: is it of this kind, is it
      exactly this event, is it a tag under this key? */
  datatype Query = OfKind(kind: Kind) | Exactly(event: Event) | KeyIs(key: string)

  predicate Matches(e: Event, q: Query) {
    match q
    case OfKind(k) => KindOf(e) == k
    case Exactly(e') => e == e'
    case KeyIs(key) => e.Tag? && e.key == key
  }

  /** The number of events of `evs` that match `q`. */
  function Tally(evs: seq<Event>, q: Query): nat
    decreases |evs|
  {
    if evs == [] then 0 else (if Matches(evs[0], q) then 1 else 0) + Tally(evs[1..], q)
  }

  lemma {:induction false} TallyAppend(a: seq<Event>, b: seq<Event>, q: Query)
    ensures Tally(a + b, q) == Tally(a, q) + Tally(b, q)
    decreases |a|
  {
    if a == [] {
      assert a + b == b;
    } else {
      TallyAppend(a[1..], b, q);
      assert (a + b)[1..] == a[1..] + b;
    }
  }

  /** No event matches: the tally is zero. */
  lemma {:induction false} TallyNone(evs: seq<Event>, q: Query)
    requires forall i :: 0 <= i < |evs| ==> !Matches(evs[i], q)
    ensures Tally(evs, q) == 0
    decreases |evs|
  {
    if evs != [] {
      TallyNone(evs[1..], q);
    }
  }

  /** Exactly the event at position `j` matches: the tally is one. */
  lemma TallyOne(evs: seq<Event>, q: Query, j: nat)
    requires j < |evs| && Matches(evs[j], q)
    requires forall i :: 0 <= i < |evs| && i != j ==> !Matches(evs[i], q)
    ensures Tally(evs, q) == 1
  {
    var before, after := evs[..j], evs[j + 1..];
    assert evs == before + [evs[j]] + after;
    TallyNone(before, q);
    TallyNone(after, q);
    TallyAppend(before, [evs[j]], q);
    TallyAppend(before + [evs[j]], after, q);
  }

  /** Every span event in `evs` is about span `id`. */
  predicate About(evs: seq<Event>, id: SpanId) {
    forall i :: 0 <= i < |evs| && !evs[i].Call? ==> evs[i].span == id
  }

  /** What may happen inside a span's life: tags, injections and calls about
      it, but no start and no finish. */
  predicate Inner(evs: seq<Event>, id: SpanId) {
    forall i :: 0 <= i < |evs| ==> !evs[i].Start? && !evs[i].Finish? && (evs[i].Call? || evs[i].span == id)
  }

  /** The life of one span: it is started first, finished last, and started
      and finished exactly once; everything in between is about it. */
  ghost predicate Bracketed(evs: seq<Event>, id: SpanId, name: string, parent: Option<SpanId>) {
    |evs| >= 2 &&
    evs[0] == Start(id, name, parent) &&
    evs[|evs| - 1] == Finish(id) &&
    Tally(evs, OfKind(StartKind)) == 1 &&
    Tally(evs, OfKind(FinishKind)) == 1 &&
    About(evs, id)
  }

  /** A start, a middle that neither starts nor finishes a span, and a finish
      make one bracketed span: the shape `defer span.Finish()` gives every
      exit path. */
  lemma Bracket(id: SpanId, name: string, parent: Option<SpanId>, middle: seq<Event>)
    requires Inner(middle, id)
    ensures Bracketed([Start(id, name, parent)] + middle + [Finish(id)], id, name, parent)
  {
    var evs := [Start(id, name, parent)] + middle + [Finish(id)];
    TallyOne(evs, OfKind(StartKind), 0);
    TallyOne(evs, OfKind(FinishKind), |evs| - 1);
  }

  lemma InnerAppend(a: seq<Event>, b: seq<Event>, id: SpanId)
    requires Inner(a, id) && Inner(b, id)
    ensures Inner(a + b, id)
  {
    forall i | 0 <= i < |a + b|
      ensures !(a + b)[i].Start? && !(a + b)[i].Finish? && ((a + b)[i].Call? || (a + b)[i].span == id)
    {
      if i >= |a| {
        assert (a + b)[i] == b[i - |a|];
      }
    }
  }

  /** Counting over a bracketed span: the start and the finish add nothing to
      a question they do not match. */
  lemma TallyInside(id: SpanId, name: string, parent: Option<SpanId>, front: seq<Event>, back: seq<Event>, q: Query)
    requires !Matches(Start(id, name, parent), q) && !Matches(Finish(id), q)
    ensures Tally([Start(id, name, parent)] + (front + back) + [Finish(id)], q) == Tally(front, q) + Tally(back, q)
  {
    var s, f := [Start(id, name, parent)], [Finish(id)];
    TallyAppend(front, back, q);
    TallyAppend(s, front + back, q);
    TallyAppend(s + (front + back), f, q);
  }

  /** An observed run of a wrapper: the events it logged and what it returned. */
  datatype Run<O> = Run(events: seq<Event>, outcome: O)

  /** What `Inject` did with the request header: the fields it wrote, or the
      error it returned. */
  datatype InjectResult = Injected(fields: map<string, seq<string>>) | InjectFailed(err: Error)

  class Tracer {
    /** Everything recorded so far, oldest first. */
    var log: seq<Event>
    /** The identity the next span will get. */
    var nextId: SpanId

    /** Span identities are handed out in order, so every span the log mentions
        is older than the next one. */
    ghost predicate Valid()
      reads this
    {
      forall i :: 0 <= i < |log| && !log[i].Call? ==> log[i].span < nextId
    }

    constructor ()
      ensures Valid() && log == [] && nextId == 0
    {
      log := [];
      nextId := 0;
    }

    /** `StartSpan` / `StartSpanFromContext`: a new span, a child of `parent`
        when there is one, a root otherwise. */
    method StartSpan(name: string, parent: Option<SpanId>) returns (id: SpanId)
      requires Valid()
      modifies this
      ensures Valid()
      ensures id == old(nextId) && nextId == id + 1
      ensures log == old(log) + [Start(id, name, parent)]
    {
      id := nextId;
      log := log + [Start(id, name, parent)];
      nextId := nextId + 1;
    }

    method SetTag(id: SpanId, key: string, value: Value)
      requires Valid() && id < nextId
      modifies this`log
      ensures Valid()
      ensures log == old(log) + [Tag(id, key, value)]
    {
      log := log + [Tag(id, key, value)];
    }

    method Finish(id: SpanId)
      requires Valid() && id < nextId
      modifies this`log
      ensures Valid()
      ensures log == old(log) + [Event.Finish(id)]
    {
      log := log + [Event.Finish(id)];
    }

    /** `Inject(span.Context(), HTTPHeaders, carrier)`: on success the span's
        context is written into the header the carrier wraps. */
    method Inject(id: SpanId, header: Header, result: InjectResult) returns (err: Option<Error>)
      requires Valid() && id < nextId
      modifies this`log, header
      ensures Valid()
      ensures log == old(log) + [Event.Inject(id)]
      ensures result.Injected? ==> err == None && header.fields == old(header.fields) + result.fields
      ensures result.InjectFailed? ==> err == Some(result.err) && header.fields == old(header.fields)
    {
      log := log + [Event.Inject(id)];
      if result.Injected? {
        header.fields := header.fields + result.fields;
        err := None;
      } else {
        err := Some(result.err);
      }
    }

    /** Records a call into the decorated code. */
    method Record(call: Invocation)
      requires Valid()
      modifies this`log
      ensures Valid()
      ensures log == old(log) + [Call(call)]
    {
      log := log + [Call(call)];
    }
  }
}
