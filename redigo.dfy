/** `TracedConn` and `ConnectTo` (github.com/garyburd/redigo/redis.go): a
    redis connection whose `Do` runs each command inside a span, and whose
    other methods hand straight through to the wrapped connection. */
module Redigo {
  import opened Values
  import opened Tracing
  import Strconv

  const NoArgumentsMessage: string := "otredigo: called redis.Conn.Do with no arguments"

  /** A `(reply interface{}, err error)` pair, `None` standing for nil. */
  datatype Reply = Reply(value: Option<Value>, err: Option<Error>)

  /** `fmt.Sprintf("redis.%s", cmdName)`. */
  function SpanName(cmd: string): string {
    "redis." + cmd
  }

  /** `fmt.Sprintf("redis.%s.Args", cmdName)`. */
  function ArgsTag(cmd: string): string {
    "redis." + cmd + ".Args"
  }

  /** The parent of a command's span: the span carried by a context passed as
      the first argument; a root span for anything else. */
  function CommandParent(args: seq<Value>): Option<SpanId>
    requires args != []
  {
    if args[0].Context? then args[0].span else None
  }

  /** One call of `Do` with the span numbered `id`, the wrapped connection
      answering `reply`. */
  function DoRun(id: SpanId, cmd: string, args: seq<Value>, reply: Reply): Run<Reply> {
    if args == [] then
      Run([], Reply(None, Some(Error(NoArgumentsMessage))))
    else
      Run([Start(id, SpanName(cmd), CommandParent(args)),
           Tag(id, ArgsTag(cmd), List(args)),
           Call(ConnDo(cmd, args)),
           Finish(id)],
          reply)
  }

  /** A call without arguments fails with no span and no command sent. */
  lemma EmptyCommandRejected(id: SpanId, cmd: string, reply: Reply)
    ensures DoRun(id, cmd, [], reply).events == []
    ensures DoRun(id, cmd, [], reply).outcome.value == None
    ensures DoRun(id, cmd, [], reply).outcome.err == Some(Error(NoArgumentsMessage))
  {
  }

  /** Every other call is one span, named after the command, started first and
      finished last. */
  lemma CommandSpanBracketed(id: SpanId, cmd: string, args: seq<Value>, reply: Reply)
    requires args != []
    ensures Bracketed(DoRun(id, cmd, args, reply).events, id, SpanName(cmd), CommandParent(args))
  {
    Bracket(id, SpanName(cmd), CommandParent(args), [Tag(id, ArgsTag(cmd), List(args)), Call(ConnDo(cmd, args))]);
    assert DoRun(id, cmd, args, reply).events
        == [Start(id, SpanName(cmd), CommandParent(args))]
         + [Tag(id, ArgsTag(cmd), List(args)), Call(ConnDo(cmd, args))]
         + [Finish(id)];
  }

  /** The span is a child exactly when the first argument is a context that
      carries a span, and then a child of that span; otherwise it is a root. */
  lemma ContextSelectsParent(id: SpanId, cmd: string, args: seq<Value>, reply: Reply, parent: SpanId)
    requires args != []
    ensures DoRun(id, cmd, args, reply).events[0].parent == Some(parent) <==> args[0] == Context(Some(parent))
    ensures DoRun(id, cmd, args, reply).events[0].parent == None <==> !args[0].Context? || args[0].span == None
  {
  }

  /** Only the first argument decides the span: two calls of a command whose
      arguments start alike get the same span start. */
  lemma OnlyFirstArgumentDecides(id: SpanId, cmd: string, args: seq<Value>, other: seq<Value>, reply: Reply, reply': Reply)
    requires args != [] && other != [] && args[0] == other[0]
    ensures DoRun(id, cmd, args, reply).events[0] == DoRun(id, cmd, other, reply').events[0]
  {
  }

  /** The wrapped connection gets the command once, with every argument as
      given, the leading context included; the arguments are also the tag's
      value. */
  lemma ArgumentsForwardedUnchanged(id: SpanId, cmd: string, args: seq<Value>, reply: Reply)
    requires args != []
    ensures Tally(DoRun(id, cmd, args, reply).events, OfKind(CallKind)) == 1
    ensures Tally(DoRun(id, cmd, args, reply).events, Exactly(Call(ConnDo(cmd, args)))) == 1
    ensures Tally(DoRun(id, cmd, args, reply).events, Exactly(Tag(id, ArgsTag(cmd), List(args)))) == 1
  {
    var evs := DoRun(id, cmd, args, reply).events;
    TallyOne(evs, OfKind(CallKind), 2);
    TallyOne(evs, Exactly(Call(ConnDo(cmd, args))), 2);
    TallyOne(evs, Exactly(Tag(id, ArgsTag(cmd), List(args))), 1);
  }

  /** The reply and the error of the wrapped connection come back unchanged,
      whatever the command and its arguments. */
  lemma ReplyPassedThrough(id: SpanId, cmd: string, args: seq<Value>, reply: Reply)
    requires args != []
    ensures DoRun(id, cmd, args, reply).outcome == reply
  {
  }

  /** `TracedConn.Do`. Both branches of the source start a span, tag it with
      the arguments, and return what the wrapped `Do` returns under a deferred
      `Finish`; they differ only in the parent. */
  method Do(t: Tracer, cmd: string, args: seq<Value>, reply: Reply) returns (result: Reply)
    requires t.Valid()
    modifies t
    ensures t.Valid()
    ensures t.nextId == if args == [] then old(t.nextId) else old(t.nextId) + 1
    ensures t.log == old(t.log) + DoRun(old(t.nextId), cmd, args, reply).events
    ensures result == DoRun(old(t.nextId), cmd, args, reply).outcome
  {
    if |args| == 0 {
      return Reply(None, Some(Error(NoArgumentsMessage)));
    }
    var id;
    if !args[0].Context? {
      id := t.StartSpan(SpanName(cmd), None);
    } else {
      id := t.StartSpan(SpanName(cmd), args[0].span);
    }
    t.SetTag(id, ArgsTag(cmd), List(args));
    t.Record(ConnDo(cmd, args));
    result := reply;
    t.Finish(id);
  }

  /** `TracedConn.Send`: no span, only the wrapped call. */
  method Send(t: Tracer, cmd: string, args: seq<Value>, err: Option<Error>) returns (result: Option<Error>)
    requires t.Valid()
    modifies t`log
    ensures t.Valid()
    ensures t.log == old(t.log) + [Call(ConnSend(cmd, args))]
    ensures result == err
  {
    t.Record(ConnSend(cmd, args));
    result := err;
  }

  /** `TracedConn.Flush`. */
  method Flush(t: Tracer, err: Option<Error>) returns (result: Option<Error>)
    requires t.Valid()
    modifies t`log
    ensures t.Valid()
    ensures t.log == old(t.log) + [Call(ConnFlush)]
    ensures result == err
  {
    t.Record(ConnFlush);
    result := err;
  }

  /** `TracedConn.Receive`. */
  method Receive(t: Tracer, reply: Reply) returns (result: Reply)
    requires t.Valid()
    modifies t`log
    ensures t.Valid()
    ensures t.log == old(t.log) + [Call(ConnReceive)]
    ensures result == reply
  {
    t.Record(ConnReceive);
    result := reply;
  }

  /** `TracedConn.Close`. */
  method Close(t: Tracer, err: Option<Error>) returns (result: Option<Error>)
    requires t.Valid()
    modifies t`log
    ensures t.Valid()
    ensures t.log == old(t.log) + [Call(ConnClose)]
    ensures result == err
  {
    t.Record(ConnClose);
    result := err;
  }

  /** `TracedConn.Err`. */
  method Err(t: Tracer, err: Option<Error>) returns (result: Option<Error>)
    requires t.Valid()
    modifies t`log
    ensures t.Valid()
    ensures t.log == old(t.log) + [Call(ConnErr)]
    ensures result == err
  {
    t.Record(ConnErr);
    result := err;
  }

  /** The userinfo of a URL: a name and, if one was given, a password. */
  datatype Userinfo = Userinfo(username: string, password: Option<string>)

  /** The parts of a parsed `*url.URL` that `ConnectTo` reads. */
  datatype RedisUrl = RedisUrl(user: Option<Userinfo>, host: string, path: string)

  /** What `url.Parse` returned. */
  datatype ParseResult = Parsed(url: RedisUrl) | ParseFailed(err: Error)

  datatype DialOption = DialPassword(password: string) | DialDatabase(db: int)

  /** What `ConnectTo` does: return the parse error, or call `redis.Dial` with
      these arguments (whose result it returns unchanged). */
  datatype Connect = NotParsed(err: Error) | Dial(network: string, address: string, options: seq<DialOption>)

  /** `URL.User.Password()`: the password, or "" when none was set. */
  function PasswordOf(user: Userinfo): string {
    if user.password.Some? then user.password.value else ""
  }

  /** The dial options `ConnectTo` builds: a password option exactly when the
      URL has userinfo, a database option exactly when the path is longer
      than its leading slash, with the number after the slash as `Atoi` reads
      it, and nothing else, in that order. */
  function DialOptionsOf(u: RedisUrl): (opts: seq<DialOption>)
    ensures |opts| == (if u.user.Some? then 1 else 0) + (if |u.path| > 1 then 1 else 0)
    ensures (exists i :: 0 <= i < |opts| && opts[i].DialPassword?) <==> u.user.Some?
    ensures (exists i :: 0 <= i < |opts| && opts[i].DialDatabase?) <==> |u.path| > 1
    ensures u.user.Some? ==> opts[0] == DialPassword(PasswordOf(u.user.value))
    ensures |u.path| > 1 ==> opts[|opts| - 1] == DialDatabase(Strconv.Atoi(u.path[1..]))
  {
    var password := if u.user.Some? then [DialPassword(PasswordOf(u.user.value))] else [];
    var database := if |u.path| > 1 then [DialDatabase(Strconv.Atoi(u.path[1..]))] else [];
    var opts := password + database;
    assert u.user.Some? ==> opts[0].DialPassword?;
    assert |u.path| > 1 ==> opts[|opts| - 1].DialDatabase?;
    opts
  }

  /** Lines 62-72: the options are appended one at a time. */
  method DialOptions(u: RedisUrl) returns (opts: seq<DialOption>)
    ensures opts == DialOptionsOf(u)
  {
    opts := [];
    if u.user.Some? {
      var pw := PasswordOf(u.user.value);
      opts := opts + [DialPassword(pw)];
    }
    if |u.path| > 1 {
      var db := Strconv.Atoi(u.path[1..]);
      opts := opts + [DialDatabase(db)];
    }
  }

  /** `ConnectTo`: a parse error is returned as is; otherwise `redis.Dial` is
      called over TCP with the URL's host and the options above. */
  method ConnectTo(parsed: ParseResult) returns (c: Connect)
    ensures parsed.ParseFailed? ==> c == NotParsed(parsed.err)
    ensures parsed.Parsed? ==> c.Dial? && c.network == "tcp" && c.address == parsed.url.host
    ensures parsed.Parsed? ==> c.options == DialOptionsOf(parsed.url)
  {
    if parsed.ParseFailed? {
      return NotParsed(parsed.err);
    }
    var opts := DialOptions(parsed.url);
    c := Dial("tcp", parsed.url.host, opts);
  }

  /** A path naming a database by its number selects that database. */
  lemma DatabaseNumberRoundTrip(u: RedisUrl, n: int)
    requires 0 <= n <= Strconv.MaxInt64
    requires u.path == "/" + Strconv.FormatInt(n)
    ensures DialOptionsOf(u)[|DialOptionsOf(u)| - 1] == DialDatabase(n)
  {
    assert u.path[1..] == Strconv.FormatInt(n);
    Strconv.AtoiFormatInt(n);
  }

  /** Both options are given exactly when the URL has userinfo and a database
      path; the password option then comes first. */
  lemma BothOptionsInOrder(u: RedisUrl)
    requires u.user.Some? && |u.path| > 1
    ensures DialOptionsOf(u) == [DialPassword(PasswordOf(u.user.value)), DialDatabase(Strconv.Atoi(u.path[1..]))]
  {
  }
}
