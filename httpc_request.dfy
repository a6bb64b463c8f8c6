/** The traced HTTP client of httpc/request.go: option functions, the resty client
    defaulting and retry rule, the span name derived from the URL, and the four traced
    calls.

    Durations are integers counting nanoseconds, as Go's `time.Duration` does. The resty
    transport, resty's own response decoding, `json.Unmarshal`, resty's JSON content-type
    test and `net/url`'s parser are foreign: their outcomes are parameters. */
module Httpc {
  import opened Wrappers
  import opened Tracing

  const Second := 1_000_000_000
  const DefaultTimeout := 2 * Second
  const DefaultRetryCount := 1
  const DefaultRetryWaitTime := 1 * Second

  const RequestPrefix := "HTTP_Request:"
  const MethodGet := "GET"
  const MethodPost := "POST"
  const StatusOK := 200
  const ResultTag := "result"

  // ---------------------------------------------------------------------------
  // Span name from the URL

  /** What `url.Parse` yields on success: the host and the path of the URL. */
  datatype Url = Url(host: string, path: string)

  /** A request URL as the caller wrote it, with `url.Parse`'s verdict on it. */
  datatype RequestUrl = RequestUrl(raw: string, parsed: Result<Url, string>)

  /** `strings.Split(s, "/")`: the pieces between the slashes, always at least one. */
  function Split(s: string): (parts: seq<string>)
    ensures |parts| > 0
    decreases |s|
  {
    if s == [] then [""]
    else
      var rest := Split(s[1..]);
      if s[0] == '/' then [""] + rest else [[s[0]] + rest[0]] + rest[1..]
  }

  /** The text after the last slash of `path` (all of it when there is no slash). */
  function LastSegment(path: string): (r: string)
    ensures '/' !in r
    ensures |r| <= |path| && r == path[|path| - |r|..]
    ensures |r| < |path| ==> path[|path| - |r| - 1] == '/'
    decreases |path|
  {
    if path == [] || path[|path| - 1] == '/' then []
    else LastSegment(path[..|path| - 1]) + [path[|path| - 1]]
  }

  /** The last segment is empty exactly when the path is empty or ends with a slash. */
  lemma LastSegmentEmptyIff(path: string)
    ensures LastSegment(path) == "" <==> path == "" || path[|path| - 1] == '/'
  {
  }

  lemma {:induction false} LastSegmentNoSlash(s: string)
    requires '/' !in s
    ensures LastSegment(s) == s
    decreases |s|
  {
    if s != [] {
      LastSegmentNoSlash(s[..|s| - 1]);
      assert s == s[..|s| - 1] + [s[|s| - 1]];
    }
  }

  /** Putting a character in front of a path changes its last segment only when the path
      has no slash. */
  lemma {:induction false} LastSegmentCons(c: char, s: string)
    ensures LastSegment([c] + s) == (if '/' in s then LastSegment(s) else if c == '/' then s else [c] + s)
    decreases |s|
  {
    if s == [] {
      assert [c] + s == [c];
      assert [c][..0] == [];
    } else {
      var front, last := s[..|s| - 1], s[|s| - 1];
      assert ([c] + s)[..|[c] + s| - 1] == [c] + front;
      assert s == front + [last];
      if last != '/' {
        LastSegmentCons(c, front);
        assert ('/' in s) == ('/' in front);
        if '/' !in s {
          LastSegmentNoSlash(front);
          LastSegmentNoSlash(s);
        }
      }
    }
  }

  lemma {:induction false} SplitNoSlash(s: string)
    requires '/' !in s
    ensures Split(s) == [s]
    decreases |s|
  {
    if s != [] {
      SplitNoSlash(s[1..]);
      assert [s[0]] + s[1..] == s;
    }
  }

  lemma {:induction false} SplitWithSlash(s: string)
    requires '/' in s
    ensures |Split(s)| > 1
    decreases |s|
  {
    if s[0] != '/' {
      SplitWithSlash(s[1..]);
    }
  }

  /** With a slash after the first character, the first character does not reach the last piece. */
  lemma LastPieceSkipsHead(s: string)
    requires s != [] && '/' in s[1..]
    ensures Split(s)[|Split(s)| - 1] == Split(s[1..])[|Split(s[1..])| - 1]
  {
    SplitWithSlash(s[1..]);
  }

  /** Without a slash after the first character, the last piece is the text after a leading
      slash, or all of `s`. */
  lemma LastPieceNoSlashAfterHead(s: string)
    requires s != [] && '/' !in s[1..]
    ensures Split(s)[|Split(s)| - 1] == if s[0] == '/' then s[1..] else s
  {
    SplitNoSlash(s[1..]);
    assert [s[0]] + s[1..] == s;
  }

  /** The piece `url2func` takes, `paths[len(paths)-1]`, is the text after the last slash. */
  lemma {:induction false} LastPieceIsLastSegment(s: string)
    ensures Split(s)[|Split(s)| - 1] == LastSegment(s)
    decreases |s|
  {
    if s != [] {
      var tl := s[1..];
      assert s == [s[0]] + tl;
      LastSegmentCons(s[0], tl);
      if '/' in tl {
        LastPieceIsLastSegment(tl);
        LastPieceSkipsHead(s);
      } else {
        LastPieceNoSlashAfterHead(s);
      }
    }
  }

  /** `url2func`: the span name of a request. The raw URL when it does not parse; otherwise
      the prefix and the last path segment, or the host when that segment is empty. */
  function Url2Func(u: RequestUrl): (r: string)
    ensures u.parsed.Failure? ==> r == u.raw
    ensures u.parsed.Success? && LastSegment(u.parsed.value.path) != "" ==>
              r == RequestPrefix + LastSegment(u.parsed.value.path)
    ensures u.parsed.Success? && LastSegment(u.parsed.value.path) == "" ==>
              r == RequestPrefix + u.parsed.value.host
  {
    match u.parsed
    case Failure(_) => u.raw
    case Success(values) =>
      var paths := Split(values.path);
      var funcName := paths[|paths| - 1];
      LastPieceIsLastSegment(values.path);
      RequestPrefix + (if funcName == "" then values.host else funcName)
  }

  // ---------------------------------------------------------------------------
  // Options

  /** The `Option` struct embedded in `Request`. */
  datatype Settings = Settings(timeout: int, retryWaitTime: int, retryCount: int, connectionClose: bool)

  const ZeroSettings := Settings(0, 0, 0, false)

  /** The four `OptFunc` constructors; each closure writes one field of the request. */
  datatype OptFunc =
    | Timeout(duration: int)
    | RetryWaitTime(duration: int)
    | RetryCount(count: int)
    | ConnectionClose(close: bool)

  datatype Field = TimeoutField | RetryWaitTimeField | RetryCountField | ConnectionCloseField

  datatype FieldValue = IntValue(i: int) | BoolValue(b: bool)

  function FieldOf(s: Settings, f: Field): FieldValue
  {
    match f
    case TimeoutField => IntValue(s.timeout)
    case RetryWaitTimeField => IntValue(s.retryWaitTime)
    case RetryCountField => IntValue(s.retryCount)
    case ConnectionCloseField => BoolValue(s.connectionClose)
  }

  /** The field an option writes, and the value it writes there. */
  function Writes(f: OptFunc): Field
  {
    match f
    case Timeout(_) => TimeoutField
    case RetryWaitTime(_) => RetryWaitTimeField
    case RetryCount(_) => RetryCountField
    case ConnectionClose(_) => ConnectionCloseField
  }

  function Written(f: OptFunc): FieldValue
  {
    match f
    case Timeout(d) => IntValue(d)
    case RetryWaitTime(d) => IntValue(d)
    case RetryCount(n) => IntValue(n)
    case ConnectionClose(c) => BoolValue(c)
  }

  /** Calling one option function on the request. */
  function ApplyOpt(s: Settings, f: OptFunc): (r: Settings)
    ensures FieldOf(r, Writes(f)) == Written(f)
    ensures forall g :: g != Writes(f) ==> FieldOf(r, g) == FieldOf(s, g)
  {
    match f
    case Timeout(d) => s.(timeout := d)
    case RetryWaitTime(d) => s.(retryWaitTime := d)
    case RetryCount(n) => s.(retryCount := n)
    case ConnectionClose(c) => s.(connectionClose := c)
  }

  /** Calling the option functions in argument order. */
  function ApplyAll(s: Settings, fs: seq<OptFunc>): Settings
    decreases |fs|
  {
    if fs == [] then s else ApplyOpt(ApplyAll(s, fs[..|fs| - 1]), fs[|fs| - 1])
  }

  /** A field no option writes keeps its starting value. */
  lemma {:induction false} UnwrittenFieldKept(s: Settings, fs: seq<OptFunc>, g: Field)
    requires forall i :: 0 <= i < |fs| ==> Writes(fs[i]) != g
    ensures FieldOf(ApplyAll(s, fs), g) == FieldOf(s, g)
    decreases |fs|
  {
    if fs != [] {
      UnwrittenFieldKept(s, fs[..|fs| - 1], g);
    }
  }

  /** A field some option writes is decided by the last such option. */
  lemma {:induction false} LastOptionWins(s: Settings, fs: seq<OptFunc>, g: Field, k: nat)
    requires k < |fs| && Writes(fs[k]) == g
    requires forall j :: k < j < |fs| ==> Writes(fs[j]) != g
    ensures FieldOf(ApplyAll(s, fs), g) == Written(fs[k])
    decreases |fs|
  {
    var front := fs[..|fs| - 1];
    if k < |fs| - 1 {
      assert front[k] == fs[k];
      LastOptionWins(s, front, g, k);
    }
  }

  // ---------------------------------------------------------------------------
  // The resty client

  /** The retry condition `RestyRequest` installs; all installed conditions are this one. */
  datatype RetryCondition = ErrorResponseOrError

  /** What resty hands a retry condition: the response's status code (0 when there was no
      HTTP response) and the transport error. `IsError` is resty's "status above 399". */
  datatype Attempt = Attempt(statusCode: int, err: Option<string>)

  predicate IsErrorResponse(a: Attempt)
  {
    a.statusCode > 399
  }

  /** The closure added by `RestyRequest`. */
  predicate Holds(c: RetryCondition, a: Attempt)
  {
    match c
    case ErrorResponseOrError =>
      if IsErrorResponse(a) then true
      else if a.err.Some? then true
      else false
  }

  /** resty asks every installed condition; a retry is wanted when one of them holds. */
  predicate AnyHolds(conds: seq<RetryCondition>, a: Attempt)
    decreases |conds|
  {
    conds != [] && (Holds(conds[0], a) || AnyHolds(conds[1..], a))
  }

  /** The retry rule: retry exactly on an error response or a transport error. */
  lemma RetryRule(a: Attempt)
    ensures Holds(ErrorResponseOrError, a) <==> a.statusCode > 399 || a.err.Some?
  {
  }

  /** Conditions piling up on the shared client do not change the decision: with one or more
      installed, the client retries exactly when the single condition holds. */
  lemma {:induction false} AccumulatedConditions(conds: seq<RetryCondition>, a: Attempt)
    ensures AnyHolds(conds, a) <==> |conds| > 0 && Holds(ErrorResponseOrError, a)
    decreases |conds|
  {
    if conds != [] {
      AccumulatedConditions(conds[1..], a);
    }
  }

  /** The settings a client ends up with: a positive setting is kept, anything else is
      replaced by its default. */
  datatype ClientConfig = ClientConfig(timeout: int, retryCount: int, retryWaitTime: int, closeConnection: bool)

  function Configure(s: Settings): (c: ClientConfig)
    ensures c.timeout > 0 && c.retryCount > 0 && c.retryWaitTime > 0
    ensures s.timeout > 0 ==> c.timeout == s.timeout
    ensures s.timeout <= 0 ==> c.timeout == DefaultTimeout
    ensures s.retryCount > 0 ==> c.retryCount == s.retryCount
    ensures s.retryCount <= 0 ==> c.retryCount == DefaultRetryCount
    ensures s.retryWaitTime > 0 ==> c.retryWaitTime == s.retryWaitTime
    ensures s.retryWaitTime <= 0 ==> c.retryWaitTime == DefaultRetryWaitTime
    ensures c.closeConnection == s.connectionClose
  {
    ClientConfig(
      if s.timeout > 0 then s.timeout else DefaultTimeout,
      if s.retryCount > 0 then s.retryCount else DefaultRetryCount,
      if s.retryWaitTime > 0 then s.retryWaitTime else DefaultRetryWaitTime,
      s.connectionClose)
  }

  /** Configuring is idempotent: a configured client's settings are kept as they are. */
  lemma ConfigureIdempotent(s: Settings)
    ensures var c := Configure(s);
            Configure(Settings(c.timeout, c.retryWaitTime, c.retryCount, c.closeConnection)) == c
  {
  }

  /** The part of a `resty.Client` that `RestyRequest` sets. */
  class Client {
    var timeout: int
    var retryCount: int
    var retryWaitTime: int
    var closeConnection: bool
    var retryConditions: seq<RetryCondition>

    /** `resty.New()`: no timeout, no retries, resty's 100ms retry wait, no conditions. */
    constructor ()
      ensures timeout == 0 && retryCount == 0 && retryWaitTime == Second / 10
      ensures !closeConnection && retryConditions == []
    {
      timeout := 0;
      retryCount := 0;
      retryWaitTime := Second / 10;
      closeConnection := false;
      retryConditions := [];
    }

    function Config(): ClientConfig
      reads this
    {
      ClientConfig(timeout, retryCount, retryWaitTime, closeConnection)
    }
  }

  /** `Request`: the shared client and the embedded option fields. */
  class Request {
    const client: Client
    var timeout: int
    var retryWaitTime: int
    var retryCount: int
    var connectionClose: bool

    function Options(): Settings
      reads this
    {
      Settings(timeout, retryWaitTime, retryCount, connectionClose)
    }

    constructor (client: Client)
      ensures this.client == client && Options() == ZeroSettings
    {
      this.client := client;
      timeout, retryWaitTime, retryCount, connectionClose := 0, 0, 0, false;
    }

    /** Running one option closure on the request: exactly one field changes. */
    method Apply(f: OptFunc)
      modifies this
      ensures Options() == ApplyOpt(old(Options()), f)
    {
      match f
      case Timeout(d) => timeout := d;
      case RetryWaitTime(d) => retryWaitTime := d;
      case RetryCount(n) => retryCount := n;
      case ConnectionClose(c) => connectionClose := c;
    }

    /** `RestyRequest`: configure the shared client from the options, add one more retry
        condition to it, and hand out a request on it. */
    method RestyRequest() returns (rr: RestyRequest)
      modifies client
      ensures client.Config() == Configure(Options())
      ensures client.retryConditions == old(client.retryConditions) + [ErrorResponseOrError]
      ensures fresh(rr) && rr.client == client
    {
      if timeout > 0 {
        client.timeout := timeout;
      } else {
        client.timeout := DefaultTimeout;
      }
      if retryCount > 0 {
        client.retryCount := retryCount;
      } else {
        client.retryCount := DefaultRetryCount;
      }
      if retryWaitTime > 0 {
        client.retryWaitTime := retryWaitTime;
      } else {
        client.retryWaitTime := DefaultRetryWaitTime;
      }
      client.retryConditions := client.retryConditions + [ErrorResponseOrError];
      client.closeConnection := connectionClose;
      rr := new RestyRequest(client);
    }
  }

  /** `NewRequest`: a request on a new client, with the option functions run in order. */
  method NewRequest(optFuncs: seq<OptFunc>) returns (request: Request)
    ensures fresh(request) && fresh(request.client)
    ensures request.Options() == ApplyAll(ZeroSettings, optFuncs)
    ensures request.client.retryConditions == []
  {
    var client := new Client();
    request := new Request(client);
    var i := 0;
    while i < |optFuncs|
      invariant 0 <= i <= |optFuncs|
      invariant fresh(request) && request.client == client && client.retryConditions == []
      invariant request.Options() == ApplyAll(ZeroSettings, optFuncs[..i])
    {
      assert optFuncs[..i + 1][..i] == optFuncs[..i];
      request.Apply(optFuncs[i]);
      i := i + 1;
    }
    assert optFuncs[..i] == optFuncs;
  }

  // ---------------------------------------------------------------------------
  // Traced calls

  /** A response as the traced calls see it. `isJSON` is resty's verdict on the Content-Type
      header; `parsed` is what resty's own decoding left in the result; `requestUrl` is the
      request's `URL` after the call, which resty rebuilds from the caller's URL, the client's
      base URL and the query parameters. */
  datatype Response = Response(statusCode: int, isJSON: bool, body: string, parsed: string, requestUrl: string)

  /** What the resty call returned: a transport error, or a response. */
  datatype Transport = Failed(err: string) | Answered(resp: Response)

  /** `GetResult`/`PostResult` decode the raw body themselves when the status is not 200 or
      the body is not JSON. */
  predicate NeedsFallback(resp: Response)
  {
    resp.statusCode != StatusOK || !resp.isJSON
  }

  /** Events of `Get`/`Post`: start, inject, the method tag and the tag of resty's final URL
      only when the call succeeded, the body as the result tag, finish. */
  function FetchTrace(id: SpanId, ctx: Context, httpMethod: string, url: RequestUrl, transport: Transport): (t: seq<Event>)
    ensures Completes(t, id)
    ensures t[0] == Start(id, Url2Func(url), ctx.activeSpan)
    ensures transport.Answered? ==>
              Tag(id, HTTPMethodTag, httpMethod) in t && Tag(id, HTTPUrlTag, transport.resp.requestUrl) in t
    ensures transport.Failed? ==> forall e :: e in t && e.Tag? ==> e.key == ResultTag
    ensures Tag(id, ResultTag, if transport.Answered? then transport.resp.body else "") in t
  {
    var head := [Start(id, Url2Func(url), ctx.activeSpan), Inject(id)];
    var tags := if transport.Answered? then [Tag(id, HTTPMethodTag, httpMethod), Tag(id, HTTPUrlTag, transport.resp.requestUrl)] else [];
    var body := if transport.Answered? then transport.resp.body else "";
    var tail := [Tag(id, ResultTag, body), Finish(id)];
    CountsAppend(head + tags, tail, id);
    CountsAppend(head, tags, id);
    CountsPair(head[0], head[1], id);
    CountsPair(tail[0], tail[1], id);
    CountsSingle(head[0], id);
    CountsSingle(head[1], id);
    CountsSingle(tail[0], id);
    CountsSingle(tail[1], id);
    if transport.Answered? then
      CountsPair(tags[0], tags[1], id);
      CountsSingle(tags[0], id);
      CountsSingle(tags[1], id);
      head + tags + tail
    else
      head + tags + tail
  }

  /** Events of `GetResult`/`PostResult`: start, inject, the method and URL tags, the result
      tag (set when the deferred call is evaluated, so with the caller's value), finish. */
  function ResultTrace(id: SpanId, ctx: Context, httpMethod: string, url: RequestUrl, result: string): (t: seq<Event>)
    ensures Completes(t, id)
    ensures t[0] == Start(id, Url2Func(url), ctx.activeSpan)
    ensures Tag(id, HTTPMethodTag, httpMethod) in t && Tag(id, HTTPUrlTag, url.raw) in t
  {
    var a := [Start(id, Url2Func(url), ctx.activeSpan), Inject(id)];
    var b := [Tag(id, HTTPMethodTag, httpMethod), Tag(id, HTTPUrlTag, url.raw)];
    var c := [Tag(id, ResultTag, result), Finish(id)];
    CountsAppend(a + b, c, id);
    CountsAppend(a, b, id);
    CountsPair(a[0], a[1], id);
    CountsPair(b[0], b[1], id);
    CountsPair(c[0], c[1], id);
    CountsSingle(a[0], id);
    CountsSingle(a[1], id);
    CountsSingle(b[0], id);
    CountsSingle(b[1], id);
    CountsSingle(c[0], id);
    CountsSingle(c[1], id);
    a + b + c
  }

  /** What `GetResult`/`PostResult` return, as the error and the final result value: the
      transport error with the result untouched; or resty's decoding, replaced by a fallback
      `json.Unmarshal` of the raw body when the status is not 200 or the body is not JSON,
      whose error is returned when it fails. */
  function ResultOutcome(result: string, transport: Transport, unmarshal: Result<string, string>)
    : (r: (Option<string>, string))
    ensures transport.Failed? ==> r.0 == Some(transport.err) && r.1 == result
    ensures transport.Answered? && !NeedsFallback(transport.resp) ==>
              r.0 == None && r.1 == transport.resp.parsed
    ensures transport.Answered? && NeedsFallback(transport.resp) && unmarshal.Success? ==>
              r.0 == None && r.1 == unmarshal.value
    ensures transport.Answered? && NeedsFallback(transport.resp) && unmarshal.Failure? ==>
              r.0 == Some(unmarshal.error) && r.1 == transport.resp.parsed
  {
    match transport
    case Failed(e) => (Some(e), result)
    case Answered(response) =>
      if !NeedsFallback(response) then (None, response.parsed)
      else match unmarshal
        case Success(v) => (None, v)
        case Failure(e) => (Some(e), response.parsed)
  }

  /** A request handed out by `RestyRequest`, on the shared client. */
  class RestyRequest {
    const client: Client

    constructor (client: Client)
      ensures this.client == client
    {
      this.client := client;
    }

    /** The body of `Get` and `Post`, which differ only in the HTTP method. */
    method Fetch(tracer: Tracer, ctx: Context, httpMethod: string, url: RequestUrl, transport: Transport)
      returns (respBody: string, err: Option<string>)
      requires tracer.Valid()
      modifies tracer
      ensures tracer.Valid() && tracer.nextId == old(tracer.nextId) + 1
      ensures tracer.events == old(tracer.events) + FetchTrace(old(tracer.nextId), ctx, httpMethod, url, transport)
      ensures transport.Failed? ==> respBody == "" && err == Some(transport.err)
      ensures transport.Answered? ==> respBody == transport.resp.body && err == None
    {
      ghost var before := tracer.events;
      var span := tracer.StartSpan(Url2Func(url), ctx.activeSpan);
      tracer.InjectHeaders(span);
      ghost var head := [Start(span, Url2Func(url), ctx.activeSpan), Inject(span)];
      assert tracer.events == before + head;
      respBody := "";
      match transport {
        case Failed(e) =>
          err := Some(e);
        case Answered(response) =>
          err := None;
          respBody := response.body;
          tracer.SetTag(span, HTTPMethodTag, httpMethod);
          tracer.SetTag(span, HTTPUrlTag, response.requestUrl);
      }
      ghost var tags := if transport.Answered?
        then [Tag(span, HTTPMethodTag, httpMethod), Tag(span, HTTPUrlTag, transport.resp.requestUrl)] else [];
      assert tracer.events == before + head + tags;
      tracer.SetTag(span, ResultTag, respBody);
      tracer.Finish(span);
      assert tracer.events == before + (head + tags + [Tag(span, ResultTag, respBody), Event.Finish(span)]);
    }

    method Get(tracer: Tracer, ctx: Context, url: RequestUrl, transport: Transport)
      returns (respBody: string, err: Option<string>)
      requires tracer.Valid()
      modifies tracer
      ensures tracer.Valid() && tracer.nextId == old(tracer.nextId) + 1
      ensures tracer.events == old(tracer.events) + FetchTrace(old(tracer.nextId), ctx, MethodGet, url, transport)
      ensures transport.Failed? ==> respBody == "" && err == Some(transport.err)
      ensures transport.Answered? ==> respBody == transport.resp.body && err == None
    {
      respBody, err := Fetch(tracer, ctx, MethodGet, url, transport);
    }

    method Post(tracer: Tracer, ctx: Context, url: RequestUrl, transport: Transport)
      returns (respBody: string, err: Option<string>)
      requires tracer.Valid()
      modifies tracer
      ensures tracer.Valid() && tracer.nextId == old(tracer.nextId) + 1
      ensures tracer.events == old(tracer.events) + FetchTrace(old(tracer.nextId), ctx, MethodPost, url, transport)
      ensures transport.Failed? ==> respBody == "" && err == Some(transport.err)
      ensures transport.Answered? ==> respBody == transport.resp.body && err == None
    {
      respBody, err := Fetch(tracer, ctx, MethodPost, url, transport);
    }

    /** The body of `GetResult` and `PostResult`. `unmarshal` is what `json.Unmarshal` makes
        of the raw body. */
    method FetchResult(tracer: Tracer, ctx: Context, httpMethod: string, url: RequestUrl, result: string,
                       transport: Transport, unmarshal: Result<string, string>)
      returns (err: Option<string>, result': string)
      requires tracer.Valid()
      modifies tracer
      ensures tracer.Valid() && tracer.nextId == old(tracer.nextId) + 1
      ensures tracer.events == old(tracer.events) + ResultTrace(old(tracer.nextId), ctx, httpMethod, url, result)
      ensures (err, result') == ResultOutcome(result, transport, unmarshal)
    {
      var span := tracer.StartSpan(Url2Func(url), ctx.activeSpan);
      tracer.InjectHeaders(span);
      tracer.SetTag(span, HTTPMethodTag, httpMethod);
      tracer.SetTag(span, HTTPUrlTag, url.raw);
      tracer.SetTag(span, ResultTag, result);
      result' := result;
      match transport {
        case Failed(e) =>
          err := Some(e);
        case Answered(response) =>
          err := None;
          result' := response.parsed;
          if NeedsFallback(response) {
            match unmarshal {
              case Success(v) => result' := v;
              case Failure(e) => err := Some(e);
            }
          }
      }
      tracer.Finish(span);
    }

    method GetResult(tracer: Tracer, ctx: Context, url: RequestUrl, result: string,
                     transport: Transport, unmarshal: Result<string, string>)
      returns (err: Option<string>, result': string)
      requires tracer.Valid()
      modifies tracer
      ensures tracer.Valid() && tracer.nextId == old(tracer.nextId) + 1
      ensures tracer.events == old(tracer.events) + ResultTrace(old(tracer.nextId), ctx, MethodGet, url, result)
      ensures (err, result') == ResultOutcome(result, transport, unmarshal)
    {
      err, result' := FetchResult(tracer, ctx, MethodGet, url, result, transport, unmarshal);
    }

    method PostResult(tracer: Tracer, ctx: Context, url: RequestUrl, result: string,
                      transport: Transport, unmarshal: Result<string, string>)
      returns (err: Option<string>, result': string)
      requires tracer.Valid()
      modifies tracer
      ensures tracer.Valid() && tracer.nextId == old(tracer.nextId) + 1
      ensures tracer.events == old(tracer.events) + ResultTrace(old(tracer.nextId), ctx, MethodPost, url, result)
      ensures (err, result') == ResultOutcome(result, transport, unmarshal)
    {
      err, result' := FetchResult(tracer, ctx, MethodPost, url, result, transport, unmarshal);
    }
  }
}
