/** The opentracing side of every hook, kept abstract.

    The tracer itself (sampling, span contexts, reporting) is foreign code. What the hooks
    do with it is recorded as a log of events: a span is started under an operation name
    and an optional parent, tagged, logged, injected into outgoing headers, and finished.
    Span identities are handed out by the tracer in increasing order, so two `Start`
    events never carry the same span. */
module Tracing {
  import opened Wrappers

  type SpanId = nat

  datatype Event =
    | Start(span: SpanId, operationName: string, parent: Option<SpanId>)
    | Inject(span: SpanId)
    | Tag(span: SpanId, key: string, value: string)
    | Log(span: SpanId, key: string, value: string)
    | Finish(span: SpanId)

  /** Tag keys of opentracing's `ext` package used by the hooks. */
  const DBTypeTag := "db.type"
  const DBStatementTag := "db.statement"
  const HTTPMethodTag := "http.method"
  const HTTPUrlTag := "http.url"

  /** Number of `Start` events of span `id` in a log. */
  function StartCount(t: seq<Event>, id: SpanId): nat
    decreases |t|
  {
    if t == [] then 0
    else StartCount(t[..|t| - 1], id) + (if t[|t| - 1].Start? && t[|t| - 1].span == id then 1 else 0)
  }

  /** Number of `Finish` events of span `id` in a log. */
  function FinishCount(t: seq<Event>, id: SpanId): nat
    decreases |t|
  {
    if t == [] then 0
    else FinishCount(t[..|t| - 1], id) + (if t[|t| - 1] == Finish(id) then 1 else 0)
  }

  lemma {:induction false} CountsAppend(a: seq<Event>, b: seq<Event>, id: SpanId)
    ensures StartCount(a + b, id) == StartCount(a, id) + StartCount(b, id)
    ensures FinishCount(a + b, id) == FinishCount(a, id) + FinishCount(b, id)
    decreases |b|
  {
    if b == [] {
      assert a + b == a;
    } else {
      assert (a + b)[..|a + b| - 1] == a + b[..|b| - 1];
      CountsAppend(a, b[..|b| - 1], id);
    }
  }

  lemma CountsSingle(e: Event, id: SpanId)
    ensures StartCount([e], id) == (if e.Start? && e.span == id then 1 else 0)
    ensures FinishCount([e], id) == (if e == Finish(id) then 1 else 0)
  {
    assert [e][..0] == [];
  }

  lemma CountsPair(x: Event, y: Event, id: SpanId)
    ensures StartCount([x, y], id) == StartCount([x], id) + StartCount([y], id)
    ensures FinishCount([x, y], id) == FinishCount([x], id) + FinishCount([y], id)
  {
    assert [x, y] == [x] + [y];
    CountsAppend([x], [y], id);
  }

  /** A span's life in a log: started once, finished once, and the finish is the log's last event. */
  ghost predicate Completes(t: seq<Event>, id: SpanId)
  {
    StartCount(t, id) == 1 && FinishCount(t, id) == 1 && |t| > 0 && t[|t| - 1] == Finish(id)
  }

  /** The events an after-hook produces for the span it looked up, if any: a finish, or nothing. */
  function FinishTrace(found: Option<SpanId>): (t: seq<Event>)
    ensures found.None? ==> t == []
    ensures found.Some? ==> FinishCount(t, found.value) == 1 && StartCount(t, found.value) == 0
  {
    match found
    case None => []
    case Some(id) => CountsSingle(Finish(id), id); [Finish(id)]
  }

  /** A value bound in a `context.Context`: a span, or anything else. */
  datatype CtxValue = SpanValue(span: SpanId) | OtherValue

  /** A `context.Context`: the span opentracing treats as active (the parent of spans started
      from it) and the values bound with `context.WithValue`, keyed by the key object's identity. */
  datatype Context = Context(activeSpan: Option<SpanId>, values: map<nat, CtxValue>)

  /** `ctx.Value(key).(opentracing.Span)`: the span bound to `key`, or None when nothing or a
      non-span is bound. */
  function SpanAt(ctx: Context, key: nat): (r: Option<SpanId>)
    ensures r.Some? <==> key in ctx.values && ctx.values[key].SpanValue?
    ensures r.Some? ==> ctx.values[key] == SpanValue(r.value)
  {
    if key in ctx.values && ctx.values[key].SpanValue? then Some(ctx.values[key].span) else None
  }

  /** `context.WithValue(ctx, key, span)`: one more binding, visible under `key` only; the
      active span is untouched. */
  function WithSpan(ctx: Context, key: nat, id: SpanId): (r: Context)
    ensures r.activeSpan == ctx.activeSpan
    ensures r.values.Keys == ctx.values.Keys + {key}
    ensures SpanAt(r, key) == Some(id)
    ensures forall k :: k != key && k in ctx.values ==> r.values[k] == ctx.values[k]
    ensures forall k :: k != key ==> SpanAt(r, k) == SpanAt(ctx, k)
  {
    ctx.(values := ctx.values[key := SpanValue(id)])
  }

  /** The tracer: the log of what the hooks asked of it, and the next span identity. */
  class Tracer {
    var events: seq<Event>
    var nextId: SpanId

    /** Every started span has an identity below `nextId`, and no identity is started twice. */
    ghost predicate Valid()
      reads this
    {
      && (forall i :: 0 <= i < |events| && events[i].Start? ==> events[i].span < nextId)
      && (forall i, j :: 0 <= i < j < |events| && events[i].Start? && events[j].Start? ==>
            events[i].span != events[j].span)
    }

    constructor ()
      ensures Valid() && events == [] && nextId == 0
    {
      events := [];
      nextId := 0;
    }

    method StartSpan(operationName: string, parent: Option<SpanId>) returns (id: SpanId)
      requires Valid()
      modifies this
      ensures Valid()
      ensures id == old(nextId) && nextId == id + 1
      ensures events == old(events) + [Start(id, operationName, parent)]
    {
      id := nextId;
      events := events + [Start(id, operationName, parent)];
      nextId := nextId + 1;
    }

    method SetTag(id: SpanId, key: string, value: string)
      requires Valid()
      modifies this
      ensures Valid() && nextId == old(nextId)
      ensures events == old(events) + [Tag(id, key, value)]
    {
      events := events + [Tag(id, key, value)];
    }

    method LogField(id: SpanId, key: string, value: string)
      requires Valid()
      modifies this
      ensures Valid() && nextId == old(nextId)
      ensures events == old(events) + [Log(id, key, value)]
    {
      events := events + [Log(id, key, value)];
    }

    method InjectHeaders(id: SpanId)
      requires Valid()
      modifies this
      ensures Valid() && nextId == old(nextId)
      ensures events == old(events) + [Inject(id)]
    {
      events := events + [Inject(id)];
    }

    method Finish(id: SpanId)
      requires Valid()
      modifies this
      ensures Valid() && nextId == old(nextId)
      ensures events == old(events) + [Event.Finish(id)]
    {
      events := events + [Event.Finish(id)];
    }
  }

  /** A span the tracer is about to start has never been started before. */
  lemma FreshSpanNotStarted(t: seq<Event>, next: SpanId)
    requires forall i :: 0 <= i < |t| && t[i].Start? ==> t[i].span < next
    ensures StartCount(t, next) == 0
    decreases |t|
  {
    if t != [] {
      FreshSpanNotStarted(t[..|t| - 1], next);
    }
  }

  /** Appending a trace that starts a fresh span once leaves it started once in the whole log. */
  lemma StartedOnceAfter(before: seq<Event>, trace: seq<Event>, id: SpanId)
    requires forall i :: 0 <= i < |before| && before[i].Start? ==> before[i].span < id
    requires StartCount(trace, id) == 1
    ensures StartCount(before + trace, id) == 1
  {
    FreshSpanNotStarted(before, id);
    CountsAppend(before, trace, id);
  }
}
