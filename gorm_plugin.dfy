/** gormplugin/plugin.go, in two parts: the span store of one GORM call (`injectBefore`,
    `extractAfter`) and the plugin itself (`Name`, `Initialize`). The store comes first
    because the callbacks of gormplugin/callback.go use it and `Initialize` registers them. */
module GormSpanStore {
  import opened Wrappers
  import opened Tracing

  const SpanKey := "opentracing:span"
  const DBTypeMySQL := "mysql"
  const SqlField := "sql"

  /** A value in GORM's per-call instance store: nil, a span, or a value of another type. */
  datatype InstanceValue = NilInstance | SpanInstance(span: SpanId) | OtherInstance

  /** The part of a `*gorm.DB` the hooks use. `explainedSql` is what
      `Dialector.Explain(Statement.SQL.String(), Statement.Vars...)` renders. */
  class DB {
    var instance: map<string, InstanceValue>
    const context: Context
    const explainedSql: string

    constructor (context: Context, explainedSql: string)
      ensures instance == map[] && this.context == context && this.explainedSql == explainedSql
    {
      instance := map[];
      this.context := context;
      this.explainedSql := explainedSql;
    }
  }

  /** The lookup of `extractAfter`: the stored span, or None when the key is absent, the value
      is nil, or the value is not a span. */
  function StoredSpan(instance: map<string, InstanceValue>): (r: Option<SpanId>)
    ensures r.Some? <==> SpanKey in instance && instance[SpanKey].SpanInstance?
    ensures r.Some? ==> instance[SpanKey] == SpanInstance(r.value)
  {
    if SpanKey !in instance || instance[SpanKey] == NilInstance then None
    else match instance[SpanKey]
      case SpanInstance(span) => Some(span)
      case _ => None
  }

  /** Events of `injectBefore`: a span named after the operation, under the statement
      context's active span, tagged as a MySQL call. */
  function InjectTrace(id: SpanId, ctx: Context, opName: string): (t: seq<Event>)
    ensures StartCount(t, id) == 1 && FinishCount(t, id) == 0
    ensures t[0] == Start(id, opName, ctx.activeSpan)
    ensures Tag(id, DBTypeTag, DBTypeMySQL) in t
  {
    CountsPair(Start(id, opName, ctx.activeSpan), Tag(id, DBTypeTag, DBTypeMySQL), id);
    CountsSingle(Start(id, opName, ctx.activeSpan), id);
    CountsSingle(Tag(id, DBTypeTag, DBTypeMySQL), id);
    [Start(id, opName, ctx.activeSpan), Tag(id, DBTypeTag, DBTypeMySQL)]
  }

  /** Events of `extractAfter`: nothing without a stored span; otherwise the SQL is logged on
      it and it is finished. */
  function ExtractTrace(found: Option<SpanId>, sql: string): (t: seq<Event>)
    ensures found.None? ==> t == []
    ensures found.Some? ==> FinishCount(t, found.value) == 1 && StartCount(t, found.value) == 0
    ensures found.Some? ==> t[0] == Log(found.value, SqlField, sql) && t[|t| - 1] == Finish(found.value)
  {
    match found
    case None => []
    case Some(id) =>
      CountsPair(Log(id, SqlField, sql), Finish(id), id);
      CountsSingle(Log(id, SqlField, sql), id);
      CountsSingle(Finish(id), id);
      [Log(id, SqlField, sql), Finish(id)]
  }

  method InjectBefore(db: DB, opName: string, tracer: Tracer)
    requires tracer.Valid()
    modifies db, tracer
    ensures tracer.Valid() && tracer.nextId == old(tracer.nextId) + 1
    ensures tracer.events == old(tracer.events) + InjectTrace(old(tracer.nextId), db.context, opName)
    ensures db.instance == old(db.instance)[SpanKey := SpanInstance(old(tracer.nextId))]
    ensures StartCount(tracer.events, old(tracer.nextId)) == 1
  {
    StartedOnceAfter(tracer.events, InjectTrace(tracer.nextId, db.context, opName), tracer.nextId);
    var span := tracer.StartSpan(opName, db.context.activeSpan);
    tracer.SetTag(span, DBTypeTag, DBTypeMySQL);
    db.instance := db.instance[SpanKey := SpanInstance(span)];
  }

  /** Only the tracer changes: the stored entry stays where it is. */
  method ExtractAfter(db: DB, tracer: Tracer)
    requires tracer.Valid()
    modifies tracer
    ensures tracer.Valid() && tracer.nextId == old(tracer.nextId)
    ensures tracer.events == old(tracer.events) + ExtractTrace(StoredSpan(db.instance), db.explainedSql)
  {
    if SpanKey !in db.instance || db.instance[SpanKey] == NilInstance {
      return;
    }
    var v := db.instance[SpanKey];
    if !v.SpanInstance? {
      return;
    }
    tracer.LogField(v.span, SqlField, db.explainedSql);
    tracer.Finish(v.span);
  }

  /** The store/lookup protocol: what the before-hook stores, the after-hook finds, and the
      span it started is then finished exactly once, after its SQL is logged. */
  lemma InjectThenExtract(instance: map<string, InstanceValue>, id: SpanId, ctx: Context, opName: string, sql: string)
    ensures StoredSpan(instance[SpanKey := SpanInstance(id)]) == Some(id)
    ensures Completes(InjectTrace(id, ctx, opName) + ExtractTrace(Some(id), sql), id)
  {
    CountsAppend(InjectTrace(id, ctx, opName), ExtractTrace(Some(id), sql), id);
  }

  /** A later before-hook on the same call replaces the span an earlier one stored. */
  lemma LaterInjectWins(instance: map<string, InstanceValue>, first: SpanId, second: SpanId)
    ensures StoredSpan(instance[SpanKey := SpanInstance(first)][SpanKey := SpanInstance(second)]) == Some(second)
  {
  }

  /** Since the entry is never removed, a second after-hook on the same call finds the same
      span and finishes it again. */
  lemma AfterTwiceFinishesTwice(instance: map<string, InstanceValue>, sql: string)
    requires StoredSpan(instance).Some?
    ensures FinishCount(ExtractTrace(StoredSpan(instance), sql) + ExtractTrace(StoredSpan(instance), sql),
                        StoredSpan(instance).value) == 2
  {
    var t := ExtractTrace(StoredSpan(instance), sql);
    CountsAppend(t, t, StoredSpan(instance).value);
  }
}

module GormPlugin {
  import opened Wrappers
  import opened GormTypes
  import opened GormCallback

  const PluginName := "opentracingPlugin"
  const CallbackBeforeName := "opentracing:before"
  const CallbackAfterName := "opentracing:after"

  /** Where a callback goes in its processor's chain: before or after a named callback. */
  datatype Anchor = BeforeAnchor(name: string) | AfterAnchor(name: string)

  datatype Registration = Registration(processor: Kind, anchor: Anchor, name: string, handler: Handler)

  /** GORM's callback registry, as far as registering goes: an append-only list. */
  class Callbacks {
    var registered: seq<Registration>

    constructor ()
      ensures registered == []
    {
      registered := [];
    }

    method Register(r: Registration)
      modifies this
      ensures registered == old(registered) + [r]
    {
      registered := registered + [r];
    }
  }

  function Name(): (r: string)
    ensures r == PluginName
  {
    "opentracingPlugin"
  }

  /** The before-callback of a kind: named "opentracing:before", anchored before the kind's
      own before-name, running that kind's before-dispatcher. */
  function BeforeRegistration(k: Kind): Registration
  {
    Registration(k, BeforeAnchor(OptionOf(k).Before()), CallbackBeforeName, BeforeHandler(k))
  }

  function AfterRegistration(k: Kind): Registration
  {
    Registration(k, AfterAnchor(OptionOf(k).After()), CallbackAfterName, AfterHandler)
  }

  /** The order in which `Initialize` visits the kinds, once for the before-callbacks and
      once for the after-callbacks. */
  const RegistrationOrder := [Create, Query, Delete, Update, Row, Raw]

  function BeforeRegistrations(order: seq<Kind>): (r: seq<Registration>)
    ensures |r| == |order|
    decreases |order|
  {
    if order == [] then [] else [BeforeRegistration(order[0])] + BeforeRegistrations(order[1..])
  }

  function AfterRegistrations(order: seq<Kind>): (r: seq<Registration>)
    ensures |r| == |order|
    decreases |order|
  {
    if order == [] then [] else [AfterRegistration(order[0])] + AfterRegistrations(order[1..])
  }

  lemma {:induction false} RegistrationShapes(order: seq<Kind>)
    ensures forall r :: r in BeforeRegistrations(order) ==> r == BeforeRegistration(r.processor)
    ensures forall r :: r in AfterRegistrations(order) ==> r == AfterRegistration(r.processor)
    decreases |order|
  {
    if order != [] {
      RegistrationShapes(order[1..]);
    }
  }

  /** A kind's before-callback occurs in the list as often as the kind occurs in the order,
      and no after-callback occurs in it. */
  lemma {:induction false} BeforeCounts(order: seq<Kind>, k: Kind)
    ensures multiset(BeforeRegistrations(order))[BeforeRegistration(k)] == multiset(order)[k]
    ensures multiset(BeforeRegistrations(order))[AfterRegistration(k)] == 0
    decreases |order|
  {
    if order != [] {
      var x, rest := BeforeRegistration(order[0]), order[1..];
      BeforeCounts(rest, k);
      assert order == [order[0]] + rest;
      assert multiset(BeforeRegistrations(order)) == multiset{x} + multiset(BeforeRegistrations(rest));
      assert (x == BeforeRegistration(k)) == (order[0] == k) by {
        assert x.processor == order[0];
      }
      assert x != AfterRegistration(k) by {
        assert x.handler.BeforeHandler?;
      }
    }
  }

  /** The same for the after-callbacks. */
  lemma {:induction false} AfterCounts(order: seq<Kind>, k: Kind)
    ensures multiset(AfterRegistrations(order))[AfterRegistration(k)] == multiset(order)[k]
    ensures multiset(AfterRegistrations(order))[BeforeRegistration(k)] == 0
    decreases |order|
  {
    if order != [] {
      var x, rest := AfterRegistration(order[0]), order[1..];
      AfterCounts(rest, k);
      assert order == [order[0]] + rest;
      assert multiset(AfterRegistrations(order)) == multiset{x} + multiset(AfterRegistrations(rest));
      assert (x == AfterRegistration(k)) == (order[0] == k) by {
        assert x.processor == order[0];
      }
      assert x != BeforeRegistration(k) by {
        assert x.handler.AfterHandler?;
      }
    }
  }

  /** The twelve registrations of `Initialize`, in its order. */
  function InitializeTable(): seq<Registration>
  {
    BeforeRegistrations(RegistrationOrder) + AfterRegistrations(RegistrationOrder)
  }

  /** A kind occurs once in the visiting order. */
  lemma OrderCount(k: Kind)
    ensures multiset(RegistrationOrder)[k] == 1
  {
  }

  /** Exactly one before-callback and one after-callback per kind, and nothing else. */
  lemma InitializeTableComplete()
    ensures |InitializeTable()| == 12
    ensures forall k :: multiset(InitializeTable())[BeforeRegistration(k)] == 1
    ensures forall k :: multiset(InitializeTable())[AfterRegistration(k)] == 1
    ensures forall r :: r in InitializeTable() ==> r == BeforeRegistration(r.processor) || r == AfterRegistration(r.processor)
  {
    forall k
      ensures multiset(InitializeTable())[BeforeRegistration(k)] == 1
      ensures multiset(InitializeTable())[AfterRegistration(k)] == 1
    {
      BeforeCounts(RegistrationOrder, k);
      AfterCounts(RegistrationOrder, k);
      OrderCount(k);
    }
    RegistrationShapes(RegistrationOrder);
  }

  lemma ExpandTable()
    ensures InitializeTable() ==
      [BeforeRegistration(Create), BeforeRegistration(Query), BeforeRegistration(Delete),
       BeforeRegistration(Update), BeforeRegistration(Row), BeforeRegistration(Raw),
       AfterRegistration(Create), AfterRegistration(Query), AfterRegistration(Delete),
       AfterRegistration(Update), AfterRegistration(Row), AfterRegistration(Raw)]
  {
    var o := RegistrationOrder;
    assert o[1..][1..][1..][1..][1..][1..] == [];
    assert BeforeRegistrations(o) == [BeforeRegistration(Create), BeforeRegistration(Query), BeforeRegistration(Delete),
      BeforeRegistration(Update), BeforeRegistration(Row), BeforeRegistration(Raw)];
    assert AfterRegistrations(o) == [AfterRegistration(Create), AfterRegistration(Query), AfterRegistration(Delete),
      AfterRegistration(Update), AfterRegistration(Row), AfterRegistration(Raw)];
  }

  /** Each registration's anchor is the one its name calls for: "opentracing:before" goes
      before an option's "_before" name, "opentracing:after" after its "_after" name. */
  lemma AnchorsMatchNames(r: Registration)
    requires r in InitializeTable()
    ensures r.name == CallbackBeforeName <==> r.anchor.BeforeAnchor?
    ensures r.anchor.BeforeAnchor? ==> TrimSuffix(r.anchor.name, BeforeSuffix) == Some(OptionOf(r.processor).String())
    ensures r.anchor.AfterAnchor? ==> TrimSuffix(r.anchor.name, AfterSuffix) == Some(OptionOf(r.processor).String())
  {
    RegistrationShapes(RegistrationOrder);
    OptionSuffixes(OptionOf(r.processor));
  }

  method Initialize(callbacks: Callbacks) returns (err: Option<string>)
    modifies callbacks
    ensures callbacks.registered == old(callbacks.registered) + InitializeTable()
    ensures err == None
  {
    callbacks.Register(BeforeRegistration(Create));
    callbacks.Register(BeforeRegistration(Query));
    callbacks.Register(BeforeRegistration(Delete));
    callbacks.Register(BeforeRegistration(Update));
    callbacks.Register(BeforeRegistration(Row));
    callbacks.Register(BeforeRegistration(Raw));

    callbacks.Register(AfterRegistration(Create));
    callbacks.Register(AfterRegistration(Query));
    callbacks.Register(AfterRegistration(Delete));
    callbacks.Register(AfterRegistration(Update));
    callbacks.Register(AfterRegistration(Row));
    callbacks.Register(AfterRegistration(Raw));
    ExpandTable();
    err := None;
  }
}
