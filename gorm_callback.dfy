/** The callbacks of gormplugin/callback.go: one before-dispatcher per kind, each starting and
    storing a span under the kind's operation name, and one shared after-callback. */
module GormCallback {
  import opened Tracing
  import opened GormTypes
  import opened GormSpanStore

  const CreateOp := "gorm:create"
  const UpdateOp := "gorm:update"
  const QueryOp := "gorm:query"
  const DeleteOp := "gorm:delete"
  const RowOp := "gorm:row"
  const RawOp := "gorm:raw"

  function OpName(k: Kind): string
  {
    match k
    case Create => CreateOp
    case Update => UpdateOp
    case Query => QueryOp
    case Delete => DeleteOp
    case Row => RowOp
    case Raw => RawOp
  }

  /** Each operation name is the string of the matching GORM option. */
  lemma OpNameIsOptionString(k: Kind)
    ensures OpName(k) == OptionOf(k).String()
  {
  }

  /** The six operation names are pairwise distinct. */
  lemma OpNamesDistinct(a: Kind, b: Kind)
    ensures OpName(a) == OpName(b) ==> a == b
  {
  }

  /** A registered callback function: a kind's before-dispatcher or the after-callback. */
  datatype Handler = BeforeHandler(kind: Kind) | AfterHandler

  method BeforeCreate(db: DB, tracer: Tracer)
    requires tracer.Valid()
    modifies db, tracer
    ensures tracer.Valid() && tracer.nextId == old(tracer.nextId) + 1
    ensures tracer.events == old(tracer.events) + InjectTrace(old(tracer.nextId), db.context, CreateOp)
    ensures db.instance == old(db.instance)[SpanKey := SpanInstance(old(tracer.nextId))]
    ensures StartCount(tracer.events, old(tracer.nextId)) == 1
  {
    InjectBefore(db, CreateOp, tracer);
  }

  method BeforeUpdate(db: DB, tracer: Tracer)
    requires tracer.Valid()
    modifies db, tracer
    ensures tracer.Valid() && tracer.nextId == old(tracer.nextId) + 1
    ensures tracer.events == old(tracer.events) + InjectTrace(old(tracer.nextId), db.context, UpdateOp)
    ensures db.instance == old(db.instance)[SpanKey := SpanInstance(old(tracer.nextId))]
    ensures StartCount(tracer.events, old(tracer.nextId)) == 1
  {
    InjectBefore(db, UpdateOp, tracer);
  }

  method BeforeQuery(db: DB, tracer: Tracer)
    requires tracer.Valid()
    modifies db, tracer
    ensures tracer.Valid() && tracer.nextId == old(tracer.nextId) + 1
    ensures tracer.events == old(tracer.events) + InjectTrace(old(tracer.nextId), db.context, QueryOp)
    ensures db.instance == old(db.instance)[SpanKey := SpanInstance(old(tracer.nextId))]
    ensures StartCount(tracer.events, old(tracer.nextId)) == 1
  {
    InjectBefore(db, QueryOp, tracer);
  }

  method BeforeDelete(db: DB, tracer: Tracer)
    requires tracer.Valid()
    modifies db, tracer
    ensures tracer.Valid() && tracer.nextId == old(tracer.nextId) + 1
    ensures tracer.events == old(tracer.events) + InjectTrace(old(tracer.nextId), db.context, DeleteOp)
    ensures db.instance == old(db.instance)[SpanKey := SpanInstance(old(tracer.nextId))]
    ensures StartCount(tracer.events, old(tracer.nextId)) == 1
  {
    InjectBefore(db, DeleteOp, tracer);
  }

  method BeforeRow(db: DB, tracer: Tracer)
    requires tracer.Valid()
    modifies db, tracer
    ensures tracer.Valid() && tracer.nextId == old(tracer.nextId) + 1
    ensures tracer.events == old(tracer.events) + InjectTrace(old(tracer.nextId), db.context, RowOp)
    ensures db.instance == old(db.instance)[SpanKey := SpanInstance(old(tracer.nextId))]
    ensures StartCount(tracer.events, old(tracer.nextId)) == 1
  {
    InjectBefore(db, RowOp, tracer);
  }

  method BeforeRaw(db: DB, tracer: Tracer)
    requires tracer.Valid()
    modifies db, tracer
    ensures tracer.Valid() && tracer.nextId == old(tracer.nextId) + 1
    ensures tracer.events == old(tracer.events) + InjectTrace(old(tracer.nextId), db.context, RawOp)
    ensures db.instance == old(db.instance)[SpanKey := SpanInstance(old(tracer.nextId))]
    ensures StartCount(tracer.events, old(tracer.nextId)) == 1
  {
    InjectBefore(db, RawOp, tracer);
  }

  method After(db: DB, tracer: Tracer)
    requires tracer.Valid()
    modifies tracer
    ensures tracer.Valid() && tracer.nextId == old(tracer.nextId)
    ensures tracer.events == old(tracer.events) + ExtractTrace(StoredSpan(db.instance), db.explainedSql)
  {
    ExtractAfter(db, tracer);
  }
}
