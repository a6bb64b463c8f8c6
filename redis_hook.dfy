/** The go-redis hook of redishook/hook.go: a span per command and one per pipeline.

    A command is a `redis.Cmder`: `ref` is the identity of the command object (the key the
    hook binds its span to in the context), `name` is `cmd.Name()` and `args` is the
    `fmt "%v"` rendering of `cmd.Args()`, which stays an opaque string here. */
module RedisHook {
  import opened Wrappers
  import opened Tracing

  datatype Cmd = Cmd(ref: nat, name: string, args: string)

  const NamePrefix := "redis:"
  const EmptyCommand := "(empty command)"
  const PipelineOperation := "redis-pipeline"
  const DBType := "redis"
  const InvalidSpanType := "invalid span type"
  /** The pipeline loop breaks at the first index greater than this one. */
  const RenderLimit := 50
  const Ellipsis := "..."

  /** `strings.ToUpper`, for ASCII letters. */
  function UpperChar(c: char): char
  {
    if 'a' <= c <= 'z' then (c as int - 32) as char else c
  }

  function ToUpper(s: string): string
  {
    seq(|s|, i requires 0 <= i < |s| => UpperChar(s[i]))
  }

  /** `getCmdName`: the span name of a command. */
  function GetCmdName(cmd: Cmd): (r: string)
    ensures |r| > |NamePrefix| && r[..|NamePrefix|] == NamePrefix
    ensures cmd.name != "" ==> r[|NamePrefix|..] == ToUpper(cmd.name)
    ensures cmd.name == "" ==> r[|NamePrefix|..] == EmptyCommand
  {
    var cmdName := ToUpper(cmd.name);
    NamePrefix + (if cmdName == "" then EmptyCommand else cmdName)
  }

  /** The fallback name is used exactly for commands with an empty name: no upper-cased
      name can spell "(empty command)", which has lower-case letters. */
  lemma EmptyCommandIff(cmd: Cmd)
    ensures GetCmdName(cmd) == NamePrefix + EmptyCommand <==> cmd.name == ""
  {
    if cmd.name != "" {
      var u := ToUpper(cmd.name);
      assert GetCmdName(cmd) == NamePrefix + u;
      if |u| == |EmptyCommand| {
        assert u[1] == UpperChar(cmd.name[1]);
        assert u[1] != EmptyCommand[1];
      }
      assert u != EmptyCommand;
    }
  }

  /** One statement entry of the pipeline loop: `fmt.Sprintf("%v:%v ", cmdName, cmd.Args())`. */
  function Entry(cmd: Cmd): string
  {
    GetCmdName(cmd) + ":" + cmd.args + " "
  }

  /** An entry starts with the command's span name and ends with a space. */
  lemma EntryShape(cmd: Cmd)
    ensures |Entry(cmd)| > |GetCmdName(cmd)| && Entry(cmd)[..|GetCmdName(cmd)|] == GetCmdName(cmd)
    ensures Entry(cmd)[|Entry(cmd)| - 1] == ' '
  {
  }

  /** Strings written one after another into a buffer. */
  function Concat(parts: seq<string>): string
    decreases |parts|
  {
    if parts == [] then "" else Concat(parts[..|parts| - 1]) + parts[|parts| - 1]
  }

  lemma {:induction false} ConcatAppend(a: seq<string>, b: seq<string>)
    ensures Concat(a + b) == Concat(a) + Concat(b)
    decreases |b|
  {
    if b == [] {
      assert a + b == a;
    } else {
      assert (a + b)[..|a + b| - 1] == a + b[..|b| - 1];
      ConcatAppend(a, b[..|b| - 1]);
    }
  }

  /** The entry of each command, one per command, in order. */
  function EntryList(cmds: seq<Cmd>): (r: seq<string>)
    ensures |r| == |cmds|
    ensures forall i :: 0 <= i < |cmds| ==> r[i] == Entry(cmds[i])
  {
    seq(|cmds|, i requires 0 <= i < |cmds| => Entry(cmds[i]))
  }

  function Entries(cmds: seq<Cmd>): string
  {
    Concat(EntryList(cmds))
  }

  /** The statement the pipeline span is tagged with: the entries of the commands at
      indices 0..RenderLimit, then the ellipsis when there were more commands. */
  function Statement(cmds: seq<Cmd>): string
  {
    if |cmds| > RenderLimit + 1 then Entries(cmds[..RenderLimit + 1]) + Ellipsis else Entries(cmds)
  }

  lemma EntriesAppend(a: seq<Cmd>, b: seq<Cmd>)
    ensures Entries(a + b) == Entries(a) + Entries(b)
  {
    assert EntryList(a + b) == EntryList(a) + EntryList(b);
    ConcatAppend(EntryList(a), EntryList(b));
  }

  lemma EntriesEmptyIff(cmds: seq<Cmd>)
    ensures Entries(cmds) == "" <==> cmds == []
    ensures cmds != [] ==> Entries(cmds)[|Entries(cmds)| - 1] == ' '
  {
    if cmds != [] {
      var n := |cmds| - 1;
      assert EntryList(cmds)[..n] == EntryList(cmds[..n]);
      EntryShape(cmds[n]);
    }
  }

  /** The statement ends with the ellipsis marker exactly when the batch has more commands
      than the loop renders: every entry ends with a space. */
  lemma EllipsisIffTruncated(cmds: seq<Cmd>)
    ensures (|Statement(cmds)| >= |Ellipsis| && Statement(cmds)[|Statement(cmds)| - |Ellipsis|..] == Ellipsis)
            <==> |cmds| > RenderLimit + 1
  {
    var s := Statement(cmds);
    if |cmds| <= RenderLimit + 1 {
      EntriesEmptyIff(cmds);
      if |s| >= |Ellipsis| {
        assert s[|s| - |Ellipsis|..][2] == s[|s| - 1] == ' ';
      }
    } else {
      var e := Entries(cmds[..RenderLimit + 1]);
      assert s == e + Ellipsis;
      assert s[|s| - |Ellipsis|..] == Ellipsis;
    }
  }

  /** The commands at indices 0..RenderLimit are rendered in order: for every k up to the
      number of rendered commands, the entries of the first k commands begin the statement. */
  lemma RenderedPrefix(cmds: seq<Cmd>, k: nat)
    requires k <= |cmds| && k <= RenderLimit + 1
    ensures |Entries(cmds[..k])| <= |Statement(cmds)|
    ensures Statement(cmds)[..|Entries(cmds[..k])|] == Entries(cmds[..k])
  {
    var n := if |cmds| > RenderLimit + 1 then RenderLimit + 1 else |cmds|;
    var tail := if |cmds| > RenderLimit + 1 then Ellipsis else "";
    assert cmds[..|cmds|] == cmds;
    assert Statement(cmds) == Entries(cmds[..n]) + tail;
    assert cmds[..n] == cmds[..k] + cmds[k..n];
    EntriesAppend(cmds[..k], cmds[k..n]);
    assert Statement(cmds) == Entries(cmds[..k]) + (Entries(cmds[k..n]) + tail);
  }

  /** Commands past index RenderLimit are never rendered: two long batches that agree on
      their first RenderLimit + 1 commands get the same statement. */
  lemma TailNotRendered(a: seq<Cmd>, b: seq<Cmd>)
    requires |a| > RenderLimit + 1 && |b| > RenderLimit + 1
    requires a[..RenderLimit + 1] == b[..RenderLimit + 1]
    ensures Statement(a) == Statement(b)
    ensures Statement(a) == Statement(a[..RenderLimit + 1]) + Ellipsis
  {
  }

  /** The statement loop of `BeforeProcessPipeline`, writing into a buffer. */
  method PipelineStatement(cmds: seq<Cmd>) returns (buffer: string)
    ensures buffer == Statement(cmds)
  {
    buffer := "";
    var i := 0;
    while i < |cmds|
      invariant 0 <= i <= |cmds| && i <= RenderLimit + 1
      invariant buffer == Entries(cmds[..i])
    {
      if i > RenderLimit {
        buffer := buffer + Ellipsis;
        break;
      }
      assert EntryList(cmds[..i + 1]) == EntryList(cmds[..i]) + [Entry(cmds[i])];
      ConcatAppend(EntryList(cmds[..i]), [Entry(cmds[i])]);
      buffer := buffer + Entry(cmds[i]);
      i := i + 1;
    }
    assert i == |cmds| ==> cmds[..i] == cmds;
  }

  /** Events of `BeforeProcess`: start a span named after the command, under the context's
      active span, tag it as a redis call with the rendered arguments. */
  function CommandTrace(id: SpanId, ctx: Context, cmd: Cmd): (t: seq<Event>)
    ensures StartCount(t, id) == 1 && FinishCount(t, id) == 0
    ensures t[0] == Start(id, GetCmdName(cmd), ctx.activeSpan)
    ensures Tag(id, DBTypeTag, DBType) in t && Tag(id, DBStatementTag, cmd.args) in t
  {
    var t := [Start(id, GetCmdName(cmd), ctx.activeSpan), Tag(id, DBTypeTag, DBType), Tag(id, DBStatementTag, cmd.args)];
    CountsAppend([t[0], t[1]], [t[2]], id);
    CountsAppend([t[0]], [t[1]], id);
    CountsSingle(t[0], id);
    CountsSingle(t[1], id);
    CountsSingle(t[2], id);
    assert t == [t[0], t[1]] + [t[2]];
    assert [t[0], t[1]] == [t[0]] + [t[1]];
    t
  }

  /** Events of `BeforeProcessPipeline`: one span for the whole batch, tagged with the statement. */
  function PipelineTrace(id: SpanId, ctx: Context, cmds: seq<Cmd>): (t: seq<Event>)
    ensures StartCount(t, id) == 1 && FinishCount(t, id) == 0
    ensures t[0] == Start(id, PipelineOperation, ctx.activeSpan)
    ensures Tag(id, DBTypeTag, DBType) in t && Tag(id, DBStatementTag, Statement(cmds)) in t
  {
    var t := [Start(id, PipelineOperation, ctx.activeSpan), Tag(id, DBTypeTag, DBType), Tag(id, DBStatementTag, Statement(cmds))];
    CountsAppend([t[0], t[1]], [t[2]], id);
    CountsAppend([t[0]], [t[1]], id);
    CountsSingle(t[0], id);
    CountsSingle(t[1], id);
    CountsSingle(t[2], id);
    assert t == [t[0], t[1]] + [t[2]];
    assert [t[0], t[1]] == [t[0]] + [t[1]];
    t
  }

  /** `AfterProcess`'s result: nil when a span is bound to the command, else the error. */
  function AfterError(ctx: Context, cmd: Cmd): (err: Option<string>)
    ensures err.None? <==> SpanAt(ctx, cmd.ref).Some?
    ensures err.Some? ==> err.value == InvalidSpanType
  {
    if SpanAt(ctx, cmd.ref).Some? then None else Some(InvalidSpanType)
  }

  // The hook (`New` returns a `*hook` with no fields) carries no state, so its four methods
  // are written at module level.

  method BeforeProcess(tracer: Tracer, ctx: Context, cmd: Cmd) returns (ctx': Context, err: Option<string>)
    requires tracer.Valid()
    modifies tracer
    ensures tracer.Valid() && tracer.nextId == old(tracer.nextId) + 1
    ensures tracer.events == old(tracer.events) + CommandTrace(old(tracer.nextId), ctx, cmd)
    ensures ctx' == WithSpan(ctx, cmd.ref, old(tracer.nextId))
    ensures err == None
    ensures StartCount(tracer.events, old(tracer.nextId)) == 1
  {
    StartedOnceAfter(tracer.events, CommandTrace(tracer.nextId, ctx, cmd), tracer.nextId);
    var span := tracer.StartSpan(GetCmdName(cmd), ctx.activeSpan);
    tracer.SetTag(span, DBTypeTag, DBType);
    tracer.SetTag(span, DBStatementTag, cmd.args);
    ctx' := WithSpan(ctx, cmd.ref, span);
    err := None;
  }

  method AfterProcess(tracer: Tracer, ctx: Context, cmd: Cmd) returns (err: Option<string>)
    requires tracer.Valid()
    modifies tracer
    ensures tracer.Valid() && tracer.nextId == old(tracer.nextId)
    ensures tracer.events == old(tracer.events) + FinishTrace(SpanAt(ctx, cmd.ref))
    ensures err == AfterError(ctx, cmd)
  {
    var v := SpanAt(ctx, cmd.ref);
    if v.Some? {
      tracer.Finish(v.value);
      err := None;
    } else {
      err := Some(InvalidSpanType);
    }
  }

  method BeforeProcessPipeline(tracer: Tracer, ctx: Context, cmds: seq<Cmd>) returns (ctx': Context, err: Option<string>)
    requires |cmds| > 0
    requires tracer.Valid()
    modifies tracer
    ensures tracer.Valid() && tracer.nextId == old(tracer.nextId) + 1
    ensures tracer.events == old(tracer.events) + PipelineTrace(old(tracer.nextId), ctx, cmds)
    ensures ctx' == WithSpan(ctx, cmds[0].ref, old(tracer.nextId))
    ensures err == None
    ensures StartCount(tracer.events, old(tracer.nextId)) == 1
  {
    StartedOnceAfter(tracer.events, PipelineTrace(tracer.nextId, ctx, cmds), tracer.nextId);
    var pipelineSpan := tracer.StartSpan(PipelineOperation, ctx.activeSpan);
    tracer.SetTag(pipelineSpan, DBTypeTag, DBType);
    var buffer := PipelineStatement(cmds);
    tracer.SetTag(pipelineSpan, DBStatementTag, buffer);
    ctx' := WithSpan(ctx, cmds[0].ref, pipelineSpan);
    err := None;
  }

  method AfterProcessPipeline(tracer: Tracer, ctx: Context, cmds: seq<Cmd>) returns (err: Option<string>)
    requires |cmds| > 0
    requires tracer.Valid()
    modifies tracer
    ensures tracer.Valid() && tracer.nextId == old(tracer.nextId)
    ensures tracer.events == old(tracer.events) + FinishTrace(SpanAt(ctx, cmds[0].ref))
    ensures err == None
  {
    var v := SpanAt(ctx, cmds[0].ref);
    if v.Some? {
      tracer.Finish(v.value);
    }
    err := None;
  }

  /** Before/after on one command: the after-hook finds the span the before-hook bound,
      finishes it, and the span's life is complete; the error is nil. */
  lemma CommandRoundTrip(id: SpanId, ctx: Context, cmd: Cmd)
    ensures AfterError(WithSpan(ctx, cmd.ref, id), cmd) == None
    ensures Completes(CommandTrace(id, ctx, cmd) + FinishTrace(SpanAt(WithSpan(ctx, cmd.ref, id), cmd.ref)), id)
  {
    CountsAppend(CommandTrace(id, ctx, cmd), [Finish(id)], id);
  }

  /** Before/after on a batch: both hooks key the span by the first command. */
  lemma PipelineRoundTrip(id: SpanId, ctx: Context, cmds: seq<Cmd>)
    requires |cmds| > 0
    ensures Completes(PipelineTrace(id, ctx, cmds) + FinishTrace(SpanAt(WithSpan(ctx, cmds[0].ref, id), cmds[0].ref)), id)
  {
    CountsAppend(PipelineTrace(id, ctx, cmds), [Finish(id)], id);
  }

  /** A before-hook on one command does not change what the after-hook of another finds. */
  lemma OtherCommandUnaffected(id: SpanId, ctx: Context, cmd: Cmd, other: Cmd)
    requires other.ref != cmd.ref
    ensures AfterError(WithSpan(ctx, cmd.ref, id), other) == AfterError(ctx, other)
    ensures FinishTrace(SpanAt(WithSpan(ctx, cmd.ref, id), other.ref)) == FinishTrace(SpanAt(ctx, other.ref))
  {
  }
}
