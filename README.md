# Tracing middleware for Redis, HTTP and GORM — a Dafny model

This project models the OpenTracing instrumentation of a Go service toolkit. There are three parts:

- **the go-redis hook** (`redishook/hook.go`): it opens a span named `redis:<COMMAND>` before each command. It opens one `redis-pipeline` span before each pipeline, whose statement tag renders the batched commands. It binds the span into the context under the command, and finishes it in the after-hook.
- **the resty wrapper** (`httpc/request.go`):
  - functional options build the client settings;
  - `RestyRequest` turns them into the client's timeout, retry count, retry wait and close-connection flag, falling back to the package defaults, and adds a retry condition;
  - the traced `Get`/`Post`/`GetResult`/`PostResult` calls open a span named by `url2func`, inject it into the outgoing headers, tag it and finish it.
- **the GORM plugin** (`gormplugin/types.go`, `callback.go`, `plugin.go`): it registers one before-callback and one after-callback around each of GORM's six processors. The before-callback starts a span and stores it in the statement's instance store. The after-callback logs the explained SQL on the stored span and finishes it.

The tracer is modelled as a `Tracer` class (module `Tracing`) that appends events to a log:

- start, with name and parent;
- header injection;
- tag;
- log field;
- finish.

Span ids are handed out in increasing order. Every hook is a method whose new log is the old log plus a trace given by a pure function. The properties are proved about those trace functions: a span is started once, it is finished once, and its finish is its last event (`Tracing.Completes`). A Go `context.Context` is a `Context` value with an active span and a map from keys to stored values.

Modules:

- `Wrappers`: Option and Result.
- `Tracing`: the event log, the span counts, the context and the tracer.
- `RedisHook`.
- `Httpc`.
- `GormTypes`.
- `GormSpanStore`: `injectBefore`/`extractAfter` and the `*gorm.DB` they touch.
- `GormCallback`.
- `GormPlugin`: `Name`/`Initialize` and the callback registry.

Behaviours of the code the model keeps:

- **A pipeline statement renders 51 commands, not 50.** The loop appends `...` and stops only when the index exceeds 50, so indices 0 through 50 are rendered (`RedisHook.RenderLimit` is 50, and the lemmas speak of `RenderLimit + 1` commands).
- **A missing span is an error for single commands.** The single-command after-hook returns the error "invalid span type" when the context holds no span under the command. Only the pipeline after-hook is silent.
- **The URL name falls back to the host on an empty last piece.** `url2func` falls back to the host whenever the last `/`-separated piece of the path is empty: that is, for a trailing slash as well as for an empty path. When the URL does not parse, it returns the raw URL without the `HTTP_Request:` prefix.
- **The `result` tag is set at the `defer` statement.** In `GetResult`/`PostResult`, `defer span.SetTag("result", result).Finish()` runs `SetTag` at the `defer` statement, with the interface value `result` as it was passed. So the tag comes after the method and URL tags, and only `Finish` runs at return.

## Model

| member | source | states |
|---|---|---|
| RedisHook.GetCmdName | redishook/hook.go:63-69 | the name is `redis:` followed by the upper-cased command name, or by `(empty command)` exactly when the command name is empty; never just the prefix |
| RedisHook.EmptyCommandIff | redishook/hook.go:64-67 | the placeholder name is produced if and only if the command's name is empty |
| RedisHook.EntryShape | redishook/hook.go:48-49 | each pipeline entry starts with the command's span name and ends with a space |
| RedisHook.EntriesAppend | redishook/hook.go:43-50 | rendering a batch is rendering its parts one after the other |
| RedisHook.EntriesEmptyIff | redishook/hook.go:43-50 | the rendered entries are empty only for an empty batch, and otherwise end in a space |
| RedisHook.EllipsisIffTruncated | redishook/hook.go:43-47 | the statement ends in `...` if and only if the batch has more than 51 commands |
| RedisHook.RenderedPrefix | redishook/hook.go:43-50 | the statement begins with the rendering of every prefix of the first 51 commands, in batch order |
| RedisHook.TailNotRendered | redishook/hook.go:43-47 | commands after the 51st do not affect the statement, which is the first 51 entries plus `...` |
| RedisHook.PipelineStatement | redishook/hook.go:42-50 | the buffer built by the loop, with its early break, equals the statement specification |
| RedisHook.CommandTrace | redishook/hook.go:21-24 | a command span is started once under the context's active span, with the command's span name, tagged `db.type=redis` and with the rendered arguments, and not finished |
| RedisHook.PipelineTrace | redishook/hook.go:39-51 | the pipeline span `redis-pipeline` is started once, tagged `db.type=redis` and with the pipeline statement, and not finished |
| RedisHook.AfterError | redishook/hook.go:29-36 | the after-hook fails with "invalid span type" if and only if the context holds no span under the command |
| RedisHook.BeforeProcess | redishook/hook.go:21-27 | appends the command trace, binds the new span under the command in the returned context, returns no error; the new span is started exactly once in the tracer's whole log |
| RedisHook.AfterProcess | redishook/hook.go:29-37 | finishes exactly the span bound under the command, if any; otherwise logs nothing and returns the error |
| RedisHook.BeforeProcessPipeline | redishook/hook.go:39-53 | appends the pipeline trace and binds the span under the first command; the new span is started exactly once in the tracer's whole log |
| RedisHook.AfterProcessPipeline | redishook/hook.go:55-61 | finishes the span bound under the first command if there is one, and never fails |
| RedisHook.CommandRoundTrip | redishook/hook.go:21-37 | after the before-hook, the after-hook succeeds and the command span is started once and finished once, last |
| RedisHook.PipelineRoundTrip | redishook/hook.go:39-61 | the same lifecycle for the pipeline span, found through the first command |
| RedisHook.OtherCommandUnaffected | redishook/hook.go:25-30 | binding one command's span changes neither the error nor the finish of an after-hook for a different command |
| Tracing.WithSpan | redishook/hook.go:25 | `context.WithValue` adds the key, makes the span visible under it, and leaves the active span and every other key unchanged |
| Tracing.SpanAt | redishook/hook.go:30 | the lookup with type assertion yields a span exactly when the key holds a span value |
| Tracing.FinishTrace | redishook/hook.go:56-59 | finishing a found span finishes it once and starts nothing; nothing found means no event |
| Httpc.LastSegment | httpc/request.go:208-209 | the last path segment is the maximal slash-free suffix of the path |
| Httpc.LastPieceIsLastSegment | httpc/request.go:208-209 | the last element of `strings.Split(path, "/")` is that last segment |
| Httpc.LastSegmentEmptyIff | httpc/request.go:209-212 | the host fallback happens if and only if the path is empty or ends with `/` |
| Httpc.Url2Func | httpc/request.go:203-214 | the span name is the raw URL when parsing fails; otherwise `HTTP_Request:` plus the last segment, or plus the host when that segment is empty |
| Httpc.ApplyOpt | httpc/request.go:54-80 | each option writes exactly its own field with its argument and leaves the other three fields unchanged |
| Httpc.UnwrittenFieldKept | httpc/request.go:48-50 | a field no option in the list writes keeps its initial value |
| Httpc.LastOptionWins | httpc/request.go:48-50 | when several options write a field, the last one's value is the final one |
| Httpc.Request.Apply | httpc/request.go:48-50 | applying an option to the request changes its settings as the option specifies |
| Httpc.NewRequest | httpc/request.go:44-52 | a fresh request whose settings are the options applied in order to the zero settings, on a fresh client with no retry conditions |
| Httpc.Configure | httpc/request.go:84-98 | each of timeout, retry count and wait is the request's value when positive and the package default (2s, 1, 1s) otherwise; the close-connection flag is copied; all three are positive |
| Httpc.ConfigureIdempotent | httpc/request.go:84-98 | configuring from an already configured client's values changes nothing |
| Httpc.RetryRule | httpc/request.go:99-108 | the retry condition holds if and only if the status is above 399 or the attempt returned an error |
| Httpc.AccumulatedConditions | httpc/request.go:99 | any number of copies of the condition, added by repeated calls, retry exactly when a single one does |
| Httpc.Request.RestyRequest | httpc/request.go:83-111 | the client's configuration becomes `Configure` of the request's settings, one retry condition is appended, and a fresh request handle on that client is returned |
| Httpc.FetchTrace | httpc/request.go:133-144 | the span is named by `url2func`, started and finished once, finish last; when the transport answered it carries the method tag and the tag of resty's final request URL, otherwise no tag but the result tag; the result tag holds the body, or nothing on failure |
| Httpc.ResultTrace | httpc/request.go:114-130 | the span is named by `url2func`, carries the method and URL tags, and is started and finished once, finish last |
| Httpc.RestyRequest.Get | httpc/request.go:133-144 | appends the fetch trace for GET; returns the body and no error when answered, an empty body and the transport error otherwise |
| Httpc.RestyRequest.Post | httpc/request.go:166-177 | the same for POST |
| Httpc.ResultOutcome | httpc/request.go:121-129 | on transport error, that error with the result untouched; otherwise resty's decoding with no error, unless the status is not 200 or the body is not JSON, when the fallback unmarshal's value, or its error with resty's decoding left in place |
| Httpc.RestyRequest.GetResult | httpc/request.go:114-130 | appends the result trace for GET and returns the error and result `ResultOutcome` gives |
| Httpc.RestyRequest.PostResult | httpc/request.go:147-163 | the same for POST |
| GormTypes.GormOption.String | gormplugin/types.go:5-7 | the string of an option is the option itself |
| GormTypes.OptionSuffixes | gormplugin/types.go:8-13 | an option's before-name strips back to the option under `_before` and never ends in `_after`, and vice versa |
| GormTypes.SuffixNamesDistinct | gormplugin/types.go:8-13 | distinct options have distinct before-names and after-names, and no before-name is an after-name |
| GormTypes.OptionsDistinct | gormplugin/types.go:15-22 | the six option constants are pairwise distinct |
| GormTypes.OperationStage.Name | gormplugin/types.go:26-28 | the name of a stage is the stage itself |
| GormTypes.StageSuffixes | gormplugin/types.go:30-35 | a stage's before-name and after-name strip back to the stage under their own suffix only |
| GormTypes.StageSuffixNamesDistinct | gormplugin/types.go:30-35 | distinct stages have distinct derived names, and no before-name is an after-name |
| GormTypes.StagesDistinct | gormplugin/types.go:37-50 | the twelve stage constants are pairwise distinct |
| GormCallback.OpNameIsOptionString | gormplugin/callback.go:5-12 | each operation name equals the string of the matching GORM option |
| GormCallback.OpNamesDistinct | gormplugin/callback.go:5-12 | the six operation names are pairwise distinct |
| GormCallback.BeforeCreate | gormplugin/callback.go:14-16 | stores a new span named `gorm:create`, started exactly once in the tracer's whole log |
| GormCallback.BeforeUpdate | gormplugin/callback.go:18-20 | stores a new span named `gorm:update`, started exactly once in the tracer's whole log |
| GormCallback.BeforeQuery | gormplugin/callback.go:22-24 | stores a new span named `gorm:query`, started exactly once in the tracer's whole log |
| GormCallback.BeforeDelete | gormplugin/callback.go:26-28 | stores a new span named `gorm:delete`, started exactly once in the tracer's whole log |
| GormCallback.BeforeRow | gormplugin/callback.go:30-32 | stores a new span named `gorm:row`, started exactly once in the tracer's whole log |
| GormCallback.BeforeRaw | gormplugin/callback.go:34-36 | stores a new span named `gorm:raw`, started exactly once in the tracer's whole log |
| GormCallback.After | gormplugin/callback.go:38-40 | logs the SQL on the stored span and finishes it, if there is one |
| GormSpanStore.StoredSpan | gormplugin/plugin.go:48-55 | a span is found if and only if the key is present and holds a span |
| GormSpanStore.InjectTrace | gormplugin/plugin.go:41-45 | the span is started once under the statement context's active span, with the operation name, tagged `db.type=mysql`, and not finished |
| GormSpanStore.ExtractTrace | gormplugin/plugin.go:47-58 | without a stored span nothing happens; with one, the SQL is logged first and the span finished once, last |
| GormSpanStore.InjectBefore | gormplugin/plugin.go:41-45 | appends the inject trace and stores the new span under `opentracing:span`, replacing any earlier entry; the new span is started exactly once in the tracer's whole log |
| GormSpanStore.ExtractAfter | gormplugin/plugin.go:47-58 | appends the extract trace of whatever is stored and leaves the store as it is |
| GormSpanStore.InjectThenExtract | gormplugin/plugin.go:41-58 | the after-callback finds the span the before-callback stored, and that span's lifecycle completes |
| GormSpanStore.LaterInjectWins | gormplugin/plugin.go:44 | a second before-callback on the same statement replaces the stored span |
| GormSpanStore.AfterTwiceFinishesTwice | gormplugin/plugin.go:47-58 | the entry is never cleared, so a second after-callback finishes the same span again |
| GormPlugin.Name | gormplugin/plugin.go:18-20 | the plugin is called `opentracingPlugin` |
| GormPlugin.InitializeTableComplete | gormplugin/plugin.go:22-37 | the twelve registrations hold exactly one before-callback and one after-callback for each processor, and nothing else |
| GormPlugin.AnchorsMatchNames | gormplugin/plugin.go:24-37 | `opentracing:before` is anchored before the processor option's `_before` name and `opentracing:after` after its `_after` name |
| GormPlugin.Initialize | gormplugin/plugin.go:22-39 | registers the twelve callbacks in source order and returns no error |

## Left out

- Redis command names are upper-cased for ASCII letters only. Go's `strings.ToUpper` covers all of Unicode.
- `fmt.Sprintf("%v", cmd.Args())` is not rendered. The rendered arguments are a string field of `Cmd`. A command's identity as a context key is its `ref` number.
- Redis `New`: the hook has no fields, so its four methods are module-level methods and `New` has no counterpart.
- `RedisHook.BeforeProcessPipeline` and `AfterProcessPipeline` require a non-empty batch. The Go code indexes `cmds[0]` and would panic on an empty one.
- `url.Parse` is not modelled. Its outcome is a field of `RequestUrl`.
- These parts of resty are inputs rather than modelled behaviour: its transport, its retry loop, its JSON content-type test, its decoding into the result, and `json.Unmarshal`. Their outcomes are the `Transport` and `unmarshal` parameters. Retry conditions are recorded on the client, not executed.
- The values `result` can take are abstracted to strings, so the model does not capture what a failed `json.Unmarshal` leaves partly written.
- Httpc.ResultTrace / Httpc.ResultOutcome: `result` is a value here, tagged as passed and returned decoded as a separate output. In Go it is an `interface{}` that `GetResult`/`PostResult` do not return. Resty and the fallback `json.Unmarshal` decode into `&result` (httpc/request.go:121, :125, :154, :158). So when the caller passes a pointer, the tag holds that same pointer and the decoding writes through it. When the caller passes a non-pointer, the decoded value never reaches the caller. The model captures neither aliasing.
- Httpc.Configure: the defaults are fixed at their initial values of 2s, 1 retry and 1s. In Go, `DefaultTimeout`, `DefaultRetryCount` and `DefaultRetryWaitTime` (httpc/request.go:20-24) are exported package variables, which an importer may reassign before `RestyRequest` reads them.
- The content of the injected trace headers is not modelled. `EnableTrace` is not modelled, and neither is the ignored `Inject` error. Injection is one `Inject` event.
- `SetFormData`, `SetHeaders`, `SetBody` and `SetQueryParams` (httpc/request.go:179-201) only forward to resty and are not modelled. Their effect on the URL that `Get`/`Post` tag is carried by `Response.requestUrl`.
- Httpc.OptFunc: only the four option constructors of the package are modelled. Go's `OptFunc` is an exported `func(*Request)`, so a caller may pass any function, and a nil one panics at httpc/request.go:49.
- Durations are unbounded integers of nanoseconds, so `time.Duration`'s 64-bit range is not modelled. The defaults only compare against zero.
- The client's initial values stand for `resty.New()`'s defaults and are not checked against resty.
- GORM's own callback machinery is not modelled. That covers how it orders a chain from `Before`/`After` anchors, how it treats duplicate names, how it runs the registered functions, and how it keys the instance store by statement. Registration is an append to a list whose entries name the callback function to run.
- GormSpanStore.StoredSpan: a typed-nil span under the key is not modelled. In Go such a value passes both nil tests at gormplugin/plugin.go:49 and :53, so `extractAfter` calls `LogFields` and `Finish` on a nil receiver, whose behaviour belongs to the tracer implementation.
- `Dialector.Explain` is not modelled. Its output is the `explainedSql` field of `DB`.
- The tracer's sampling, span context propagation formats and reporting are not modelled, nor are the packages that configure a global tracer, the Gin and HTTP middleware, and the context helpers. gormplugin, httpc and redishook call only the tracer interface. The model uses the `Tracer` class in its place.
