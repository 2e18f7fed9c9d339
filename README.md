# brick: chained errors and HTTP route groups, in Dafny

This project models two parts of the Go repository lamber92/go-brick.

**The chained error of `berror/error.go`** is in module `BError` (`berror.dfy`).
A `*defaultError` holds three things: an optional wrapped cause, a status
(code, reason, detail) and a call stack. The stack is captured when the error
is created. If the cause is itself a `*defaultError` with a stack, that stack
is shared instead. Go error values are modelled as `Option<Err>`:

- `None` is the nil error.
- `Structured(d)` is a non-nil `*defaultError`.
- `Opaque(msg, inner)` is any other error, seen only through its `Error()`
  text and the error its `Unwrap()` returns.

A nil `*defaultError` receiver is `None : Option<DefaultError>`. Go's nil
stack slice is kept apart from an empty one (`StackList.NilList`), because
`New` tests for nil and `Stack()` must never return nil.

Stack capture reads the runtime, so it becomes a parameter. Each constructor
receives `rt`, the call stack as it sees it, with its own frame first.
`TakeStack(rt, skip)` drops `skip` frames and keeps at most `StacktraceMax`
(32). A convenience constructor calls `NewWithSkip` one frame deeper, on
`[WithSkipFrame] + rt`. The model proves that its skip of 1 records exactly
the stack `New` would record at the same call site.

`format()` builds a `Summary` tree, and `Error()` is modelled as the tree
its JSON text encodes. `MarshalLogObject` writes into an `Encoder` whose state
is the ordered list of fields it received. A structured cause is written as a
nested object, through a fresh nested encoder, as zap does.

**Route groups of `bnet/bhttp`** are in module `BHttp` (`bhttp.dfy`).
`Server` and `RouterGroup` are classes. Gin's router groups are reduced to a
`GinGroup` object: the handlers added to it with `Use` and the routes added
with `Handle`, in order. The engine is represented by its root group. Group
callbacks are recorded in a `CallLog`, which shows which callback ran on which
group and in what order. Reflection over a bound object becomes a list of
`ApiMethod` records. Each record holds the method's `Meta` tags, or `None`
when its request type has no `Meta` field.

`wrappers.dfy` holds the `Option` type both modules use.

## Model

| member | source | states |
|---|---|---|
| `BError.TakeStack` | berror/error.go:43 | a capture is never nil; it is exactly the frames above `skip`, in order: min(StacktraceMax, \|rt\| - skip) of them, or none when `skip` reaches past the stack |
| `BError.TakeStackBelowCall` | berror/error.go:67 | capturing with skip+1 below one more pushed frame records the same frames |
| `BError.New` | berror/error.go:32-46 | the cause is `err[0]` (none when no error is given); the status is the one given; the stack is the cause's when the cause is a `*defaultError` with a stack, otherwise a fresh capture skipping New's own frame; the stack is never nil |
| `BError.NewWithSkip` | berror/error.go:53-70 | same inheritance rule; a fresh capture uses skip+1; a nil cause always gets a fresh capture |
| `BError.NewWithSkipZeroIsNew` | berror/error.go:53-70 | NewWithSkip with skip 0 builds exactly what New builds from the same frame |
| `BError.NewRecordsCaller` | berror/error.go:41-44 | a fresh stack is non-empty, bounded by StacktraceMax, and starts at New's caller |
| `BError.WithCategory` | berror/error.go:174 | NewWithSkip(err, status, 1) from a constructor equals New called at the constructor's position, so skip 1 cancels the constructor's own frame |
| `BError.NewInvalidArgument` | berror/error.go:168-175 | status (InvalidArgument, reason, first detail or nil) with the given cause, built as New at the caller's position |
| `BError.NewInvalidArgumentf` | berror/error.go:177-180 | InvalidArgument, the formatted reason, nil detail, built as New at the caller's position |
| `BError.NewNotFound` | berror/error.go:182-189 | NotFound, reason, first detail or nil, built as New at the caller's position |
| `BError.NewNotFoundf` | berror/error.go:191-194 | NotFound, formatted reason, nil detail |
| `BError.NewRequestTimeout` | berror/error.go:196-203 | RequestTimeout, reason, first detail or nil |
| `BError.NewRequestTimeoutf` | berror/error.go:205-208 | RequestTimeout, formatted reason, nil detail |
| `BError.NewGatewayTimeout` | berror/error.go:210-217 | GatewayTimeout, reason, first detail or nil |
| `BError.NewGatewayTimeoutf` | berror/error.go:219-222 | GatewayTimeout, formatted reason, nil detail |
| `BError.NewClientClose` | berror/error.go:224-231 | ClientClosed, reason, first detail or nil |
| `BError.NewClientClosef` | berror/error.go:233-236 | ClientClosed, formatted reason, nil detail |
| `BError.NewAlreadyExists` | berror/error.go:238-245 | AlreadyExists, reason, first detail or nil |
| `BError.NewAlreadyExistsf` | berror/error.go:247-250 | AlreadyExists, formatted reason, nil detail |
| `BError.NewInternalError` | berror/error.go:252-259 | InternalError, reason, first detail or nil |
| `BError.NewInternalErrorf` | berror/error.go:261-264 | InternalError, formatted reason, nil detail |
| `BError.ConvenienceRecordsCaller` | berror/error.go:60-68 | for every code, reason, detail and cause with no stack to share, a convenience constructor's fresh stack is non-empty, at most StacktraceMax frames long, and starts at its caller |
| `BError.Error` | berror/error.go:72-79 | "" for a nil receiver, otherwise the encoding of format() |
| `BError.StatusOf` | berror/error.go:81-87 | bstatus.Unknown for a nil receiver, otherwise the stored status |
| `BError.Stack` | berror/error.go:89-95 | never nil; empty for a nil receiver or a nil stack, otherwise the stored frames |
| `BError.Cause` | berror/error.go:97-103 | nil for a nil receiver, otherwise the wrapped error |
| `BError.Unwrap` | berror/error.go:105-111 | always the same value as Cause |
| `BError.Format` | berror/error.go:120-123 | nil for a nil receiver, otherwise the receiver's summary |
| `BError.FormatLink` | berror/error.go:120-140 | nil exactly when the status is nil; code, reason and detail are the status's; next is null exactly when there is no cause, a nested summary exactly for a `*defaultError` cause (itself null when that cause's status is nil), and the cause's text for an opaque cause |
| `BError.FormatMirrorsChain` | berror/error.go:129-138 | a chain of k structured links formats to exactly k nested summaries carrying their statuses in chain order, ending in null or the first opaque cause's text |
| `BError.TwoLinkSummary` | berror/error.go:53-70 | wrapping New(statusA) with NewWithSkip(err, statusB, 0) gives a summary B nesting A nesting null, and the outer error's stack is the inner one's |
| `BError.LogFields` | berror/error.go:143-166 | the keys written are code, reason, detail only for a non-nil detail, and next only when there is a cause; code comes first as an int, then reason |
| `BError.MarshalLogObject` | berror/error.go:143-166 | appends exactly LogFields to the encoder; a `*defaultError` cause goes through a nested encoder as an object |
| `BError.LogFieldsMirrorFormat` | berror/error.go:143-166 | the logged fields are the field form of format()'s summary, level by level (a marshaling detail as an object, another detail reflected, an opaque cause as its text) |
| `BError.IsCode` | berror/error.go:267-279 | false for a nil error; true only when there is a structured link in the chain |
| `BError.FirstStructuredInChain` | berror/error.go:271-274 | errors.As finds no structured link exactly when every link of the unwrap chain is opaque, otherwise the first structured link of the chain |
| `BError.FirstStructuredAtUnique` | berror/error.go:271-274 | a chain has one first structured link |
| `BError.IsCodeFirstLink` | berror/error.go:267-279 | IsCode holds exactly when the chain's first structured link carries the code; deeper links are never consulted |
| `BError.IsCodeSeesOutermost` | berror/error.go:275-278 | after wrapping a structured error, IsCode answers by the outer status whatever the inner code |
| `BError.IsCodeThroughOpaque` | berror/error.go:272 | an opaque wrapper does not change IsCode's answer |
| `BError.WrapAllKeepsOriginStack` | berror/error.go:35-44 | however many times an error is wrapped with New, its stack stays that of the first structured creation |
| `BError.WrapAllDepth` | berror/error.go:32-46 | each wrap adds one structured link, and IsCode then sees only the last status added |
| `BHttp.NormalizePrefix` | bnet/bhttp/http_server_group.go:20-25 | the result is "" or starts with '/' and is not "/"; it is "" exactly for "" and "/"; a '/' is prepended when missing; otherwise the prefix is kept |
| `BHttp.NormalizeIdempotent` | bnet/bhttp/http_server.go:28-33 | normalising twice equals normalising once |
| `BHttp.ToUpper` | bnet/bhttp/http_server_group.go:72 | same length, no lower-case ASCII letter left, other characters kept |
| `BHttp.RouteOf` | bnet/bhttp/http_server_group.go:63-76 | a method gives a route exactly when it has a Meta field with non-empty path and method tags; the route uses the uppercased method |
| `BHttp.RoutesWellFormed` | bnet/bhttp/http_server_group.go:70-76 | no more routes than methods; every route has a path and a non-empty uppercase method |
| `BHttp.RoutesExactlyTagged` | bnet/bhttp/http_server_group.go:57-77 | every taggable method is registered, and every registered route comes from a method of the object |
| `BHttp.BinderFor` | bnet/bhttp/http_server_group.go:84-91 | query binding exactly for GET, JSON exactly for POST and PUT, generic binding for every other method |
| `BHttp.TagCaseDoesNotMatter` | bnet/bhttp/http_server_group.go:72 | lower-case `get` and `put` tags still select query and JSON binding |
| `BHttp.Handle` | bnet/bhttp/http_server_group.go:79-104 | a binding error gives 400 with the error text and no call; otherwise the reflective call panics, with no reply, unless every argument is assignable to its parameter, and a call that goes through replies 200 with the first result, or writes nothing when there is none |
| `BHttp.Serve` | bnet/bhttp/http_server_group.go:79-104 | the handler as written, passing the request first and the context second: a binding error gives 400 with the error text |
| `BHttp.ServePanicsOnceBound` | bnet/bhttp/http_server_group.go:63-100 | as written, every request that binds makes the call panic: the API method never runs and nothing is replied |
| `BHttp.ServeIntended` | bnet/bhttp/http_server_group.go:61-104 | the handler with the arguments in declared order (context, then request): a binding error gives 400 with the error text |
| `BHttp.ServeIntendedReplies` | bnet/bhttp/http_server_group.go:61-103 | with the arguments in declared order, a bound request to a method whose first parameter takes the context calls it, and it replies 200 with the first result, or nothing when there is none |
| `BHttp.Server.constructor` | bnet/bhttp/http_server.go:11-14 | a server over a fresh engine with no handlers or routes added |
| `BHttp.Server.Middleware` | bnet/bhttp/http_server.go:20-25 | each handler is added to the engine with Use, in order; the same server is returned |
| `BHttp.Server.Group` | bnet/bhttp/http_server.go:27-45 | a fresh group with server s, the normalised prefix, no parent and no middleware, over a fresh engine group; each callback runs once on it, in order, and only the call log may change |
| `BHttp.RouterGroup.Group` | bnet/bhttp/http_server_group.go:19-42 | a fresh child whose parent is g, whose server is g's, and whose prefix is only its own normalised segment; a non-empty middleware list is copied into a fresh array with the same elements, an empty one leaves the child's nil; the parent's list is unchanged; each callback runs once on the child, in order, and only the call log may change |
| `BHttp.RouterGroup.Register` | bnet/bhttp/http_server_group.go:52-109 | the group's routes grow by exactly Routes of the object's methods, in method order |
| `BHttp.RouterGroup.Bind` | bnet/bhttp/http_server_group.go:44-49 | registers each object in order and returns the same group |
| `BHttp.RouterGroup.Middleware` | bnet/bhttp/http_server_group.go:111-116 | each handler is added to the gin group with Use, in order; the same group is returned |

## Left out

- Stack resolution to function, file and line, and the runtime walk behind bstack.TakeStack: bstack is not part of this model. The capture is modelled as "drop `skip` frames, keep at most 32".
- BError.NewWithSkip: `skip` is a `nat`. What bstack does with a negative skip is not part of this model.
- The numeric values of the bcode categories and the fields of bstatus.Unknown: bcode and bstatus are not part of this model. The model uses distinct placeholder constants, and no property depends on their values.
- bstatus.New: modelled as building the `Status` record as given.
- BError.Error: the JSON text itself (jsoniter) is not produced. The result stands for the encoding of the `Summary` tree. A marshal failure, which makes the source return "", is not modelled.
- A typed-nil `*defaultError` used as a cause makes `New` and `NewWithSkip` dereference nil (berror/error.go:37-38, 61-62); `format` checks for a nil receiver and gives a null `next` instead. This case cannot be represented: `Structured` always holds a value.
- BError.MarshalLogObject: it requires every structured link to have a non-nil status, because the source dereferences a nil status. The method's `error` result is always nil and is not modelled. The errors the encoder returns from `AddObject`/`AddReflected` are discarded by the source, and the recording encoder never fails.
- BError.IsCode: it requires the first structured link of the chain to have a non-nil status (`CodeReady`), because the source calls `Code()` on that status and a nil one panics (berror/error.go:275).
- IsCode: `errors.As` also honours custom `As` methods and multi-error `Unwrap() []error`. Neither is modelled. An opaque link unwraps to at most one error, and only `*defaultError` counts as a structured link.
- The zap encoder's own output format, and how a marshaling detail logs its own fields.
- `fmt.Sprintf` in the `*f` constructors: the formatted text is a parameter.
- BHttp.ToUpper: only ASCII letters are mapped. Unicode case mapping is not modelled.
- Reflection in `register` is replaced by `ApiMethod` records. The panic in `register` when a method has fewer than two parameters after the receiver, or a second parameter that is not a pointer, is not modelled: every `ApiMethod` declares a context parameter and a pointer to its request struct. Building the request instance is not modelled. Parameter types are reduced to `GoType`: the bcontext context, a pointer to a named struct, or an interface every value satisfies.
- The HTTP binding itself, the JSON replies and `bcontext` are parameters of `Serve` or left out: the result of each binding and the API method's return values are inputs.
- Gin internals: the path gin joins for a sub-group, the handlers gin copies into a sub-group, and the default middleware of `gin.Default()` are not modelled. A `GinGroup` records only what this code adds to it.
- Group callbacks: the model records each invocation (callback and target group). What a callback does to the group is not modelled. In the source a callback typically calls `Bind` or `Middleware` on the new group, so the `modifies log` frame of `BHttp.Server.Group` and `BHttp.RouterGroup.Group` holds only because callbacks have no modelled effect. Neither method promises anything about the new gin group's handlers or routes after the callbacks ran.
- `Server.Run` and networking.
- RouterGroup.Middleware adds handlers to the gin group only. It never appends to the `middleware` field, which is therefore only ever copied from a parent. The model keeps this behaviour.

## Findings

| source | as written | input that shows it | evidently intended | confidence | as-written member | corrected member |
|---|---|---|---|---|---|---|
| bnet/bhttp/http_server_group.go:63-100 | `register` reads the request type from the method's second parameter (`In(2)`), but the handler calls the method with the request first and the context second | any registered route and any request that binds without error: the context is passed where a pointer to the request struct is declared, so `reflect.Value.Call` panics, the API method does not run and no 200 is written | pass the context first and the request second, as the method declares them | high (not executed) | `BHttp.ServePanicsOnceBound` (about `BHttp.Serve`) | `BHttp.ServeIntendedReplies` (about `BHttp.ServeIntended`) |
