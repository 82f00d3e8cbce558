# restful: handler adapter and trace-context selection, modelled in Dafny

This project models the two pieces of decision logic in the `restful` Go library's
core:

- **The handler adapter** (`mux_lambda_wrapper.go`, module `LambdaWrapper`).
  `LambdaWrap` turns a plain function `([ctx], [body]) -> ([payload], [error])`
  into an HTTP handler. For each request the handler does three things. First it
  fills the argument slots: a request context at slot 0 when the first parameter
  is a `context.Context`, then the decoded and possibly validated body at the next
  slot. Then it calls the function. Last it maps the results, together with any
  status override the handler recorded in its lambda, to the `(err, data)` pair
  given to `SendResp`.
- **Trace-context selection** (`trace/tracer/tracer.go`, module `Tracer`). The
  process-wide `OtelEnabled` flag chooses the extractor. When it is set, only the
  OpenTelemetry extractor is used. Otherwise B3 is tried first and W3C
  `traceparent` is the fallback. "Nothing found" is nil, and a tracer taken from a
  request is marked received. The "or random" variant falls back to random trace
  data of the format the flag selects.

How the Go code is represented:

- A reflected result is a `Value`: a nil interface, an error, a pointer (nil or
  pointing at a value, and possibly of a type that implements error), or any other
  value.
- A declared parameter type is a `ParamType`, which records three facts: does it
  implement `context.Context`, is it a pointer, and is the type it allocates a
  struct.
- An argument slot is an `Arg`: the zero Value, the request context, or the body.
- The results of the body decoder and of the validator are inputs.
- `lambdaHandleRes2` and `lambdaHandleRes` work on an `array` of results, because
  the source overwrites `res[0]` in place. The pure functions `ResponseOf2` and
  `ResponseOf` specify them.
- `lambdaGetParams` is a method that allocates the slot sequence and updates it by
  index. The function `Params` specifies it.
- The tracer package's mutable state is the class `Tracing`: the flag, the
  installed provider and the installed propagators. The extractors' verdicts on a
  request (`Extractors`) and the random trace data are parameters.

Points about the code's behaviour that the model makes explicit:

- An unrecognised function shape is not rejected when the function is wrapped.
  `lambdaGetParams` leaves every slot after the body as the zero `reflect.Value`,
  and `Call` panics only at request time. A decode or validation failure is
  answered before that, so such a request gets an error response, not a panic.
  `Handle` and `RecognizedIffFullyBound` state this.
- A decode failure is passed to `SendResp` unchanged (`Forwarded`). Only a
  validation failure is wrapped with status 422.
- A single `nil` error result fails the `.(error)` type test. It is therefore
  treated as a nil payload, and the status override still applies.
- A single pointer result is sent as it is. Only the first of two results is
  dereferenced.

## Model

| member | source | states |
|---|---|---|
| `LambdaWrapper.HandleRes0` | mux_lambda_wrapper.go:32-37 | With no results, the error is a status error without cause exactly when a lambda exists with status > 0; otherwise there is no error |
| `LambdaWrapper.HandleRes1` | mux_lambda_wrapper.go:39-48 | With one result, an error (by the type test) is sent with nil data, whatever the override; anything else, including a nil interface or a pointer, is the data unchanged, and the error is the same one as for no results |
| `LambdaWrapper.GetStatus` | mux_lambda_wrapper.go:50-58 | The error slot's precedence: returned error, then status override, then none; it agrees with the error chosen for a single result |
| `LambdaWrapper.ResponseOf2` | mux_lambda_wrapper.go:60-71 | With two results, the error is taken from the second result alone. A nil pointer payload gives no data and keeps that error. A non-nil pointer is dereferenced exactly once. Any other payload passes unchanged |
| `LambdaWrapper.HandleRes2` | mux_lambda_wrapper.go:60-71 | The in-place version: the response is `ResponseOf2` of the first two slots. Slot 0 is overwritten by its pointee when it is a non-nil pointer. Every other slot is unchanged |
| `LambdaWrapper.ResponseOf` | mux_lambda_wrapper.go:73-84 | Dispatch by result count. No results: override error and nil data. Otherwise the error comes from the error slot (the only result, else the second), with returned error before override. Data follows the one-result and two-result rules |
| `LambdaWrapper.HandleRes` | mux_lambda_wrapper.go:73-84 | The response built from an array of results is `ResponseOf` of its contents. With two or more results, slot 0 is replaced by its pointee when it is a non-nil pointer. Every other slot is unchanged |
| `LambdaWrapper.OnlyFirstTwoResultsRead` | mux_lambda_wrapper.go:76-82 | With two or more results, only slots 0 and 1 affect the response |
| `LambdaWrapper.ReturnedErrorIgnoresOverride` | mux_lambda_wrapper.go:39-58 | A returned error in the error slot makes the response the same for every lambda and status override |
| `LambdaWrapper.Params` | mux_lambda_wrapper.go:88-129 | Building the arguments fails exactly when a body slot exists and either decoding fails (that error is forwarded) or validation is on, the body is a struct and the validator rejects it (status 422). On success there is one slot per parameter: the context at 0 if parameter 0 is a context, the body at the body index, and the zero Value everywhere else |
| `LambdaWrapper.RecognizedIffFullyBound` | mux_lambda_wrapper.go:90-125 | After a successful build, every slot is bound exactly when the parameter list is (), (ctx), (body) or (ctx, body) |
| `LambdaWrapper.GetParams` | mux_lambda_wrapper.go:88-129 | The imperative slot filling returns what `Params` specifies. The request is rebound to a new context exactly when parameter 0 is a context |
| `LambdaWrapper.LambdaWrap` | mux_lambda_wrapper.go:134-146 | Native handler shapes come back unchanged. A non-nil value that is not a function panics with "function expected". The untyped nil fails both type assertions and panics with a runtime nil dereference when its kind is asked for. Any other function is adapted with its own parameter types |
| `LambdaWrapper.Handle` | mux_lambda_wrapper.go:147-155 | When building the arguments fails, the error is sent with nil data and the function is not invoked. When a slot is left unset, the call panics. Otherwise the function is invoked and its results are mapped by `ResponseOf`, using the lambda of the request the call was made with |
| `Tracer.FirstFoundIsFirst` | trace/tracer/tracer.go:97-108 | The priority search finds nothing exactly when every source finds nothing. Otherwise it returns the result of the first source that finds something |
| `Tracer.SelectionOrder` | trace/tracer/tracer.go:97-104 | With the flag set, only the OpenTelemetry extractor is consulted. Otherwise B3 is consulted, and traceparent only when B3 yields nil |
| `Tracer.OTelIgnoredWhenDisabled` | trace/tracer/tracer.go:116-123 | With the flag off, the OpenTelemetry extractor's result (and so the parent context) cannot change the selection |
| `Tracer.Random` | trace/tracer/tracer.go:144-152 | Random trace data is never marked received. Its format is OpenTelemetry when the flag is set and B3 otherwise |
| `Tracer.Tracing.constructor` | trace/tracer/tracer.go:32 | The flag starts set exactly when either OTLP endpoint variable is non-empty. Nothing is installed yet |
| `Tracer.Tracing.SetOTel` | trace/tracer/tracer.go:41-52 | Afterwards `GetOTel()` reports the given flag. Only when enabling does it install a provider (the one given, else a fresh SDK default) and the composite propagator (W3C trace context, B3, B3 multi-header). Disabling leaves both untouched |
| `Tracer.FromRequest` | trace/tracer/tracer.go:95-111 | The reference selection, the first trace data found in the flag's priority order (`Priority`, `FirstFound`): nil exactly when every extractor in that order finds nothing; otherwise marked received and of a format from that order |
| `Tracer.Tracing.NewFromRequest` | trace/tracer/tracer.go:95-111 | Returns nil exactly when every extractor consulted under the flag finds nothing. Otherwise returns the first found trace data, marked received |
| `Tracer.Tracing.NewFromRequestWithContext` | trace/tracer/tracer.go:114-130 | The same selection, with the OpenTelemetry extractor taken from the parent context. With the flag off it equals `NewFromRequest`. A result is always marked received |
| `Tracer.Tracing.NewRandom` | trace/tracer/tracer.go:144-152 | Returns `Random` for the current flag: not received, in the flag's format |
| `Tracer.Tracing.NewFromRequestOrRandom` | trace/tracer/tracer.go:135-141 | Never nil: the request's tracer when there is one, otherwise random data. It is received exactly when the request carried trace data |

## Left out

- `SetOTelGrpc` (trace/tracer/tracer.go:63-86) is not modelled. It sets up the OTLP gRPC exporter: network, a timeout, a floating-point sampling ratio, and calls into the OpenTelemetry SDK.
- The SDK calls inside `SetOTel` are not modelled as calls. The model keeps only their effect: which provider and which propagator list were installed last.
- Header parsing and header writing are not modelled. The same goes for random id generation, span derivation (`Span`), `SetHeader`, `String`, `TraceID`, `SpanID` and `IsReceived`. All of them delegate to the `traceotel`, `traceb3` and `traceparent` packages, which are not part of this model. Their results are inputs, and trace data is opaque. Note that `Tracer.IsReceived` asks the trace data, not the struct's own `received` field, which the model keeps.
- The Go distinction between a nil interface and a typed nil pointer in `tracedata.TraceData` is not modelled: both are the model's `None`. This is right at trace/tracer/tracer.go:106 and :125, which test for both. At :101 and :120, however, the fallback test `reflect.ValueOf(traceData).IsNil()` panics when `traceb3.NewFromRequest` returns a nil interface, because `reflect.ValueOf(nil)` is the zero Value. The model's fallback to traceparent on a B3 `None` therefore assumes that `traceb3.NewFromRequest` returns a concrete pointer type (nil when nothing is found). `traceb3` is not part of this model, and the panic a nil-interface result would cause is not captured.
- The process environment is not read. The constructor takes the values of the two OTLP endpoint variables as parameters.
- Go reflection is represented only by the facts the adapter branches on (`ParamType`, `Value`). Variadic functions, and `Call` panics other than the zero-Value argument, are not modelled.
- `GetRequestData` is an input, and with it the `LambdaMaxBytesToParse` limit. The other collaborators are inputs or outputs in the same way: the go-playground validator, `NewRequestCtx`, `r.WithContext`, `L(ctx)`, `NewError`, `SendResp` and `LambdaSanitizeJSON`. The validator's switch `LambdaValidator` (default `true`) is the parameter `validate`. The lambda read after the call is an input, because the adapted function may change it through its context.
- The response writer, and any effect of the adapted function other than its results and its lambda, are not modelled.
- Concurrent use of the shared validator instance and of the package-level flags is not modelled.
