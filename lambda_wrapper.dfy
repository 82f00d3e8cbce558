/** The handler adapter of mux_lambda_wrapper.go: it turns a plain function
    `([ctx], [body]) -> ([payload], [error])` into an HTTP handler. The model
    keeps the adapter's decisions: which argument slots are filled, when the
    call is cut short, and which (error, data) pair is sent. Reflection, body
    decoding, validation and response writing are abstract inputs and outputs. */
module LambdaWrapper {
  import opened Wrappers

  /** http.StatusUnprocessableEntity, the status of a body that fails validation. */
  const StatusUnprocessableEntity: int := 422

  /** The lambda record found in a request context: the adapter reads only the
      status a handler asked for. */
  datatype Lambda = Lambda(status: int)

  /** A reflected result of the adapted function, classified by the two questions
      the adapter asks of it: does `Interface()` pass the `.(error)` type test, and
      is its kind a pointer.
      - Nil: a nil interface, such as a nil `error` result; the type test fails.
      - Err(e): a non-nil value of a non-pointer type that implements error.
      - Ptr(elem, asError): a value of pointer kind; elem is None for a nil pointer
        and otherwise the value pointed to; asError is what the type test yields
        when the pointer type implements error (for a nil pointer too), else None.
      - Plain(v): any other value, including an interface-typed result that holds
        a pointer (its kind is Interface, not Ptr). */
  datatype Value<V, E> =
    | Nil
    | Err(e: E)
    | Ptr(elem: Option<Value<V, E>>, asError: Option<E>)
    | Plain(v: V)

  /** The error passed to SendResp: none, an error value forwarded unchanged, or
      one built by NewError(cause, status). */
  datatype ErrorOut<E> = NoError | Forwarded(e: E) | NewError(cause: Option<E>, status: int)

  /** The (err, data) pair passed to SendResp; data Nil is the nil payload. */
  datatype Response<V, E> = Response(err: ErrorOut<E>, data: Value<V, E>)

  /** The outcome of the type test `res.Interface().(error)`. */
  function ErrorOf<V, E>(v: Value<V, E>): Option<E>
  {
    match v
    case Err(e) => Some(e)
    case Ptr(_, asError) => asError
    case _ => None
  }

  /** A status override is in force: the request carries a lambda whose status is positive. */
  predicate Overrides(l: Option<Lambda>)
  {
    l.Some? && l.value.status > 0
  }

  // ---------------------------------------------------------------------------
  // Result mapping

  /** lambdaHandleRes0: the error sent for a function without results. */
  function HandleRes0<E>(l: Option<Lambda>): (err: ErrorOut<E>)
    ensures err.NoError? <==> !Overrides(l)
    ensures Overrides(l) ==> err == NewError(None, l.value.status)
  {
    if l.Some? && l.value.status > 0 then NewError(None, l.value.status) else NoError
  }

  /** lambdaHandleRes1: a returned error wins over the status override and is sent
      without data; any other result, a nil interface included, is the payload as it
      is (a pointer is not dereferenced) with the same error as for no result. */
  function HandleRes1<V, E>(l: Option<Lambda>, res: Value<V, E>): (r: Response<V, E>)
    ensures ErrorOf(res).Some? ==> r == Response(Forwarded(ErrorOf(res).value), Nil)
    ensures ErrorOf(res).None? ==> r == Response(HandleRes0(l), res)
  {
    match ErrorOf(res)
    case Some(err) => Response(Forwarded(err), Nil)
    case None =>
      if l.Some? && l.value.status > 0 then Response(NewError(None, l.value.status), res)
      else Response(NoError, res)
  }

  /** lambdaGetStatus: the error of the error slot of two results, with the same
      precedence as for one result: returned error, then status override, then none. */
  function GetStatus<V, E>(l: Option<Lambda>, res: Value<V, E>): (err: ErrorOut<E>)
    ensures ErrorOf(res).Some? ==> err == Forwarded(ErrorOf(res).value)
    ensures ErrorOf(res).None? ==> err == HandleRes0(l)
    ensures err == HandleRes1(l, res).err
  {
    match ErrorOf(res)
    case Some(e) => Forwarded(e)
    case None => if l.Some? && l.value.status > 0 then NewError(None, l.value.status) else NoError
  }

  /** What lambdaHandleRes2 sends for the results `first, second`: the error comes from
      the second alone; a nil pointer payload becomes no payload and keeps that error,
      a non-nil pointer is dereferenced exactly once, anything else is sent unchanged. */
  function ResponseOf2<V, E>(l: Option<Lambda>, first: Value<V, E>, second: Value<V, E>): (r: Response<V, E>)
    ensures r.err == GetStatus(l, second)
    ensures first.Ptr? && first.elem.None? ==> r.data == Nil
    ensures first.Ptr? && first.elem.Some? ==> r.data == first.elem.value
    ensures !first.Ptr? ==> r.data == first
  {
    var err := GetStatus(l, second);
    if first.Ptr? then
      if first.elem.None? then Response(err, Nil) else Response(err, first.elem.value)
    else
      Response(err, first)
  }

  /** lambdaHandleRes2: overwrites `res[0]` by the value it points to when it is a
      non-nil pointer, and leaves every other slot alone. */
  method HandleRes2<V, E>(l: Option<Lambda>, res: array<Value<V, E>>) returns (r: Response<V, E>)
    requires res.Length >= 2
    modifies res
    ensures r == ResponseOf2(l, old(res[0]), old(res[1]))
    ensures res[0] == if old(res[0]).Ptr? && old(res[0]).elem.Some? then old(res[0]).elem.value else old(res[0])
    ensures forall i :: 1 <= i < res.Length ==> res[i] == old(res[i])
  {
    var err := GetStatus(l, res[1]);
    if res[0].Ptr? {
      if res[0].elem.None? {
        return Response(err, Nil);
      }
      res[0] := res[0].elem.value;
    }
    r := Response(err, res[0]);
  }

  /** The slot a result list takes its error from: the only result, else the second. */
  function ErrorSlot<V, E>(res: seq<Value<V, E>>): (i: nat)
    requires |res| > 0
    ensures i < |res|
  {
    if |res| == 1 then 0 else 1
  }

  /** What lambdaHandleRes sends for the result list `res`, dispatched on its length. */
  function ResponseOf<V, E>(l: Option<Lambda>, res: seq<Value<V, E>>): (r: Response<V, E>)
    ensures |res| == 0 ==> r == Response(HandleRes0(l), Nil)
    ensures |res| > 0 && ErrorOf(res[ErrorSlot(res)]).Some? ==> r.err == Forwarded(ErrorOf(res[ErrorSlot(res)]).value)
    ensures |res| > 0 && ErrorOf(res[ErrorSlot(res)]).None? ==> r.err == HandleRes0(l)
    ensures |res| == 1 ==> r.data == if ErrorOf(res[0]).Some? then Nil else res[0]
    ensures |res| >= 2 ==> r.data == ResponseOf2(l, res[0], res[1]).data
  {
    if |res| <= 0 then Response(HandleRes0(l), Nil)
    else if |res| == 1 then HandleRes1(l, res[0])
    else ResponseOf2(l, res[0], res[1])
  }

  /** lambdaHandleRes: the response for the results of the call; through HandleRes2
      it overwrites slot 0 of two or more results by its pointee, and nothing else. */
  method HandleRes<V, E>(l: Option<Lambda>, res: array<Value<V, E>>) returns (r: Response<V, E>)
    modifies res
    ensures r == ResponseOf(l, old(res[..]))
    ensures res.Length >= 2 ==>
      res[0] == if old(res[0]).Ptr? && old(res[0]).elem.Some? then old(res[0]).elem.value else old(res[0])
    ensures forall i :: 0 <= i < res.Length && (i >= 1 || res.Length < 2) ==> res[i] == old(res[i])
  {
    if res.Length <= 0 {
      r := Response(HandleRes0(l), Nil);
    } else if res.Length == 1 {
      r := HandleRes1(l, res[0]);
    } else {
      r := HandleRes2(l, res);
    }
  }

  /** With two or more results, only the first two are read. */
  lemma OnlyFirstTwoResultsRead<V, E>(l: Option<Lambda>, res: seq<Value<V, E>>)
    requires |res| >= 2
    ensures ResponseOf(l, res) == ResponseOf(l, res[..2])
  {
  }

  /** A returned error in the error slot makes the response independent of the
      status override. */
  lemma ReturnedErrorIgnoresOverride<V, E>(l: Option<Lambda>, l': Option<Lambda>, res: seq<Value<V, E>>)
    requires |res| > 0 && ErrorOf(res[ErrorSlot(res)]).Some?
    ensures ResponseOf(l, res) == ResponseOf(l', res)
  {
  }

  // ---------------------------------------------------------------------------
  // Argument slots

  /** What the adapter learns of a declared parameter type: whether it implements
      context.Context, whether it is a pointer, and whether the type it allocates
      for the body (the pointee of a pointer, else the type itself) is a struct. */
  datatype ParamType = ParamType(isContext: bool, isPointer: bool, isStruct: bool)

  /** One argument of the call: the zero reflect.Value, the request context made
      by NewRequestCtx, or the decoded body (passed by its fresh pointer when the
      parameter is a pointer, else by value). */
  datatype Arg<B> = Unset | RequestCtx | Body(value: B, byPointer: bool)

  /** The slot of the body parameter: after a leading context parameter, else the first. */
  function BodyIndex(shape: seq<ParamType>): nat
  {
    if |shape| > 0 && shape[0].isContext then 1 else 0
  }

  /** The documented parameter lists: (), (ctx), (body) and (ctx, body). */
  predicate Recognized(shape: seq<ParamType>)
  {
    |shape| <= 1 || (|shape| == 2 && shape[0].isContext)
  }

  /** What lambdaGetParams returns for a function with parameter types `shape`, when
      decoding the body yields `decoded` and the validator, if it runs, yields `verdict`. */
  function Params<B, E>(shape: seq<ParamType>, validate: bool, decoded: Result<B, E>, verdict: Option<E>)
    : (res: Result<seq<Arg<B>>, ErrorOut<E>>)
    ensures res.Success? <==>
      BodyIndex(shape) >= |shape| ||
      (decoded.Success? && !(validate && shape[BodyIndex(shape)].isStruct && verdict.Some?))
    ensures res.Failure? && decoded.Failure? ==> res.error == Forwarded(decoded.error)
    ensures res.Failure? && decoded.Success? ==> res.error == NewError(verdict, StatusUnprocessableEntity)
    ensures res.Success? ==> |res.value| == |shape|
    ensures res.Success? && |shape| > 0 && shape[0].isContext ==> res.value[0] == RequestCtx
    ensures res.Success? && BodyIndex(shape) < |shape| ==>
      res.value[BodyIndex(shape)] == Body(decoded.value, shape[BodyIndex(shape)].isPointer)
    ensures res.Success? ==> forall j :: 0 <= j < |shape| && j != BodyIndex(shape) && !(j == 0 && BodyIndex(shape) == 1) ==>
      res.value[j] == Unset
  {
    var i := BodyIndex(shape);
    if i < |shape| && decoded.Failure? then
      Failure(Forwarded(decoded.error))
    else if i < |shape| && validate && shape[i].isStruct && verdict.Some? then
      Failure(NewError(verdict, StatusUnprocessableEntity))
    else
      Success(seq(|shape|, j requires 0 <= j < |shape| =>
        if j == 0 && i == 1 then RequestCtx
        else if j == i then Body(decoded.value, shape[i].isPointer)
        else Unset))
  }

  /** Every slot is bound exactly when the function has one of the documented
      parameter lists; otherwise some slot after the body is left as the zero Value. */
  lemma {:induction false} RecognizedIffFullyBound<B, E>(shape: seq<ParamType>, validate: bool, decoded: Result<B, E>, verdict: Option<E>)
    requires Params(shape, validate, decoded, verdict).Success?
    ensures Recognized(shape) <==>
      forall j :: 0 <= j < |shape| ==> !Params(shape, validate, decoded, verdict).value[j].Unset?
  {
    var args := Params(shape, validate, decoded, verdict).value;
    if !Recognized(shape) {
      var i := BodyIndex(shape);
      assert args[i + 1].Unset?;
    }
  }

  /** lambdaGetParams: allocates one slot per parameter and fills them by index;
      `rebound` tells that the request was rebound to the new request context. */
  method GetParams<B, E>(shape: seq<ParamType>, validate: bool, decoded: Result<B, E>, verdict: Option<E>)
    returns (res: Result<seq<Arg<B>>, ErrorOut<E>>, rebound: bool)
    ensures res == Params(shape, validate, decoded, verdict)
    ensures rebound <==> |shape| > 0 && shape[0].isContext
  {
    var params: seq<Arg<B>> := seq(|shape|, _ => Unset);
    rebound := false;
    if |shape| > 0 {
      var reqDataIdx := 0;
      if shape[0].isContext {
        rebound := true;
        params := params[0 := RequestCtx];
        reqDataIdx := 1;
      }
      if reqDataIdx < |shape| {
        if decoded.Failure? {
          return Failure(Forwarded(decoded.error)), rebound;
        }
        if validate && shape[reqDataIdx].isStruct && verdict.Some? {
          return Failure(NewError(verdict, StatusUnprocessableEntity)), rebound;
        }
        params := params[reqDataIdx := Body(decoded.value, shape[reqDataIdx].isPointer)];
      }
    }
    ghost var spec := Params(shape, validate, decoded, verdict);
    assert forall j :: 0 <= j < |shape| ==> params[j] == spec.value[j];
    assert params == spec.value;
    res := Success(params);
  }

  // ---------------------------------------------------------------------------
  // The wrapper

  /** The value given to LambdaWrap: a `func(http.ResponseWriter, *http.Request)`,
      an http.HandlerFunc, another function with parameter types `params`, a
      non-nil value that is not a function, or the untyped nil. */
  datatype FuncValue = NativeHandler | HandlerFunc | Function(params: seq<ParamType>) | NotAFunction | UntypedNil

  /** What LambdaWrap yields: the native handler itself, the adapting closure for a
      function with parameter types `params`, or a panic with its message. */
  datatype Wrapped = PassThrough(handler: FuncValue) | Adapter(params: seq<ParamType>) | Panic(message: string)

  /** The explicit panic of LambdaWrap for a value that is not a function. */
  const FunctionExpected: string := "function expected"

  /** The Go runtime's panic when `Kind()` is called on the nil reflect.Type that
      `reflect.TypeOf(nil)` returns. */
  const NilDereference: string := "runtime error: invalid memory address or nil pointer dereference"

  /** LambdaWrap: native handler shapes come back unchanged; a non-nil value that is
      not a function panics with "function expected"; the untyped nil fails both type
      assertions and then panics in the runtime when its type's kind is asked for. */
  function LambdaWrap(f: FuncValue): (w: Wrapped)
    ensures w.PassThrough? <==> f.NativeHandler? || f.HandlerFunc?
    ensures w.PassThrough? ==> w.handler == f
    ensures w == Panic(FunctionExpected) <==> f.NotAFunction?
    ensures w == Panic(NilDereference) <==> f.UntypedNil?
    ensures w.Adapter? <==> f.Function?
    ensures w.Adapter? ==> w.params == f.params
  {
    match f
    case NativeHandler => PassThrough(f)
    case HandlerFunc => PassThrough(f)
    case UntypedNil => Panic(NilDereference)
    case NotAFunction => Panic(FunctionExpected)
    case Function(params) => Adapter(params)
  }

  /** How one request through the adapting closure ends: a response is sent (and the
      function was or was not invoked), or reflect's Call panics because an argument
      slot was left as the zero Value. */
  datatype Outcome<V, E> = Sent(response: Response<V, E>, invoked: bool) | CallPanics

  /** The closure LambdaWrap returns for a function with parameter types `shape`,
      invoked as `fn`. `inbound` is the lambda the incoming request context carries and
      `viaCtx` the lambda of the request context the adapter creates, as each stands
      after the call; the response reads the one of the request the call was made with. */
  method Handle<V, B, E>(shape: seq<ParamType>, validate: bool, decoded: Result<B, E>, verdict: Option<E>,
                         fn: seq<Arg<B>> -> seq<Value<V, E>>, inbound: Option<Lambda>, viaCtx: Option<Lambda>)
    returns (outcome: Outcome<V, E>)
    ensures Params(shape, validate, decoded, verdict).Failure? ==>
      outcome == Sent(Response(Params(shape, validate, decoded, verdict).error, Nil), false)
    ensures Params(shape, validate, decoded, verdict).Success? && !Recognized(shape) ==>
      outcome == CallPanics
    ensures Params(shape, validate, decoded, verdict).Success? && Recognized(shape) ==>
      outcome == Sent(ResponseOf(if BodyIndex(shape) == 1 then viaCtx else inbound,
                                 fn(Params(shape, validate, decoded, verdict).value)), true)
  {
    var params, rebound := GetParams(shape, validate, decoded, verdict);
    if params.Failure? {
      return Sent(Response(params.error, Nil), false);
    }
    var args := params.value;
    RecognizedIffFullyBound(shape, validate, decoded, verdict);
    if exists j | 0 <= j < |args| :: args[j].Unset? {
      return CallPanics;
    }
    var results := fn(args);
    var res := new Value<V, E>[|results|](i requires 0 <= i < |results| => results[i]);
    assert res[..] == results;
    var l := if rebound then viaCtx else inbound;
    var response := HandleRes(l, res);
    outcome := Sent(response, true);
  }
}
