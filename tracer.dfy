/** The trace-context resolver of trace/tracer/tracer.go. A tracer wraps trace data
    of one of three formats (OpenTelemetry, B3, W3C traceparent). It is taken from a
    request in an order chosen by the process-wide OpenTelemetry flag, or made at
    random. The header parsers and random generators live in other packages. Here
    they are abstract inputs: each parser's verdict on a request, and the random
    data each generator would return. */
module Tracer {
  import opened Wrappers

  /** The concrete trace-data package: traceotel, traceb3 or traceparent. */
  datatype Format = OTel | B3 | TraceParent

  /** Trace data of a format; `fields` stands for that package's own identifiers. */
  datatype TraceData<T> = TraceData(format: Format, fields: T)

  /** What each extractor finds in one request: traceotel.NewFromRequest (or, for a
      parent context, traceotel.NewFromRequestWithContext), traceb3.NewFromRequest
      and traceparent.NewFromRequest; None is a nil result. */
  datatype Extractors<T> = Extractors(otel: Option<T>, b3: Option<T>, traceparent: Option<T>)

  /** The Tracer struct: its trace data and whether that came from a request. */
  datatype Tracer<T> = Tracer(traceData: TraceData<T>, received: bool)

  /** The result of the extractor of `source`, tagged with its format. */
  function Extract<T>(ex: Extractors<T>, source: Format): (d: Option<TraceData<T>>)
    ensures d.Some? ==> d.value.format == source
  {
    var found := match source
      case OTel => ex.otel
      case B3 => ex.b3
      case TraceParent => ex.traceparent;
    if found.Some? then Some(TraceData(source, found.value)) else None
  }

  /** The extractors consulted, in order: only OpenTelemetry's when the flag is set,
      otherwise B3 with traceparent as the fallback. */
  function Priority(otelEnabled: bool): seq<Format>
  {
    if otelEnabled then [OTel] else [B3, TraceParent]
  }

  /** The data of the first source in `order` whose extractor finds any. */
  function FirstFound<T>(order: seq<Format>, ex: Extractors<T>): Option<TraceData<T>>
  {
    if order == [] then None
    else if Extract(ex, order[0]).Some? then Extract(ex, order[0])
    else FirstFound(order[1..], ex)
  }

  /** FirstFound is the priority rule: it finds nothing exactly when every source
      finds nothing, and otherwise returns what the first successful source found,
      every earlier source having found nothing. */
  lemma {:induction false} FirstFoundIsFirst<T>(order: seq<Format>, ex: Extractors<T>)
    ensures FirstFound(order, ex).None? <==> forall i :: 0 <= i < |order| ==> Extract(ex, order[i]).None?
    ensures FirstFound(order, ex).Some? ==>
      exists i :: 0 <= i < |order| && Extract(ex, order[i]) == FirstFound(order, ex) &&
        forall k :: 0 <= k < i ==> Extract(ex, order[k]).None?
  {
    if order != [] && Extract(ex, order[0]).None? {
      FirstFoundIsFirst(order[1..], ex);
      assert forall i :: 1 <= i < |order| ==> order[i] == order[1..][i - 1];
      if FirstFound(order, ex).Some? {
        var i :| 0 <= i < |order[1..]| && Extract(ex, order[1..][i]) == FirstFound(order[1..], ex) &&
          forall k :: 0 <= k < i ==> Extract(ex, order[1..][k]).None?;
        assert Extract(ex, order[i + 1]) == FirstFound(order, ex);
      }
    } else if order != [] {
      assert Extract(ex, order[0]) == FirstFound(order, ex);
    }
  }

  /** The priority rule spelled out: with the flag set only the OpenTelemetry
      extractor is consulted; otherwise B3, and traceparent only when B3 finds nothing. */
  lemma SelectionOrder<T>(otelEnabled: bool, ex: Extractors<T>)
    ensures otelEnabled ==> FirstFound(Priority(otelEnabled), ex) == Extract(ex, OTel)
    ensures !otelEnabled ==>
      FirstFound(Priority(otelEnabled), ex) ==
        (if Extract(ex, B3).Some? then Extract(ex, B3) else Extract(ex, TraceParent))
  {
    assert [OTel][1..] == [] && [TraceParent][1..] == [];
    assert FirstFound([TraceParent], ex) == Extract(ex, TraceParent);
    assert [B3, TraceParent][1..] == [TraceParent];
  }

  /** The tracer NewFromRequest returns for a request with extractor results `ex`. */
  function FromRequest<T>(otelEnabled: bool, ex: Extractors<T>): (t: Option<Tracer<T>>)
    ensures t.None? <==> forall i :: 0 <= i < |Priority(otelEnabled)| ==> Extract(ex, Priority(otelEnabled)[i]).None?
    ensures t.Some? ==> t.value.received && t.value.traceData.format in Priority(otelEnabled)
  {
    FirstFoundIsFirst(Priority(otelEnabled), ex);
    match FirstFound(Priority(otelEnabled), ex)
    case None => None
    case Some(d) => Some(Tracer(d, true))
  }

  /** With the OpenTelemetry flag off, the OpenTelemetry extractor is never consulted,
      so a parent context cannot change the result. */
  lemma OTelIgnoredWhenDisabled<T>(ex: Extractors<T>, fromParent: Option<T>)
    ensures FromRequest(false, ex.(otel := fromParent)) == FromRequest(false, ex)
  {
    SelectionOrder(false, ex);
    SelectionOrder(false, ex.(otel := fromParent));
  }

  /** The tracer NewRandom makes from the random data of traceotel and traceb3. */
  function Random<T>(otelEnabled: bool, randomOTel: T, randomB3: T): (t: Tracer<T>)
    ensures !t.received
    ensures t.traceData.format == if otelEnabled then OTel else B3
  {
    if otelEnabled then Tracer(TraceData(OTel, randomOTel), false)
    else Tracer(TraceData(B3, randomB3), false)
  }

  /** A tracer provider installed by SetOTel: the one given, or a fresh SDK default. */
  datatype TracerProvider<P> = Given(p: P) | SdkDefault

  /** The propagators of the composite text-map propagator SetOTel installs. */
  datatype Propagator = W3CTraceContext | B3Default | B3MultipleHeader

  /** The package-level state of the tracer package. */
  class Tracing<P> {
    /** OtelEnabled. */
    var otelEnabled: bool
    /** The provider most recently handed to traceotel and to the otel global. */
    var provider: Option<TracerProvider<P>>
    /** The global text-map propagator most recently installed, as its parts in order. */
    var propagators: seq<Propagator>

    /** Package start: the flag is set when either OTLP endpoint variable is non-empty. */
    constructor (otlpEndpoint: string, otlpTracesEndpoint: string)
      ensures otelEnabled == (otlpEndpoint != "" || otlpTracesEndpoint != "")
      ensures provider == None && propagators == []
    {
      otelEnabled := otlpEndpoint != "" || otlpTracesEndpoint != "";
      provider := None;
      propagators := [];
    }

    /** GetOTel. */
    function GetOTel(): bool
      reads this
    {
      otelEnabled
    }

    /** SetOTel: records the flag; only when enabling does it install a provider (the
        one given, else a default one) and the composite propagator. */
    method SetOTel(enabled: bool, tp: Option<P>)
      modifies this
      ensures GetOTel() == enabled
      ensures enabled ==> provider == Some(if tp.Some? then Given(tp.value) else SdkDefault)
      ensures enabled ==> propagators == [W3CTraceContext, B3Default, B3MultipleHeader]
      ensures !enabled ==> provider == old(provider) && propagators == old(propagators)
    {
      otelEnabled := enabled;
      if enabled {
        var chosen := if tp.Some? then Given(tp.value) else SdkDefault;
        provider := Some(chosen);
        propagators := [W3CTraceContext, B3Default, B3MultipleHeader];
      }
    }

    /** NewFromRequest: the first trace data found in priority order, marked received;
        None when no consulted extractor finds any. */
    method NewFromRequest<T>(ex: Extractors<T>) returns (t: Option<Tracer<T>>)
      ensures t == FromRequest(otelEnabled, ex)
      ensures t.None? <==> forall i :: 0 <= i < |Priority(otelEnabled)| ==> Extract(ex, Priority(otelEnabled)[i]).None?
      ensures t.Some? ==> t.value.received
    {
      var traceData: Option<TraceData<T>>;
      if otelEnabled {
        traceData := Extract(ex, OTel);
      } else {
        traceData := Extract(ex, B3);
        if traceData.None? {
          traceData := Extract(ex, TraceParent);
        }
      }
      FirstFoundIsFirst(Priority(otelEnabled), ex);
      SelectionOrder(otelEnabled, ex);
      if traceData.None? {
        return None;
      }
      t := Some(Tracer(traceData.value, true));
    }

    /** NewFromRequestWithContext: as NewFromRequest, except that the OpenTelemetry
        extractor works from the parent context, whose result is `fromParent`. */
    method NewFromRequestWithContext<T>(fromParent: Option<T>, ex: Extractors<T>) returns (t: Option<Tracer<T>>)
      ensures t == FromRequest(otelEnabled, ex.(otel := fromParent))
      ensures !otelEnabled ==> t == FromRequest(otelEnabled, ex)
      ensures t.Some? ==> t.value.received
    {
      var traceData: Option<TraceData<T>>;
      if otelEnabled {
        traceData := if fromParent.Some? then Some(TraceData(OTel, fromParent.value)) else None;
      } else {
        traceData := Extract(ex, B3);
        if traceData.None? {
          traceData := Extract(ex, TraceParent);
        }
      }
      SelectionOrder(otelEnabled, ex.(otel := fromParent));
      OTelIgnoredWhenDisabled(ex, fromParent);
      if traceData.None? {
        return None;
      }
      t := Some(Tracer(traceData.value, true));
    }

    /** NewRandom: random trace data of the format the flag selects, not received. */
    method NewRandom<T>(randomOTel: T, randomB3: T) returns (t: Tracer<T>)
      ensures t == Random(otelEnabled, randomOTel, randomB3)
    {
      var randomTraceData: TraceData<T>;
      if otelEnabled {
        randomTraceData := TraceData(OTel, randomOTel);
      } else {
        randomTraceData := TraceData(B3, randomB3);
      }
      t := Tracer(randomTraceData, false);
    }

    /** NewFromRequestOrRandom: never nil; the request's tracer when there is one,
        else a random one, so it is received exactly when the request carried one. */
    method NewFromRequestOrRandom<T>(ex: Extractors<T>, randomOTel: T, randomB3: T) returns (t: Tracer<T>)
      ensures FromRequest(otelEnabled, ex).Some? ==> t == FromRequest(otelEnabled, ex).value
      ensures FromRequest(otelEnabled, ex).None? ==> t == Random(otelEnabled, randomOTel, randomB3)
      ensures t.received <==> FromRequest(otelEnabled, ex).Some?
    {
      var found := NewFromRequest(ex);
      if found.Some? {
        return found.value;
      }
      t := NewRandom(randomOTel, randomB3);
    }
  }
}
