/**
 A model of the slog-sentry adapter (handler.go): a structured-log handler that
 wraps another slog handler, reports records whose level is configured as
 reportable to a Sentry hub, and then hands every record to the wrapped handler.

 The wrapped handler, the hub and slog's value rendering are foreign code; they
 appear here as opaque values and as function-typed parameters.
 */
module SlogSentry {

  datatype Option<+T> = None | Some(value: T)

  // ---------------------------------------------------------------------------
  // Levels and keys
  // ---------------------------------------------------------------------------

  /** slog.Level is an integer; these are slog's four named levels. */
  type Level = int

  const LevelDebug: Level := -4
  const LevelInfo: Level := 0
  const LevelWarn: Level := 4
  const LevelError: Level := 8

  /** slog's built-in keys (slog.TimeKey, LevelKey, SourceKey, MessageKey). */
  const TimeKey: string := "time"
  const LevelKey: string := "level"
  const SourceKey: string := "source"
  const MessageKey: string := "msg"

  /** The two attribute keys under which a record carries its error. */
  const ShortErrKey: string := "err"
  const LongErrKey: string := "error"

  /** Keys that never enter the context map sent to Sentry (slogDefaultKeys). */
  const SlogDefaultKeys: seq<string> :=
    [TimeKey, LevelKey, SourceKey, MessageKey, ShortErrKey, LongErrKey]

  predicate IsErrKey(key: string) {
    key == ShortErrKey || key == LongErrKey
  }

  // ---------------------------------------------------------------------------
  // Records and values
  // ---------------------------------------------------------------------------

  /** A Go error value, known only by its identity. */
  datatype GoError = GoError(id: nat)

  /**
   A slog.Value. Only one distinction matters to the handler: whether the
   dynamic value is a Go error (so that `Any().(error)` succeeds). Every other
   kind is rendered by the abstract `render` parameter and nothing else.
   */
  datatype Value =
    | StringValue(str: string)
    | IntValue(n: int)
    | BoolValue(b: bool)
    | ErrorValue(err: GoError)
    | OtherValue(id: nat)   // any other dynamic value, including a nil `any`

  datatype Attr = Attr(key: string, value: Value)

  /** The parts of a slog.Record that the handler reads. */
  datatype Record = Record(level: Level, message: string, attrs: seq<Attr>)

  /** An attribute under an error key whose value is not an error: the type assertion fails on it. */
  predicate BadErrAttr(a: Attr) {
    IsErrKey(a.key) && !a.value.ErrorValue?
  }

  // ---------------------------------------------------------------------------
  // Collaborators: wrapped handler, hub, context
  // ---------------------------------------------------------------------------

  /**
   The wrapped slog.Handler, as an opaque term: a base handler, or the handler
   that the wrapped handler's own WithAttrs / WithGroup returned.
   */
  datatype Sink =
    | Base(id: nat)
    | WithAttrsOf(parent: Sink, attrs: seq<Attr>)
    | WithGroupOf(parent: Sink, name: string)

  /** A Go `error` result: nil, or an error with its message. */
  datatype Status = NilError | Failed(message: string)

  /** The error Handle returns when no hub can be found. */
  const HubNilError: Status := Failed("sentry: hub is nil")

  /** A Sentry hub, known only by its identity. */
  datatype Hub = Hub(id: nat)

  /** The part of a context.Context the handler reads: the hub bound to it, if any. */
  datatype Context = Context(hub: Option<Hub>)

  // ---------------------------------------------------------------------------
  // The handler
  // ---------------------------------------------------------------------------

  /** SentryHandler: the wrapped handler and the levels that are reported. */
  datatype SentryHandler = SentryHandler(handler: Sink, levels: seq<Level>)

  /** One report call made inside the hub's scope. At most one per record. */
  datatype Capture =
    | CaptureException(err: GoError)
    | CaptureMessage(message: string)
    | NoCapture

  /**
   What Handle issues against the hub: the hub on which the scope was opened,
   the "slog" context set on that scope (None when it was not set) and the
   capture issued inside it. The capture is one of sentry's package-level
   calls; which hub it finally reaches is not part of this model.
   */
  datatype Report = Report(scopeHub: Hub, slogContext: Option<map<string, string>>, capture: Capture)

  /** The observable result of one Handle call. */
  datatype Outcome =
      /** Handle returned `err` without reporting and without calling the wrapped handler. */
    | HubNil(err: Status)
      /** The type assertion on the error attribute under `key` panicked: no report, no delegation. */
    | Panicked(key: string)
      /** `report` was issued (None: the level is not reportable), then the wrapped
          handler was called and its result `result` returned. */
    | Delegated(report: Option<Report>, result: Status)

  function NewSentryHandler(handler: Sink, levels: seq<Level>): (h: SentryHandler)
    ensures h.handler == handler && h.levels == levels
  {
    SentryHandler(handler, levels)
  }

  /** Enabled delegates to the wrapped handler's Enabled, given as `sinkEnabled`. */
  function Enabled(h: SentryHandler, ctx: Context, level: Level,
                   sinkEnabled: (Sink, Context, Level) -> bool): (r: bool)
    ensures forall levels: seq<Level> {:trigger SentryHandler(h.handler, levels)} ::
              r == sinkEnabled(SentryHandler(h.handler, levels).handler, ctx, level)
  {
    sinkEnabled(h.handler, ctx, level)
  }

  function WithAttrs(h: SentryHandler, attrs: seq<Attr>): (r: SentryHandler)
    ensures r.levels == h.levels
    ensures r.handler == WithAttrsOf(h.handler, attrs)
  {
    NewSentryHandler(WithAttrsOf(h.handler, attrs), h.levels)
  }

  function WithGroup(h: SentryHandler, name: string): (r: SentryHandler)
    ensures r.levels == h.levels
    ensures r.handler == WithGroupOf(h.handler, name)
  {
    NewSentryHandler(WithGroupOf(h.handler, name), h.levels)
  }

  // ---------------------------------------------------------------------------
  // Specification of Handle
  // ---------------------------------------------------------------------------

  /** The hub bound to the context, else the process-wide current hub. */
  function ResolveHub(ctx: Context, current: Option<Hub>): (r: Option<Hub>)
    ensures r.None? <==> ctx.hub.None? && current.None?
    ensures r.Some? ==> r == ctx.hub || (ctx.hub.None? && r == current)
  {
    if ctx.hub.Some? then ctx.hub else current
  }

  /** The state of the attribute scan: the context map and the error seen so far, or a panic. */
  datatype Scan =
    | Scanned(slogContext: map<string, string>, err: Option<GoError>)
    | AssertionPanic(key: string)

  /** `m` and `m'` map every key other than `key` alike. */
  ghost predicate AgreeOutside(m: map<string, string>, m': map<string, string>, key: string) {
    forall k :: k in m' && k != key ==> k in m && m[k] == m'[k]
  }

  /** One call of the callback given to record.Attrs. */
  function ScanStep(slogContext: map<string, string>, err: Option<GoError>, a: Attr,
                    render: Value -> string): (r: Scan)
    ensures r.AssertionPanic? <==> BadErrAttr(a)
    ensures r.AssertionPanic? ==> r.key == a.key
    ensures r.Scanned? ==> r.err == if IsErrKey(a.key) then Some(a.value.err) else err
  {
    if a.key !in SlogDefaultKeys then Scanned(slogContext[a.key := render(a.value)], err)
    else if IsErrKey(a.key) then
      (if a.value.ErrorValue? then Scanned(slogContext, Some(a.value.err)) else AssertionPanic(a.key))
    else Scanned(slogContext, err)
  }

  /** The scan over `attrs` in order, stopping at the first panic. */
  function ScanAttrs(attrs: seq<Attr>, render: Value -> string): (r: Scan)
    ensures r.AssertionPanic? ==> IsErrKey(r.key)
    decreases |attrs|
  {
    if attrs == [] then Scanned(map[], None)
    else
      match ScanAttrs(attrs[..|attrs| - 1], render)
      case AssertionPanic(k) => AssertionPanic(k)
      case Scanned(m, e) => ScanStep(m, e, attrs[|attrs| - 1], render)
  }

  /** The "slog" scope context: set only when the map is non-empty. */
  function ScopeContext(slogContext: map<string, string>): (r: Option<map<string, string>>)
    ensures r.Some? <==> |slogContext| > 0
    ensures r.Some? ==> r.value == slogContext
  {
    if |slogContext| > 0 then Some(slogContext) else None
  }

  /** The capture chosen by the level switch inside the scope. */
  function CaptureFor(level: Level, message: string, err: Option<GoError>): (c: Capture)
    ensures c.CaptureException? <==> level == LevelError && err.Some?
    ensures c.CaptureException? ==> err == Some(c.err)
    ensures c.CaptureMessage? <==> level in {LevelDebug, LevelInfo, LevelWarn}
    ensures c.CaptureMessage? ==> c.message == message
  {
    if level == LevelError then
      (if err.Some? then CaptureException(err.value) else NoCapture)
    else if level == LevelDebug || level == LevelInfo || level == LevelWarn then
      CaptureMessage(message)
    else NoCapture
  }

  /** The outcome of Handle as a function of the configuration, the record and the hubs. */
  function HandleOutcome(h: SentryHandler, ctx: Context, current: Option<Hub>, record: Record,
                         render: Value -> string,
                         sinkHandle: (Sink, Context, Record) -> Status): (o: Outcome)
    ensures (o.Delegated? && o.report.None?) <==> record.level !in h.levels
    ensures o.HubNil? <==> record.level in h.levels && ResolveHub(ctx, current).None?
    ensures o.HubNil? ==> o.err == HubNilError
    ensures o.Delegated? ==> o.result == sinkHandle(h.handler, ctx, record)
    ensures o.Delegated? && o.report.Some? ==> ResolveHub(ctx, current) == Some(o.report.value.scopeHub)
  {
    if record.level !in h.levels then Delegated(None, sinkHandle(h.handler, ctx, record))
    else
      match ResolveHub(ctx, current)
      case None => HubNil(HubNilError)
      case Some(hub) =>
        match ScanAttrs(record.attrs, render)
        case AssertionPanic(k) => Panicked(k)
        case Scanned(m, e) =>
          Delegated(Some(Report(hub, ScopeContext(m), CaptureFor(record.level, record.message, e))),
                    sinkHandle(h.handler, ctx, record))
  }

  /** Scanning one more attribute is one more step of the callback. */
  lemma ScanAttrsExtend(attrs: seq<Attr>, i: nat, render: Value -> string)
    requires i < |attrs| && ScanAttrs(attrs[..i], render).Scanned?
    ensures ScanAttrs(attrs[..i + 1], render)
            == ScanStep(ScanAttrs(attrs[..i], render).slogContext, ScanAttrs(attrs[..i], render).err,
                        attrs[i], render)
  {
    assert attrs[..i + 1][..i] == attrs[..i];
  }

  /** Once the scan has panicked on a prefix, the whole scan has panicked with the same key. */
  lemma {:induction false} PanicPersists(attrs: seq<Attr>, n: nat, render: Value -> string)
    requires n <= |attrs|
    requires ScanAttrs(attrs[..n], render).AssertionPanic?
    ensures ScanAttrs(attrs, render) == ScanAttrs(attrs[..n], render)
    decreases |attrs| - n
  {
    if n < |attrs| {
      var init := attrs[..|attrs| - 1];
      assert init[..n] == attrs[..n];
      PanicPersists(init, n, render);
    } else {
      assert attrs[..n] == attrs;
    }
  }

  // ---------------------------------------------------------------------------
  // Handle
  // ---------------------------------------------------------------------------

  /**
   The `record.Attrs` callback loop of Handle: walks the attributes in order,
   inserting each non-excluded one into the context map in place and
   remembering the error under "err" / "error", and stops on the first
   attribute there that is not an error (the panicking type assertion).
   */
  method CollectAttrs(attrs: seq<Attr>, render: Value -> string) returns (scan: Scan)
    ensures scan == ScanAttrs(attrs, render)
  {
    var err: Option<GoError> := None;
    var slogContext: map<string, string> := map[];
    var i := 0;
    while i < |attrs|
      invariant 0 <= i <= |attrs|
      invariant ScanAttrs(attrs[..i], render) == Scanned(slogContext, err)
    {
      var attr := attrs[i];
      ScanAttrsExtend(attrs, i, render);
      if attr.key !in SlogDefaultKeys {
        slogContext := slogContext[attr.key := render(attr.value)];
      } else if attr.key == ShortErrKey || attr.key == LongErrKey {
        if !attr.value.ErrorValue? {
          PanicPersists(attrs, i + 1, render);
          return AssertionPanic(attr.key);
        }
        err := Some(attr.value.err);
      }
      i := i + 1;
    }
    assert attrs[..i] == attrs;
    scan := Scanned(slogContext, err);
  }

  /**
   SentryHandler.Handle. `current` is what sentry.CurrentHub() returns,
   `render` is slog.Value.String and `sinkHandle` is the wrapped handler's Handle.
   */
  method Handle(h: SentryHandler, ctx: Context, current: Option<Hub>, record: Record,
                render: Value -> string, sinkHandle: (Sink, Context, Record) -> Status)
    returns (o: Outcome)
    ensures o == HandleOutcome(h, ctx, current, record, render, sinkHandle)
  {
    if record.level in h.levels {
      var hub := ctx.hub;
      if hub.None? {
        hub := current;
      }
      if hub.None? {
        return HubNil(HubNilError);
      }
      var scan := CollectAttrs(record.attrs, render);
      if scan.AssertionPanic? {
        return Panicked(scan.key);
      }
      var slogContext, err := scan.slogContext, scan.err;

      var scopeContext: Option<map<string, string>> := None;
      if |slogContext| > 0 {
        scopeContext := Some(slogContext);
      }
      var capture := NoCapture;
      if record.level == LevelError {
        if err.Some? {
          capture := CaptureException(err.value);
        }
      } else if record.level == LevelDebug || record.level == LevelInfo || record.level == LevelWarn {
        capture := CaptureMessage(record.message);
      }
      o := Delegated(Some(Report(hub.value, scopeContext, capture)), sinkHandle(h.handler, ctx, record));
      return;
    }
    o := Delegated(None, sinkHandle(h.handler, ctx, record));
  }
}
