/**
 Properties of the slog-sentry handler model: what the attribute scan builds,
 which error it captures, when it panics, what Handle reports and returns, and
 what WithAttrs / WithGroup preserve.
 */
module SlogSentryProperties {
  import opened SlogSentry

  // ---------------------------------------------------------------------------
  // The attribute scan
  // ---------------------------------------------------------------------------

  /** The scan panics exactly when some attribute under "err" or "error" is not an error. */
  lemma {:induction false} ScanPanicsIff(attrs: seq<Attr>, render: Value -> string)
    ensures ScanAttrs(attrs, render).AssertionPanic?
            <==> exists i :: 0 <= i < |attrs| && BadErrAttr(attrs[i])
  {
    if attrs != [] {
      var init := attrs[..|attrs| - 1];
      ScanPanicsIff(init, render);
      if ScanAttrs(init, render).AssertionPanic? {
        var i :| 0 <= i < |init| && BadErrAttr(init[i]);
        assert attrs[i] == init[i];
      } else {
        forall i | 0 <= i < |init| ensures !BadErrAttr(attrs[i]) {
          assert init[i] == attrs[i];
        }
      }
    }
  }

  /** The panic names the key of the FIRST offending attribute; the scan stops there. */
  lemma ScanPanicKey(attrs: seq<Attr>, render: Value -> string, i: nat)
    requires i < |attrs| && BadErrAttr(attrs[i])
    requires forall j :: 0 <= j < i ==> !BadErrAttr(attrs[j])
    ensures ScanAttrs(attrs, render) == AssertionPanic(attrs[i].key)
  {
    var prefix := attrs[..i];
    ScanPanicsIff(prefix, render);
    ScanAttrsExtend(attrs, i, render);
    PanicPersists(attrs, i + 1, render);
  }

  /** The context map holds exactly the non-excluded keys that occur among the attributes. */
  lemma {:induction false} ScanContextKeys(attrs: seq<Attr>, render: Value -> string, k: string)
    requires ScanAttrs(attrs, render).Scanned?
    ensures k in ScanAttrs(attrs, render).slogContext
            <==> k !in SlogDefaultKeys && exists i :: 0 <= i < |attrs| && attrs[i].key == k
  {
    if attrs != [] {
      var init := attrs[..|attrs| - 1];
      ScanContextKeys(init, render, k);
      if exists i :: 0 <= i < |init| && init[i].key == k {
        var i :| 0 <= i < |init| && init[i].key == k;
        assert attrs[i] == init[i];
      }
      if exists i :: 0 <= i < |attrs| && attrs[i].key == k {
        var i :| 0 <= i < |attrs| && attrs[i].key == k;
        if i < |init| {
          assert init[i] == attrs[i];
        }
      }
    }
  }

  /** No key of slogDefaultKeys ever enters the context map. */
  lemma {:induction false} ScanContextExcludesDefaults(attrs: seq<Attr>, render: Value -> string, k: string)
    requires ScanAttrs(attrs, render).Scanned?
    requires k in SlogDefaultKeys
    ensures k !in ScanAttrs(attrs, render).slogContext
  {
    ScanContextKeys(attrs, render, k);
  }

  /** A non-excluded key maps to the rendering of the LAST attribute carrying it. */
  lemma {:induction false} ScanContextValue(attrs: seq<Attr>, render: Value -> string, i: nat)
    requires ScanAttrs(attrs, render).Scanned?
    requires i < |attrs| && attrs[i].key !in SlogDefaultKeys
    requires forall j :: i < j < |attrs| ==> attrs[j].key != attrs[i].key
    ensures attrs[i].key in ScanAttrs(attrs, render).slogContext
    ensures ScanAttrs(attrs, render).slogContext[attrs[i].key] == render(attrs[i].value)
  {
    var init := attrs[..|attrs| - 1];
    if i < |init| {
      assert init[i] == attrs[i];
      ScanContextValue(init, render, i);
    }
  }

  /** The scan captures no error exactly when no attribute is under "err" or "error". */
  lemma {:induction false} ScanErrorAbsent(attrs: seq<Attr>, render: Value -> string)
    requires ScanAttrs(attrs, render).Scanned?
    ensures ScanAttrs(attrs, render).err.None?
            <==> forall i :: 0 <= i < |attrs| ==> !IsErrKey(attrs[i].key)
  {
    if attrs != [] {
      var init := attrs[..|attrs| - 1];
      ScanErrorAbsent(init, render);
      if !IsErrKey(attrs[|attrs| - 1].key) && ScanAttrs(init, render).err.None? {
        forall i | 0 <= i < |attrs| ensures !IsErrKey(attrs[i].key) {
          if i < |init| {
            assert init[i] == attrs[i];
          }
        }
      }
      if ScanAttrs(init, render).err.Some? {
        var i :| 0 <= i < |init| && IsErrKey(init[i].key);
        assert attrs[i] == init[i];
      }
    }
  }

  /** The captured error is the value of the LAST attribute under "err" or "error". */
  lemma {:induction false} ScanErrorLast(attrs: seq<Attr>, render: Value -> string, i: nat)
    requires ScanAttrs(attrs, render).Scanned?
    requires i < |attrs| && IsErrKey(attrs[i].key)
    requires forall j :: i < j < |attrs| ==> !IsErrKey(attrs[j].key)
    ensures attrs[i].value.ErrorValue?
    ensures ScanAttrs(attrs, render).err == Some(attrs[i].value.err)
  {
    var init := attrs[..|attrs| - 1];
    if i < |init| {
      assert init[i] == attrs[i];
      ScanErrorLast(init, render, i);
    }
  }

  // ---------------------------------------------------------------------------
  // Handle
  // ---------------------------------------------------------------------------

  /** A level outside the configured list: no hub lookup, no report, just the wrapped handler's result. */
  lemma HandleNotReportable(h: SentryHandler, ctx: Context, current: Option<Hub>, record: Record,
                            render: Value -> string, sinkHandle: (Sink, Context, Record) -> Status)
    requires record.level !in h.levels
    ensures HandleOutcome(h, ctx, current, record, render, sinkHandle)
            == Delegated(None, sinkHandle(h.handler, ctx, record))
  {
  }

  /** A reportable level with no hub anywhere: the "sentry: hub is nil" error, no delegation. */
  lemma HandleHubNil(h: SentryHandler, ctx: Context, current: Option<Hub>, record: Record,
                     render: Value -> string, sinkHandle: (Sink, Context, Record) -> Status)
    requires record.level in h.levels
    requires ctx.hub.None? && current.None?
    ensures HandleOutcome(h, ctx, current, record, render, sinkHandle) == HubNil(Failed("sentry: hub is nil"))
  {
  }

  /** A non-error value under an error key makes Handle panic: nothing is reported or delegated. */
  lemma HandlePanics(h: SentryHandler, ctx: Context, current: Option<Hub>, record: Record,
                     render: Value -> string, sinkHandle: (Sink, Context, Record) -> Status, i: nat)
    requires record.level in h.levels
    requires ctx.hub.Some? || current.Some?
    requires i < |record.attrs| && BadErrAttr(record.attrs[i])
    requires forall j :: 0 <= j < i ==> !BadErrAttr(record.attrs[j])
    ensures HandleOutcome(h, ctx, current, record, render, sinkHandle) == Panicked(record.attrs[i].key)
  {
    ScanPanicKey(record.attrs, render, i);
  }

  /**
   A reportable level, a hub, and every error attribute an error: one scope
   opened on the resolved hub, carrying the scanned context map when it is
   non-empty, and the capture chosen by the level issued inside it; then the
   wrapped handler's result, unchanged.
   */
  lemma HandleReports(h: SentryHandler, ctx: Context, current: Option<Hub>, record: Record,
                      render: Value -> string, sinkHandle: (Sink, Context, Record) -> Status)
    requires record.level in h.levels
    requires ctx.hub.Some? || current.Some?
    requires forall i :: 0 <= i < |record.attrs| ==> !BadErrAttr(record.attrs[i])
    ensures ScanAttrs(record.attrs, render).Scanned?
    ensures var scan := ScanAttrs(record.attrs, render);
            HandleOutcome(h, ctx, current, record, render, sinkHandle)
            == Delegated(Some(Report(if ctx.hub.Some? then ctx.hub.value else current.value,
                                     ScopeContext(scan.slogContext),
                                     CaptureFor(record.level, record.message, scan.err))),
                         sinkHandle(h.handler, ctx, record))
  {
    ScanPanicsIff(record.attrs, render);
  }

  /** Handle's return value is the wrapped handler's, whenever it delegates. */
  lemma HandleResultIsWrapped(h: SentryHandler, ctx: Context, current: Option<Hub>, record: Record,
                              render: Value -> string, sinkHandle: (Sink, Context, Record) -> Status)
    ensures var o := HandleOutcome(h, ctx, current, record, render, sinkHandle);
            o.Delegated? ==> o.result == sinkHandle(h.handler, ctx, record)
    ensures var o := HandleOutcome(h, ctx, current, record, render, sinkHandle);
            o.Delegated? <==> record.level !in h.levels
                              || ((ctx.hub.Some? || current.Some?)
                                  && forall i :: 0 <= i < |record.attrs| ==> !BadErrAttr(record.attrs[i]))
  {
    ScanPanicsIff(record.attrs, render);
  }

  /** An Error record with no error attribute issues no capture at all. */
  lemma ErrorWithoutErrAttrCapturesNothing(h: SentryHandler, ctx: Context, current: Option<Hub>,
                                            record: Record, render: Value -> string,
                                            sinkHandle: (Sink, Context, Record) -> Status)
    requires record.level == LevelError && record.level in h.levels
    requires ctx.hub.Some? || current.Some?
    requires forall i :: 0 <= i < |record.attrs| ==> !IsErrKey(record.attrs[i].key)
    ensures var o := HandleOutcome(h, ctx, current, record, render, sinkHandle);
            o.Delegated? && o.report.Some? && o.report.value.capture == NoCapture
  {
    HandleReports(h, ctx, current, record, render, sinkHandle);
    ScanErrorAbsent(record.attrs, render);
  }

  /** An Error record captures the last "err"/"error" attribute's error, exactly once. */
  lemma ErrorCapturesLastErrAttr(h: SentryHandler, ctx: Context, current: Option<Hub>,
                                 record: Record, render: Value -> string,
                                 sinkHandle: (Sink, Context, Record) -> Status, i: nat)
    requires record.level == LevelError && record.level in h.levels
    requires ctx.hub.Some? || current.Some?
    requires forall j :: 0 <= j < |record.attrs| ==> !BadErrAttr(record.attrs[j])
    requires i < |record.attrs| && IsErrKey(record.attrs[i].key)
    requires forall j :: i < j < |record.attrs| ==> !IsErrKey(record.attrs[j].key)
    ensures record.attrs[i].value.ErrorValue?
    ensures var o := HandleOutcome(h, ctx, current, record, render, sinkHandle);
            o.Delegated? && o.report.Some?
            && o.report.value.capture == CaptureException(record.attrs[i].value.err)
  {
    HandleReports(h, ctx, current, record, render, sinkHandle);
    ScanErrorLast(record.attrs, render, i);
  }

  // ---------------------------------------------------------------------------
  // Enabled, WithAttrs, WithGroup
  // ---------------------------------------------------------------------------

  /** Enabled is the wrapped handler's Enabled; the reported levels play no part in it. */
  lemma EnabledIgnoresLevels(h: SentryHandler, levels: seq<Level>, ctx: Context, level: Level,
                             sinkEnabled: (Sink, Context, Level) -> bool)
    ensures Enabled(h, ctx, level, sinkEnabled) == sinkEnabled(h.handler, ctx, level)
    ensures Enabled(h, ctx, level, sinkEnabled)
            == Enabled(NewSentryHandler(h.handler, levels), ctx, level, sinkEnabled)
  {
  }

  /**
   A handler derived by WithAttrs reports exactly as the receiver does; only the
   handler it delegates to differs, and that is the wrapped handler's WithAttrs.
   */
  lemma WithAttrsKeepsReporting(h: SentryHandler, attrs: seq<Attr>, ctx: Context, current: Option<Hub>,
                                record: Record, render: Value -> string,
                                sinkHandle: (Sink, Context, Record) -> Status)
    ensures var o := HandleOutcome(h, ctx, current, record, render, sinkHandle);
            var o' := HandleOutcome(WithAttrs(h, attrs), ctx, current, record, render, sinkHandle);
            (o.Delegated? <==> o'.Delegated?)
            && (o.Delegated? ==> o'.report == o.report
                                 && o'.result == sinkHandle(WithAttrsOf(h.handler, attrs), ctx, record))
            && (!o.Delegated? ==> o' == o)
  {
  }

  /** The same for WithGroup. */
  lemma WithGroupKeepsReporting(h: SentryHandler, name: string, ctx: Context, current: Option<Hub>,
                                record: Record, render: Value -> string,
                                sinkHandle: (Sink, Context, Record) -> Status)
    ensures var o := HandleOutcome(h, ctx, current, record, render, sinkHandle);
            var o' := HandleOutcome(WithGroup(h, name), ctx, current, record, render, sinkHandle);
            (o.Delegated? <==> o'.Delegated?)
            && (o.Delegated? ==> o'.report == o.report
                                 && o'.result == sinkHandle(WithGroupOf(h.handler, name), ctx, record))
            && (!o.Delegated? ==> o' == o)
  {
  }

  /** One step of deriving a handler from another. */
  datatype Derivation = AddAttrs(attrs: seq<Attr>) | AddGroup(name: string)

  function Derive(h: SentryHandler, steps: seq<Derivation>): SentryHandler
    decreases |steps|
  {
    if steps == [] then h
    else
      var next := match steps[0]
        case AddAttrs(a) => WithAttrs(h, a)
        case AddGroup(n) => WithGroup(h, n);
      Derive(next, steps[1..])
  }

  /** Every handler derived through any chain of WithAttrs / WithGroup shares the receiver's levels. */
  lemma {:induction false} DeriveKeepsLevels(h: SentryHandler, steps: seq<Derivation>)
    ensures Derive(h, steps).levels == h.levels
    decreases |steps|
  {
    if steps != [] {
      var next := match steps[0]
        case AddAttrs(a) => WithAttrs(h, a)
        case AddGroup(n) => WithGroup(h, n);
      DeriveKeepsLevels(next, steps[1..]);
    }
  }
}
