# slog-sentry handler, modelled in Dafny

slog-sentry provides `SentryHandler`, a `log/slog` handler that wraps another
handler. For every record whose level is in a configured list, it reports to
Sentry. It resolves a hub, scans the record's attributes into a context map and
an optional error, and captures an exception or a message according to the level.
It then hands the record to the wrapped handler. This project models that
handler (`handler.go`) and proves what its reporting decision is.

- `handler.dfy`, module `SlogSentry`: the data model, the configuration
  operations (`NewSentryHandler`, `Enabled`, `WithAttrs`, `WithGroup`), the
  specification functions of `Handle`, and `Handle` itself. `Handle` is an
  imperative method. Its attribute walk, `CollectAttrs`, is the loop that the
  source's `record.Attrs` callback performs: it builds the context map and the
  error in place and stops at a failing type assertion. `CollectAttrs` is
  proved equal to the specification function `ScanAttrs`, and `Handle` to
  `HandleOutcome`.
- `properties.dfy`, module `SlogSentryProperties`: lemmas about the
  specification. They describe the context map declaratively (which keys, which
  value), say which error is captured, when the scan panics, what Handle
  reports and returns, and what derived handlers keep.

How the foreign parts are represented:

- A record is a level (an integer, with slog's Debug −4, Info 0, Warn 4,
  Error 8), a message and a sequence of key/value attributes.
- A value is a tagged union. Only its "is a Go error" case matters to the
  handler. Its string rendering (`slog.Value.String`) is the function
  parameter `render`.
- The wrapped handler is an opaque term `Sink`. Its own `WithAttrs`/`WithGroup`
  results are the terms `WithAttrsOf`/`WithGroupOf`, and its `Enabled`/`Handle`
  are function parameters (`sinkEnabled`, `sinkHandle`).
- The context reduces to the hub bound to it (`GetHubFromContext`). The
  process-wide `sentry.CurrentHub()` is the parameter `current`.
- A hub is opaque. What Handle does against it is a `Report` value: the hub
  on which the scope was opened (`scopeHub`), the `"slog"` context set on that
  scope (if any), and the single capture issued inside it (`CaptureException`,
  `CaptureMessage` or none).
- `Outcome` is `HubNil(err)`, `Panicked(key)`, or `Delegated(report, result)`.
  `result` is the wrapped handler's result, returned unchanged.

Two details of the code shape the outcome:

- A reportable record with no hub makes `Handle` return the error
  `sentry: hub is nil` without calling the wrapped handler (`handler.go:51-53`).
- A non-error value under `"err"` or `"error"` makes the type assertion at
  `handler.go:60` panic. The model keeps this as the outcome `Panicked(key)`:
  the scan stops at the first such attribute, and nothing is captured or
  delegated.

## Model

| member | source | states |
|---|---|---|
| `SlogSentry.NewSentryHandler` | handler.go:27-35 | the handler carries exactly the given wrapped handler and level list |
| `SlogSentry.WithAttrs` | handler.go:86-88 | the new handler has the receiver's levels, and its wrapped handler is the receiver's wrapped handler's `WithAttrs(attrs)`; the receiver, a value, is unchanged |
| `SlogSentry.WithGroup` | handler.go:91-93 | the new handler has the receiver's levels, and its wrapped handler is the receiver's wrapped handler's `WithGroup(name)` |
| `SlogSentry.ResolveHub` | handler.go:47-53 | the hub is the context's hub if there is one, else the current hub; none exactly when both are absent |
| `SlogSentry.ScopeContext` | handler.go:66-68 | the `"slog"` scope context is set exactly when the map is non-empty, and is then that map |
| `SlogSentry.CaptureFor` | handler.go:70-78 | CaptureException exactly at level Error with an error found, and with that error; CaptureMessage exactly at Debug, Info or Warn, with the record's message (even if empty); otherwise no capture |
| `SlogSentry.Enabled` | handler.go:38-40 | `Enabled` is the wrapped handler's `Enabled` for whatever level list the handler carries (see also `EnabledIgnoresLevels`) |
| `SlogSentry.ScanStep` | handler.go:57-62 | one callback call: panics exactly on an attribute under `err`/`error` that is not an error, naming its key; otherwise the remembered error becomes that attribute's error under `err`/`error` and is unchanged under any other key |
| `SlogSentry.ScanAttrs` | handler.go:56-63 | the scan of all attributes in order, stopping at the first panic; a panic always names `err` or `error` (its full meaning is in the `Scan…` lemmas) |
| `SlogSentry.HandleOutcome` | handler.go:44-83 | the reference outcome of Handle: no report exactly when the level is not listed; the hub-nil error exactly when the level is listed and no hub resolves; whenever it delegates, the wrapped handler's result unchanged; a report always uses the resolved hub |
| `SlogSentry.ScanAttrsExtend` | handler.go:56-63 | scanning one more attribute is one more callback step |
| `SlogSentry.CollectAttrs` | handler.go:54-63 | the in-place loop over the attributes computes exactly `ScanAttrs` |
| `SlogSentry.PanicPersists` | handler.go:56-63 | once the type assertion has panicked on a prefix of the attributes, later attributes change nothing |
| `SlogSentry.Handle` | handler.go:44-83 | the gate, hub fallback, attribute walk with early panic, scope context, level switch and delegation compute exactly `HandleOutcome` |
| `SlogSentryProperties.ScanPanicsIff` | handler.go:59-60 | the scan panics if and only if some attribute under `err`/`error` is not an error |
| `SlogSentryProperties.ScanPanicKey` | handler.go:56-63 | the panic happens at the first such attribute and names its key |
| `SlogSentryProperties.ScanContextKeys` | handler.go:55-58 | a key is in the context map if and only if it is not one of time, level, source, msg, err, error and some attribute carries it |
| `SlogSentryProperties.ScanContextExcludesDefaults` | handler.go:17 | no key of `slogDefaultKeys` ever appears in the context map |
| `SlogSentryProperties.ScanContextValue` | handler.go:56-58 | each key maps to the rendering of the last attribute carrying it (last write wins) |
| `SlogSentryProperties.ScanErrorAbsent` | handler.go:54-60 | no error is captured if and only if no attribute is under `err` or `error` |
| `SlogSentryProperties.ScanErrorLast` | handler.go:59-60 | the captured error is the value of the last attribute under `err` or `error` |
| `SlogSentryProperties.HandleNotReportable` | handler.go:46-82 | a level not in the list: no hub lookup, no report, and the result is exactly the wrapped handler's |
| `SlogSentryProperties.HandleHubNil` | handler.go:47-53 | reportable level, no context hub and no current hub: the `sentry: hub is nil` error, with no report and no delegation |
| `SlogSentryProperties.HandlePanics` | handler.go:56-63 | reportable level, a hub, and a non-error under an error key: Handle panics on the first such key, with no report and no delegation |
| `SlogSentryProperties.HandleReports` | handler.go:65-82 | reportable level, a hub, and well-typed error attributes: exactly one scope opened on the resolved hub, carrying `ScopeContext` of the scanned map, with the capture `CaptureFor` of level, message and scanned error issued inside it; then the wrapped handler's result |
| `SlogSentryProperties.HandleResultIsWrapped` | handler.go:82 | whenever Handle delegates, its result is the wrapped handler's, unchanged; it delegates exactly when the level is not reportable, or a hub exists and the scan does not panic |
| `SlogSentryProperties.ErrorWithoutErrAttrCapturesNothing` | handler.go:71-74 | an Error record without `err`/`error` attributes captures nothing |
| `SlogSentryProperties.ErrorCapturesLastErrAttr` | handler.go:59-74 | an Error record captures, once, the error of its last `err`/`error` attribute |
| `SlogSentryProperties.EnabledIgnoresLevels` | handler.go:38-40 | `Enabled` is the wrapped handler's `Enabled`, whatever the reported levels |
| `SlogSentryProperties.WithAttrsKeepsReporting` | handler.go:86-88 | the derived handler makes the same reporting decision as the receiver and delegates to the wrapped handler's `WithAttrs` |
| `SlogSentryProperties.WithGroupKeepsReporting` | handler.go:91-93 | the same for `WithGroup` |
| `SlogSentryProperties.DeriveKeepsLevels` | handler.go:86-93 | any chain of `WithAttrs`/`WithGroup` keeps the receiver's level list |

## Left out

- Sentry's internals are left out: scope lifetime, transport, batching and event delivery. A report is a value that records what Handle asked of the hub.
- Capture routing is left out. The source calls sentry's package-level `CaptureException`/`CaptureMessage`, which go to the process-wide hub; the model records the capture inside the `Report` of the hub whose scope was opened, not which hub it reaches.
- Value rendering is left out. `slog.Value.String()` and the `slog.Record` internals (time, source location, group resolution) are foreign code; rendering is the abstract `render` parameter.
- The wrapped handler's behaviour is left out. It is opaque, and only its results through `sinkEnabled`/`sinkHandle` are seen.
- The context is reduced to its hub; the rest of `context.Context` plumbing is not modelled.
- Concurrent `Handle` calls are not modelled. Each call's map and scope are local values here, so nothing can leak between calls.
- A nil `any` under an error key is not a separate case. It is an `OtherValue`, and the type assertion panics on it, as on any other non-error.
- `SlogError` is defined outside handler.go and is not part of the handler; it is not modelled.
