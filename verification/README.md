# cloudrun-slog in Dafny

A model of the small Go program `main.go` that makes `log/slog` records
readable by Google Cloud Logging on Cloud Run. Two pieces are modelled:

- **Trace-context middleware** (`TraceContext`). For each request it reads the
  `X-Cloud-Trace-Context` header (`<trace-id>/<span-id>;o=<flag>`), splits it
  on `/` with Go's `strings.Split` semantics (`GoStrings.Split`), and, when
  the first piece is non-empty, stores `projects/<project>/traces/<trace-id>`
  in the request context under the key `"trace"`; otherwise it stores `""`.
  `traceFromContext` reads that value back, giving `""` when the key is absent.
- **Cloud Logging handler** (`CloudLogging`). The `ReplaceAttr` callback
  renames `msg` to `message`, `source` to
  `logging.googleapis.com/sourceLocation` and `level` to `severity`, and shows
  the extra level `12` as `CRITICAL`. `Handle` appends a
  `logging.googleapis.com/trace` attribute to a copy of the record when the
  context carries a non-empty trace, and passes the record on unchanged
  otherwise. `FormatAsWritten` lists the top-level attributes the JSON
  backend then writes: the built-in level, source and message, then the
  record's own attributes, each passed through the callback as written, or
  nothing when the callback panics (the backend's dropping of an empty
  attribute is not modelled, see "Left out"). `Format` is the same list with the
  corrected callback (see "Findings").

The project ID, the request header and the request context are plain
parameters. A record is a level, a message and a sequence of attributes.
Values are immutable, so the copy that `Handle` makes can never change the
caller's record. An attribute value is `LevelVal` (a Go `slog.Level`),
`StrVal`, `IntVal` (a plain integer, which is a different Go type from a
`slog.Level` with the same number) or `Other`.

Files: `wrappers.dfy` (`Option`), `go_strings.dfy` (`Split`, its inverse
`Join`), `trace_context.dfy`, `cloud_logging.dfy`.

## Model

| member | source | states |
|---|---|---|
| GoStrings.Split | main.go:41 | `strings.Split` on `/` never returns an empty slice, no piece contains `/`, and piece 0 is exactly the text before the first `/` (all of the string if there is none) |
| GoStrings.SplitCount | main.go:41-42 | there is one more piece than there are `/` characters, so the `len(traceParts) > 0` guard always holds |
| GoStrings.JoinSplit | main.go:41 | splitting loses nothing: gluing the pieces back with `/` gives the header again |
| GoStrings.SplitJoin | main.go:41 | splitting undoes gluing: pieces with no `/` come back unchanged |
| GoStrings.FirstPiece | main.go:41-42 | for `id + suffix` with `id` free of `/` and `suffix` empty or starting with `/`, piece 0 is `id` |
| TraceContext.HeaderGet | main.go:40 | `r.Header.Get` gives the first value of the header, and `""` when the header is absent or has no value, so a missing header reads like an empty one |
| TraceContext.WithValue | main.go:45 | the context made by `context.WithValue` answers the stored value for its key and answers like the parent context for every other key |
| TraceContext.Value | main.go:50 | `ctx.Value` gives nothing exactly when the key was never stored, and the stored value otherwise |
| TraceContext.DeriveTrace | main.go:39-44 | the trace is empty exactly when the header is empty or starts with `/`; a non-empty trace starts with `projects/`, properly extends `projects/<project>/traces/`, and what follows is the header's text before its first `/` |
| TraceContext.TraceOfHeader | main.go:40-44 | for every header `id + suffix` (`id` free of `/`, `suffix` empty or starting with `/`) the trace is `projects/<project>/traces/<id>`, or empty when `id` is empty |
| TraceContext.TraceIgnoresSpan | main.go:41-43 | two headers `<id>/<anything>` with the same id give the same trace, whatever the span, option or further `/` pieces |
| TraceContext.TraceDependsOnLeadingPiece | main.go:41-43 | any two headers with the same text before the first `/` give the same trace |
| TraceContext.WithCloudTraceContext | main.go:38-46 | the context handed to the wrapped handler holds the derived trace under `"trace"` (even when it is empty) and agrees with the request's context on every other key |
| TraceContext.TraceFromContext | main.go:49-55 | the stored trace when the key `"trace"` is present, `""` when it is absent |
| TraceContext.HandlerSeesDerivedTrace | main.go:45-55 | what the middleware stores is what `traceFromContext` reads inside the request |
| TraceContext.AbsentHeaderNoTrace | main.go:40-45 | a request without the header yields the empty trace |
| CloudLogging.ReplaceAttr | main.go:67-80 | the callback where it returns: exactly `msg`, `source` and `level` are renamed (to `message`, `logging.googleapis.com/sourceLocation`, `severity`) and no output key is one of those three; values are untouched except that a `level` value becomes `CRITICAL` exactly when it is level 12; other levels stay the same `Level` |
| CloudLogging.ReplaceAttrOrPanic | main.go:72-77 | the callback as written on every attribute: it panics exactly when a `level` attribute holds a value that is not a `slog.Level`, and otherwise returns exactly what `ReplaceAttr` returns |
| CloudLogging.PanicsOn | main.go:74 | the attributes on which the type assertion fails: exactly those for which the callback as written panics, all of them under the key `level` |
| CloudLogging.BuiltIns | main.go:64-66 | with `AddSource: true` slog hands the callback three built-in attributes per record: `level` holding the record's level as a `slog.Level`, `source`, and `msg` holding the message; none of them makes the callback panic |
| CloudLogging.UserLevelAttrPanics | main.go:74 | an attribute `level` with a string value, or with the plain integer 12, makes the callback panic, so a record logged with `"level", "high"` is not written at all |
| CloudLogging.ReplaceAttrChecked | main.go:67-80 | the rewrite with a checked assertion: same renaming, never leaves a renamed key behind, yields `CRITICAL` only for a `level` holding level 12 (or a value that already was `CRITICAL`), and otherwise keeps the value |
| CloudLogging.CheckedAgreesWhereDefined | main.go:67-80 | wherever the callback as written returns, the checked rewrite gives the same attribute |
| CloudLogging.ReplaceAttrIgnoresGroups | main.go:67 | the group path does not influence the result |
| CloudLogging.ReplaceAttrIdempotent | main.go:68-79 | rewriting an already rewritten attribute changes nothing |
| CloudLogging.Format | main.go:64-81 | with the corrected callback: `severity`, `logging.googleapis.com/sourceLocation` and `message` come first, `severity` is `CRITICAL` exactly for level 12 and the level otherwise, the record's attributes follow in order, each rewritten, and no written key is `msg`, `source` or `level` |
| CloudLogging.RewriteAllOrPanic | main.go:67-80 | the callback as written over a list of attributes fails exactly when one of them is a `level` not holding a `slog.Level`, and otherwise rewrites each as the corrected callback does |
| CloudLogging.FormatAsWritten | main.go:64-81 | what the backend writes with the callback as written: nothing (a panic) exactly when one of the record's own attributes is a `level` not holding a `slog.Level`, and otherwise exactly the attributes of `Format` |
| CloudLogging.HandleAddsNoPanic | main.go:88-96 | the trace attribute `Handle` appends never makes the callback panic: the forwarded record is written exactly when the caller's record would be |
| CloudLogging.Handle | main.go:88-97 | with an empty trace the record is forwarded unchanged; otherwise level, message and existing attributes are kept and exactly one attribute `logging.googleapis.com/trace` holding the trace is appended |
| CloudLogging.HandleAddsOneTraceAttr | main.go:89-95 | the forwarded record has one more trace attribute than the caller's exactly when there is a trace, and removing what was appended gives back the caller's record |
| CloudLogging.TracedRequestWritesTrace | main.go:40-96 | for a request whose header is `<id>/<span>` with a non-empty id, every record logged in it that reaches `Handle` is written with `logging.googleapis.com/trace` = `projects/<project>/traces/<id>` as its last field (stated through `Format`; with `HandleAddsNoPanic` and `FormatAsWritten` it carries over to the callback as written for every record that does not panic on its own) |
| CloudLogging.TracedRequestScenario | main.go:40-96 | header `abc123/1;o=1` in project `myproj` gives the trace field `projects/myproj/traces/abc123` |
| CloudLogging.UntracedRequestScenario | main.go:40-96 | in a request without the header, records reach the backend unchanged: no trace attribute is added to them |

## Findings

| source | as written | input that shows it | evidently intended | confidence | as-written member | corrected member |
|---|---|---|---|---|---|---|
| main.go:74 | `a.Value.Any().(slog.Level)` is an unchecked type assertion, and slog passes caller-supplied attributes through `ReplaceAttr` as well as the built-in level | `slog.Info("m", "level", "high")` (a string value), or `"level", 12` (a plain `int64`) | rename the key and map level 12 to `CRITICAL` only when the value is a `slog.Level`, leaving other values as they are | not executed; medium | CloudLogging.ReplaceAttrOrPanic (counterexample: CloudLogging.UserLevelAttrPanics) | CloudLogging.ReplaceAttrChecked (used by CloudLogging.Format; agreement: CloudLogging.CheckedAgreesWhereDefined and CloudLogging.FormatAsWritten) |

## Left out

- HTTP serving, the example route, `PORT` handling and `main` (main.go:109-132): process wiring and I/O.
- Resolving the project ID from `GOOGLE_CLOUD_PROJECT` or the metadata server, and the panic when that fails (main.go:25-35): environment and network access; the project ID is a parameter.
- `Enabled`, `WithAttrs` and `WithGroup` (main.go:84-86, 99-105): they only delegate to the wrapped backend. Through `Enabled` the backend's minimum level `slog.LevelDebug` (main.go:66) applies: slog's logger drops a record below level -4 before `Handle` is called, so such a record is never written.
- The JSON backend itself: encoding, the timestamp field (a clock), the text of standard level names and the write to standard error. `Format` stops at the list of attributes.
- The source location's file and line: the `source` attribute's value is `Other`.
- Group-valued attributes and groups opened with `WithGroup`: the JSON backend writes a group as a nested object `"g":{"k":…}`, keeps the attribute's own key and passes the open group path to the callback as `groups`; it does not hand group values themselves to the callback. Only top-level attributes are modelled, so the model cannot show that under `WithGroup` the trace attribute appended by `Handle` (main.go:94) is written inside the group object rather than as a top-level field.
- CloudLogging.Format: built on the corrected callback, so for a record with a caller-supplied `level` attribute that is not a `slog.Level` it writes `severity`, where the source panics at main.go:74; `FormatAsWritten` is the program's behaviour and agrees with `Format` on every other record.
- CloudLogging.TracedRequestWritesTrace: its promise is stated through `Format` and covers records that reach `Handle`; for records whose attributes make the callback as written panic, and for records below `slog.LevelDebug` (main.go:66), which `Enabled` filters out before `Handle`, the source writes nothing.
- CloudLogging.FormatAsWritten: like `Format`, it lists an empty attribute (`slog.Attr{}`, empty key and zero value) as written, while slog's JSON backend drops such an attribute after the callback has run; the zero `slog.Value` is not one of the modelled values, so `Format` and `FormatAsWritten` keep one output attribute per record attribute.
- Go strings are byte sequences while the model's strings are sequences of characters; this makes no difference to splitting on the ASCII `/` or to the non-empty test at main.go:42.
- Header name canonicalisation in `http.Header.Get`: the header map is keyed by canonical names.
- Context keys of other types and non-string values under `"trace"`: the program only ever stores a string there, so the context is a map from string keys to strings and `traceFromContext`'s assertion cannot fail.
- The error returned by the backend's `Handle`: the source returns it unchanged; the model returns the record passed to the backend instead.
- Concurrency of writes to the shared error stream.
