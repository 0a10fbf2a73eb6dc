/** The Cloud Logging handler: the attribute rewrite that renames slog's
    built-in keys to Cloud Logging's special fields, and `Handle`, which adds
    the request's trace to each record before passing it to the JSON
    backend. */
module CloudLogging {
  import opened Wrappers
  import TraceContext

  /** An attribute value. `LevelVal` is a value of Go type `slog.Level`;
      `IntVal` is a plain integer, which is a different Go type even when the
      number is the same; `Other` stands for every other kind. */
  datatype Value = LevelVal(level: int) | StrVal(str: string) | IntVal(n: int) | Other

  datatype Attr = Attr(key: string, value: Value)

  /** A log record: its level, its message and the attributes added to it,
      in order. */
  datatype Record = Record(level: int, message: string, attrs: seq<Attr>)

  /** slog's keys for the built-in message, source and level attributes. */
  const MessageKey: string := "msg"
  const SourceKey: string := "source"
  const LevelKey: string := "level"

  /** The extra level Cloud Logging knows, above slog's `LevelError` (8). */
  const LevelCritical: int := 12

  /** The key of the attribute that correlates a record with a trace. */
  const TraceAttrKey: string := "logging.googleapis.com/trace"

  /** The renaming Cloud Logging's structured-log agent expects. */
  const Renames: map<string, string> := map[
    MessageKey := "message",
    SourceKey := "logging.googleapis.com/sourceLocation",
    LevelKey := "severity"
  ]

  /** The key an attribute is written under once the rewrite has run. */
  function NewKey(key: string): string {
    if key in Renames then Renames[key] else key
  }

  /** The `ReplaceAttr` callback on every attribute for which it returns:
      a `level` attribute must hold a `slog.Level`, since the unchecked type
      assertion panics otherwise (see `ReplaceAttrOrPanic`). The group path
      is not consulted. */
  function ReplaceAttr(groups: seq<string>, a: Attr): (r: Attr)
    requires a.key == LevelKey ==> a.value.LevelVal?
    ensures r.key == NewKey(a.key)
    ensures r.key != a.key <==> a.key in Renames
    ensures r.key !in Renames
    ensures a.key != LevelKey ==> r.value == a.value
    ensures a.key == LevelKey ==>
      (r.value == StrVal("CRITICAL") <==> a.value.level == LevelCritical)
    ensures a.key == LevelKey && a.value.level != LevelCritical ==> r.value == a.value
  {
    if a.key == MessageKey then
      Attr("message", a.value)
    else if a.key == SourceKey then
      Attr("logging.googleapis.com/sourceLocation", a.value)
    else if a.key == LevelKey then
      var level := a.value.level;
      if level == LevelCritical then Attr("severity", StrVal("CRITICAL"))
      else Attr("severity", a.value)
    else
      a
  }

  /** The callback on every attribute, as written: `None` is the panic of the
      type assertion `a.Value.Any().(slog.Level)` when a `level` attribute
      holds anything but a `slog.Level`. */
  function ReplaceAttrOrPanic(groups: seq<string>, a: Attr): (r: Option<Attr>)
    ensures r.None? <==> a.key == LevelKey && !a.value.LevelVal?
    ensures r.Some? ==> r.value.key == NewKey(a.key)
    ensures r.Some? ==> r.value == ReplaceAttr(groups, a)
  {
    if a.key == LevelKey && !a.value.LevelVal? then None
    else Some(ReplaceAttr(groups, a))
  }

  /** slog passes caller-supplied attributes through the callback too, so a
      call like `slog.Info("m", "level", "high")` reaches the assertion with a
      string value and panics, and nothing is written for that record. */
  lemma UserLevelAttrPanics()
    ensures ReplaceAttrOrPanic([], Attr(LevelKey, StrVal("high"))) == None
    ensures ReplaceAttrOrPanic([], Attr(LevelKey, IntVal(LevelCritical))) == None
    ensures FormatAsWritten(Record(0, "m", [Attr(LevelKey, StrVal("high"))])) == None
  {
    assert PanicsOn([Attr(LevelKey, StrVal("high"))][0]);
  }

  /** The rewrite with a checked type assertion: an attribute under `level`
      that does not hold a `slog.Level` is renamed and its value kept. */
  function ReplaceAttrChecked(groups: seq<string>, a: Attr): (r: Attr)
    ensures r.key == NewKey(a.key) && r.key !in Renames
    ensures r.value == StrVal("CRITICAL") <==>
      a.value == StrVal("CRITICAL") || (a.key == LevelKey && a.value == LevelVal(LevelCritical))
    ensures !(a.key == LevelKey && a.value == LevelVal(LevelCritical)) ==> r.value == a.value
  {
    if a.key == LevelKey && !a.value.LevelVal? then Attr(NewKey(a.key), a.value)
    else ReplaceAttr(groups, a)
  }

  /** Where the callback as written returns, the checked rewrite agrees with
      it; it differs only by not panicking. */
  lemma CheckedAgreesWhereDefined(groups: seq<string>, a: Attr)
    ensures ReplaceAttrOrPanic(groups, a).Some? ==>
      ReplaceAttrOrPanic(groups, a).value == ReplaceAttrChecked(groups, a)
    ensures ReplaceAttrChecked(groups, a).key == NewKey(a.key)
  {
  }

  /** The group path never changes the outcome. */
  lemma ReplaceAttrIgnoresGroups(g1: seq<string>, g2: seq<string>, a: Attr)
    ensures ReplaceAttrChecked(g1, a) == ReplaceAttrChecked(g2, a)
    ensures ReplaceAttrOrPanic(g1, a) == ReplaceAttrOrPanic(g2, a)
  {
  }

  /** Rewriting twice is rewriting once: no renamed key is renamed again. */
  lemma ReplaceAttrIdempotent(groups: seq<string>, a: Attr)
    ensures ReplaceAttrChecked(groups, ReplaceAttrChecked(groups, a)) == ReplaceAttrChecked(groups, a)
  {
  }

  /** The attribute on which the callback as written panics: one under
      `level` whose value is not a `slog.Level`. */
  predicate PanicsOn(a: Attr): (panics: bool)
    ensures panics <==> ReplaceAttrOrPanic([], a).None?
    ensures panics ==> a.key == LevelKey
  {
    a.key == LevelKey && !a.value.LevelVal?
  }

  /** The built-in attributes slog hands to the callback for a record, in the
      order the JSON backend writes them (the timestamp is not modelled). */
  function BuiltIns(rec: Record): (attrs: seq<Attr>)
    ensures |attrs| == 3
    ensures attrs[0] == Attr(LevelKey, LevelVal(rec.level))
    ensures attrs[1].key == SourceKey
    ensures attrs[2] == Attr(MessageKey, StrVal(rec.message))
    ensures forall i :: 0 <= i < |attrs| ==> !PanicsOn(attrs[i])
  {
    [Attr(LevelKey, LevelVal(rec.level)), Attr(SourceKey, Other), Attr(MessageKey, StrVal(rec.message))]
  }

  /** The attributes the JSON backend writes for a record at top level, in
      order, with the corrected callback `ReplaceAttrChecked`: level, source
      location and message, then the record's own attributes, each
      rewritten. `FormatAsWritten` is the same with the callback as written. */
  function Format(rec: Record): (out: seq<Attr>)
    ensures |out| == |rec.attrs| + 3
    ensures forall i :: 0 <= i < |out| ==> out[i].key !in Renames
    ensures out[0].key == "severity" && out[1].key == "logging.googleapis.com/sourceLocation"
    ensures out[2] == Attr("message", StrVal(rec.message))
    ensures out[0].value == (if rec.level == LevelCritical then StrVal("CRITICAL") else LevelVal(rec.level))
    ensures forall i :: 0 <= i < |rec.attrs| ==> out[i + 3] == ReplaceAttrChecked([], rec.attrs[i])
  {
    var all := BuiltIns(rec) + rec.attrs;
    seq(|all|, i requires 0 <= i < |all| => ReplaceAttrChecked([], all[i]))
  }

  /** The callback as written applied to each attribute in turn; `None` when
      one of them makes it panic. */
  function RewriteAllOrPanic(attrs: seq<Attr>): (out: Option<seq<Attr>>)
    ensures out.None? <==> exists i :: 0 <= i < |attrs| && PanicsOn(attrs[i])
    ensures out.Some? ==>
      && |out.value| == |attrs|
      && forall i :: 0 <= i < |attrs| ==> out.value[i] == ReplaceAttrChecked([], attrs[i])
    decreases |attrs|
  {
    if |attrs| == 0 then Some([])
    else
      match ReplaceAttrOrPanic([], attrs[0])
      case None => None
      case Some(a) =>
        match RewriteAllOrPanic(attrs[1..])
        case None => None
        case Some(rest) => Some([a] + rest)
  }

  /** What the JSON backend writes with the callback as written: nothing at
      all (a panic) exactly when one of the record's own attributes is a
      `level` that is not a `slog.Level`, since the built-in level always is
      one; otherwise the same attributes as `Format`. */
  function FormatAsWritten(rec: Record): (out: Option<seq<Attr>>)
    ensures out.None? <==> exists i :: 0 <= i < |rec.attrs| && PanicsOn(rec.attrs[i])
    ensures out.Some? ==> out.value == Format(rec)
  {
    match RewriteAllOrPanic(BuiltIns(rec))
    case None => None
    case Some(head) =>
      match RewriteAllOrPanic(rec.attrs)
      case None => None
      case Some(tail) =>
        var out := head + tail;
        assert |out| == |Format(rec)|;
        assert forall i :: 0 <= i < |out| ==> out[i] == Format(rec)[i];
        Some(out)
  }

  /** `CloudLoggingHandler.Handle`: the record passed on to the backend. With
      a non-empty trace in the context it is a copy of `rec` with one trace
      attribute appended; otherwise it is `rec` itself. Values are immutable
      here, so the caller's record cannot change. */
  function Handle(ctx: TraceContext.Context, rec: Record): (fwd: Record)
    ensures TraceContext.TraceFromContext(ctx) == "" ==> fwd == rec
    ensures TraceContext.TraceFromContext(ctx) != "" ==>
      && fwd.level == rec.level && fwd.message == rec.message
      && |fwd.attrs| == |rec.attrs| + 1
      && fwd.attrs[..|rec.attrs|] == rec.attrs
      && fwd.attrs[|rec.attrs|] == Attr(TraceAttrKey, StrVal(TraceContext.TraceFromContext(ctx)))
  {
    var trace := TraceContext.TraceFromContext(ctx);
    if trace != "" then
      rec.(attrs := rec.attrs + [Attr(TraceAttrKey, StrVal(trace))])
    else
      rec
  }

  /** Number of attributes of `attrs` stored under `key`. */
  function CountKey(attrs: seq<Attr>, key: string): nat {
    if |attrs| == 0 then 0
    else (if attrs[0].key == key then 1 else 0) + CountKey(attrs[1..], key)
  }

  lemma {:induction false} CountKeyAppend(a: seq<Attr>, b: seq<Attr>, key: string)
    ensures CountKey(a + b, key) == CountKey(a, key) + CountKey(b, key)
    decreases |a|
  {
    if |a| == 0 {
      assert a + b == b;
    } else {
      assert (a + b)[1..] == a[1..] + b;
      CountKeyAppend(a[1..], b, key);
    }
  }

  /** `Handle` adds exactly one trace attribute when there is a trace and
      none otherwise, and dropping it gives back the caller's record. */
  lemma HandleAddsOneTraceAttr(ctx: TraceContext.Context, rec: Record)
    ensures var fwd := Handle(ctx, rec);
      CountKey(fwd.attrs, TraceAttrKey)
      == CountKey(rec.attrs, TraceAttrKey) + (if TraceContext.TraceFromContext(ctx) == "" then 0 else 1)
    ensures Handle(ctx, rec).(attrs := Handle(ctx, rec).attrs[..|rec.attrs|]) == rec
  {
    var trace := TraceContext.TraceFromContext(ctx);
    if trace != "" {
      CountKeyAppend(rec.attrs, [Attr(TraceAttrKey, StrVal(trace))], TraceAttrKey);
    } else {
      assert rec.attrs[..|rec.attrs|] == rec.attrs;
    }
  }

  /** The appended trace attribute never makes the callback as written
      panic: a record handed to `Handle` is written exactly when the
      caller's record would be, so `TracedRequestWritesTrace` describes the
      program for every record that does not panic on its own. */
  lemma HandleAddsNoPanic(ctx: TraceContext.Context, rec: Record)
    ensures FormatAsWritten(Handle(ctx, rec)).None? <==> FormatAsWritten(rec).None?
  {
  }

  /** A request whose trace header starts with a non-empty id followed by
      "/": every record logged while serving it that reaches `Handle` (its
      level is at least `slog.LevelDebug`) is written with the trace
      field `projects/<projectID>/traces/<id>` as its last attribute. */
  lemma TracedRequestWritesTrace(projectID: string, id: string, span: string,
                                 ctx: TraceContext.Context, rec: Record)
    requires id != "" && '/' !in id
    ensures var header := map[TraceContext.TraceHeaderName := [id + "/" + span]];
      var inner := TraceContext.WithCloudTraceContext(projectID, header, ctx);
      var out := Format(Handle(inner, rec));
      out[|out| - 1] == Attr(TraceAttrKey, StrVal("projects/" + projectID + "/traces/" + id))
  {
    var header := map[TraceContext.TraceHeaderName := [id + "/" + span]];
    var inner := TraceContext.WithCloudTraceContext(projectID, header, ctx);
    var trace := "projects/" + projectID + "/traces/" + id;
    assert id + "/" + span == id + ("/" + span);
    TraceContext.TraceOfHeader(projectID, id, "/" + span);
    assert TraceContext.TraceFromContext(inner) == trace;
    var fwd := Handle(inner, rec);
    assert fwd.attrs[|fwd.attrs| - 1] == Attr(TraceAttrKey, StrVal(trace));
    assert TraceAttrKey !in Renames;
  }

  /** The header `abc123/1;o=1` in project `myproj` yields the trace field
      `projects/myproj/traces/abc123`. */
  lemma TracedRequestScenario(projectID: string, headerValue: string,
                              ctx: TraceContext.Context, rec: Record)
    requires projectID == "myproj" && headerValue == "abc123/1;o=1"
    ensures var header := map[TraceContext.TraceHeaderName := [headerValue]];
      var inner := TraceContext.WithCloudTraceContext(projectID, header, ctx);
      var out := Format(Handle(inner, rec));
      out[|out| - 1] == Attr(TraceAttrKey, StrVal("projects/myproj/traces/abc123"))
  {
    assert headerValue == "abc123" + "/" + "1;o=1";
    assert "projects/" + projectID + "/traces/" + "abc123" == "projects/myproj/traces/abc123";
    TracedRequestWritesTrace(projectID, "abc123", "1;o=1", ctx, rec);
  }

  /** A request without the header: records are passed on unchanged, so no
      trace field is added to what the backend writes. */
  lemma UntracedRequestScenario(projectID: string, header: TraceContext.Header,
                                ctx: TraceContext.Context, rec: Record)
    requires TraceContext.TraceHeaderName !in header
    ensures var inner := TraceContext.WithCloudTraceContext(projectID, header, ctx);
      Handle(inner, rec) == rec
  {
    TraceContext.AbsentHeaderNoTrace(projectID, header, ctx);
  }
}
