/**
 * The two tools the agent may call. Each writes a start status, runs the
 * extraction pipeline (a parameter: the value it returned, or Raised), reads
 * back the gap summary and writes a done status, and returns the counts the
 * agent decides on. The gap report on disk after the pipeline is a parameter
 * too (None when unreadable).
 */
module Tools {
  import opened Py
  import opened Utils
  import opened Storage

  /** `_max_span`: `max(0, min(10, int(MAX_SPAN)))`, default 4, and 4 when the value does not parse. */
  function MaxSpan(env: Option<string>): (r: int)
    ensures 0 <= r <= 10
  {
    match EnvInt(env, "4")
    case Ok(n) => Max(0, Min(10, n))
    case Raised => 4
  }

  /** The widest window is 4 unless configured; a configured value in range is taken as is. */
  lemma {:induction false} MaxSpanValues(s: string)
    ensures MaxSpan(None) == 4
    ensures ParseInt(s).Raised? ==> MaxSpan(Some(s)) == 4
    ensures ParseInt(s).Ok? && 0 <= ParseInt(s).value <= 10 ==> MaxSpan(Some(s)) == ParseInt(s).value
    ensures ParseInt(s).Ok? && ParseInt(s).value > 10 ==> MaxSpan(Some(s)) == 10
    ensures ParseInt(s).Ok? && ParseInt(s).value < 0 ==> MaxSpan(Some(s)) == 0
  {
    EnvIntDefault("4");
    assert DigitsValue("4") == 4 by {
      assert "4"[..0] == [];
    }
  }

  /** `max(0, min(max_span, span))`: the requested half-span, clamped. */
  function ClampSpan(span: int, maxSpan: int): (r: int)
    ensures maxSpan >= 0 ==> 0 <= r <= maxSpan
    ensures 0 <= span <= maxSpan ==> r == span
    ensures span > maxSpan && maxSpan >= 0 ==> r == maxSpan
    ensures span < 0 ==> r == 0
  {
    Max(0, Min(maxSpan, span))
  }

  /** Clamping a clamped span changes nothing. */
  lemma {:induction false} ClampIdempotent(span: int, maxSpan: int)
    requires maxSpan >= 0
    ensures ClampSpan(ClampSpan(span, maxSpan), maxSpan) == ClampSpan(span, maxSpan)
  {
    var c := ClampSpan(span, maxSpan);
    assert 0 <= c <= maxSpan;
  }

  /** `"GAPS missing=.. conflicts=.. ambiguous=.."`. */
  function GapsLine(missing: int, conflicts: int, ambiguous: int): string {
    "GAPS missing=" + IntText(missing) + " conflicts=" + IntText(conflicts) + " ambiguous=" + IntText(ambiguous)
  }

  /** What the baseline tool returns besides `"ok": True` and `"step": "extract"`. */
  datatype ExtractSummary = ExtractSummary(gaps: map<string, int>, missing: int, conflicts: int, ambiguous: int, summary: string)

  const ExtractStart: map<string, Value> := map["state" := Str("running"), "step" := Str("extract.start")]

  function ExtractDone(gaps: map<string, int>): map<string, Value> {
    map["state" := Str("running"), "step" := Str("extract.done"),
        "last_action" := Str("extract_and_build_gaps"), "gaps_after" := SummaryValue(gaps)]
  }

  /** The baseline tool's result, and the status written after the start (None when it raised first). */
  function ExtractOutcome(pipeline: Outcome<Value>, stored: Option<Value>): (Outcome<ExtractSummary>, Option<map<string, Value>>) {
    if pipeline.Raised? then (Raised, None)
    else
      match SummarizeGapsFromDir(stored)
      case Raised => (Raised, None)
      case Ok(gaps) =>
        var m, c, a := GapCount(gaps, "missing"), GapCount(gaps, "conflicts"), GapCount(gaps, "ambiguous");
        (Ok(ExtractSummary(gaps, m, c, a, GapsLine(m, c, a))), Some(ExtractDone(gaps)))
  }

  /** The record a status write adds, if there is one to write. */
  function Written(jobId: string, status: Option<map<string, Value>>): seq<StatusRecord> {
    if status.Some? then [StatusRecord(jobId, status.value)] else []
  }

  function StatusesAfter(jobId: string, start: map<string, Value>, done: Option<map<string, Value>>): seq<StatusRecord> {
    [StatusRecord(jobId, start)] + Written(jobId, done)
  }

  method WriteIfAny(log: StatusLog, jobId: string, status: Option<map<string, Value>>)
    modifies log
    ensures log.records == old(log.records) + Written(jobId, status)
  {
    if status.Some? {
      log.WriteStatus(jobId, status.value);
    }
  }

  /** `_extract_tool_async`. */
  method ExtractTool(log: StatusLog, jobId: string, pipeline: Outcome<Value>, stored: Option<Value>)
    returns (r: Outcome<ExtractSummary>)
    modifies log
    ensures r == ExtractOutcome(pipeline, stored).0
    ensures log.records == old(log.records) + StatusesAfter(jobId, ExtractStart, ExtractOutcome(pipeline, stored).1)
  {
    log.WriteStatus(jobId, ExtractStart);
    if pipeline.Raised? {
      return Raised;
    }
    var summary := SummarizeGapsFromDir(stored);
    if summary.Raised? {
      return Raised;
    }
    var gaps := summary.value;
    log.WriteStatus(jobId, ExtractDone(gaps));
    var m, c, a := GapCount(gaps, "missing"), GapCount(gaps, "conflicts"), GapCount(gaps, "ambiguous");
    r := Ok(ExtractSummary(gaps, m, c, a, GapsLine(m, c, a)));
  }

  /**
   * The baseline tool reports the missing count of the gap report on disk
   * (0 when there is none), and conflicts and ambiguous as 0, because the
   * summary it reads carries only "missing"; it fails only when the pipeline
   * or the summary raises.
   */
  lemma {:induction false} ExtractReportsSummary(pipeline: Outcome<Value>, stored: Option<Value>)
    ensures var r := ExtractOutcome(pipeline, stored).0;
      (r.Ok? <==> pipeline.Ok? && SummarizeGapsFromDir(stored).Ok?)
      && (r.Ok? ==> r.value.gaps == SummarizeGapsFromDir(stored).value
                    && r.value.missing == r.value.gaps["missing"] && r.value.missing >= 0
                    && r.value.conflicts == 0 && r.value.ambiguous == 0)
      && (pipeline.Ok? && stored.None? ==> r == Ok(ExtractSummary(map["missing" := 0], 0, 0, 0, GapsLine(0, 0, 0))))
  {
    SummaryCountsMissing(ReadJson(stored, Obj(map[])));
    NoReportNothingMissing();
  }

  /** Missing, conflicts and ambiguous of one side of the comparison. */
  datatype Counts = Counts(missing: int, conflicts: int, ambiguous: int)

  /** `int(d.get(k, 0))`. */
  function CountOf(d: map<string, Value>, k: string): (r: Outcome<int>)
    ensures k !in d ==> r == Ok(0)
    ensures k in d && d[k].Int? ==> r == Ok(d[k].i)
    ensures k in d && (d[k].Null? || d[k].Arr? || d[k].Obj?) ==> r.Raised?
  {
    ToInt(Get(d, k, Int(0)))
  }

  /** The three counts of a summary dict; `.get` on anything but a dict raises. */
  function CountsOf(d: Value): (r: Outcome<Counts>)
    ensures !d.Obj? ==> r.Raised?
    ensures d.Obj? && "missing" !in d.fields && "conflicts" !in d.fields && "ambiguous" !in d.fields ==> r == Ok(Counts(0, 0, 0))
    ensures r.Ok? ==> d.Obj? && CountOf(d.fields, "missing") == Ok(r.value.missing)
                      && CountOf(d.fields, "conflicts") == Ok(r.value.conflicts)
                      && CountOf(d.fields, "ambiguous") == Ok(r.value.ambiguous)
  {
    if !d.Obj? then Raised
    else
      match CountOf(d.fields, "missing")
      case Raised => Raised
      case Ok(m) =>
        match CountOf(d.fields, "conflicts")
        case Raised => Raised
        case Ok(c) =>
          match CountOf(d.fields, "ambiguous")
          case Raised => Raised
          case Ok(a) => Ok(Counts(m, c, a))
  }

  function BoolText(b: bool): string {
    if b then "True" else "False"
  }

  /** `"SPAN s; BEFORE m=.. c=.. a=.. → AFTER m=.. c=.. a=..; improved=.."`. */
  function WindowLine(span: int, before: Counts, after: Counts, improved: bool): string {
    "SPAN " + IntText(span)
    + "; BEFORE m=" + IntText(before.missing) + " c=" + IntText(before.conflicts) + " a=" + IntText(before.ambiguous)
    + " → AFTER m=" + IntText(after.missing) + " c=" + IntText(after.conflicts) + " a=" + IntText(after.ambiguous)
    + "; improved=" + BoolText(improved)
  }

  /** What the window tool returns besides `"ok": True` and `"step": "extract_with_window"`. */
  datatype WindowResult = WindowResult(span: int, args: Value, pages: Value, before: Value, after: Value,
                                       beforeCounts: Counts, afterCounts: Counts, improved: bool, summary: string)

  function WindowStartStatus(span: int): map<string, Value> {
    map["state" := Str("running"), "step" := Str("reextract_wide.start"),
        "last_action" := Str("extract_with_window"), "span" := Int(span)]
  }

  function WindowDone(w: WindowResult): map<string, Value> {
    map["state" := Str("running"), "step" := Str("reextract_wide.done"), "last_action" := Str("extract_with_window"),
        "gaps_after" := w.after, "span" := Int(w.span), "improved" := Bool(w.improved), "before" := w.before,
        "pages" := w.pages, "summary" := Str(w.summary)]
  }

  /** `out.get("before") or {}`. */
  function BeforeOf(out: map<string, Value>): Value {
    Or(Get(out, "before", Null), Obj(map[]))
  }

  /** `out.get("after") or summarize_gaps(read_json(...))`: the summary is read
      only when the pipeline gave no truthy "after". */
  function AfterOf(out: map<string, Value>, stored: Option<Value>): (r: Outcome<Value>)
    ensures Truthy(Get(out, "after", Null)) ==> r == Ok(out["after"])
    ensures !Truthy(Get(out, "after", Null)) ==>
      (r.Ok? <==> SummarizeGapsFromDir(stored).Ok?)
      && (r.Ok? ==> r.value == SummaryValue(SummarizeGapsFromDir(stored).value))
  {
    if Truthy(Get(out, "after", Null)) then Ok(out["after"])
    else
      match SummarizeGapsFromDir(stored)
      case Ok(g) => Ok(SummaryValue(g))
      case Raised => Raised
  }

  /** `(out.get("args", {}) or {}).get("pages")`, None when that raises. */
  function PagesOf(out: map<string, Value>): Value {
    var args := Or(Get(out, "args", Obj(map[])), Obj(map[]));
    if args.Obj? then Get(args.fields, "pages", Null) else Null
  }

  /** The window tool's result after the pipeline returned `out`. */
  function WindowFrom(span: int, out: Value, stored: Option<Value>): Outcome<WindowResult> {
    if !out.Obj? then Raised
    else
      var before := BeforeOf(out.fields);
      match AfterOf(out.fields, stored)
      case Raised => Raised
      case Ok(after) =>
        match CountsOf(before)
        case Raised => Raised
        case Ok(bc) =>
          match CountsOf(after)
          case Raised => Raised
          case Ok(ac) =>
            var improved := Truthy(Get(out.fields, "improved", Null));
            var pages := PagesOf(out.fields);
            var args := Get(out.fields, "args", Obj(map["span" := Int(span), "pages" := pages]));
            Ok(WindowResult(span, args, pages, before, after, bc, ac, improved, WindowLine(span, bc, ac, improved)))
  }

  /** The window tool's result and the status written after the start. */
  function WindowOutcome(span: int, env: Option<string>, pipeline: Outcome<Value>, stored: Option<Value>)
    : (Outcome<WindowResult>, Option<map<string, Value>>)
  {
    WindowAt(ClampSpan(span, MaxSpan(env)), pipeline, stored)
  }

  /** The window tool's result and done status once the span is clamped to `span`. */
  function WindowAt(span: int, pipeline: Outcome<Value>, stored: Option<Value>)
    : (Outcome<WindowResult>, Option<map<string, Value>>)
  {
    if pipeline.Raised? then (Raised, None)
    else
      var w := WindowFrom(span, pipeline.value, stored);
      (w, DoneStatus(w))
  }

  /** The done status is written only when the tool got that far. */
  function DoneStatus(w: Outcome<WindowResult>): Option<map<string, Value>> {
    if w.Ok? then Some(WindowDone(w.value)) else None
  }

  /** `_extract_with_window_tool_async`. */
  method WindowTool(log: StatusLog, jobId: string, span: int, env: Option<string>, pipeline: Outcome<Value>, stored: Option<Value>)
    returns (r: Outcome<WindowResult>)
    modifies log
    ensures r == WindowOutcome(span, env, pipeline, stored).0
    ensures log.records == old(log.records)
      + StatusesAfter(jobId, WindowStartStatus(ClampSpan(span, MaxSpan(env))), WindowOutcome(span, env, pipeline, stored).1)
  {
    r := RunWindow(log, jobId, ClampSpan(span, MaxSpan(env)), pipeline, stored);
  }

  /** The window tool after the clamp: the start status, the pipeline, the done status. */
  method RunWindow(log: StatusLog, jobId: string, span: int, pipeline: Outcome<Value>, stored: Option<Value>)
    returns (r: Outcome<WindowResult>)
    modifies log
    ensures r == WindowAt(span, pipeline, stored).0
    ensures log.records == old(log.records) + StatusesAfter(jobId, WindowStartStatus(span), WindowAt(span, pipeline, stored).1)
  {
    log.WriteStatus(jobId, WindowStartStatus(span));
    if pipeline.Raised? {
      return Raised;
    }
    r := WindowFrom(span, pipeline.value, stored);
    WriteIfAny(log, jobId, DoneStatus(r));
  }

  /** The span the window tool uses and reports lies in [0, `_max_span()`],
      and is the requested one when that is in range. */
  lemma {:induction false} WindowSpanInRange(span: int, env: Option<string>, pipeline: Outcome<Value>, stored: Option<Value>)
    ensures var r := WindowOutcome(span, env, pipeline, stored).0;
      r.Ok? ==> 0 <= r.value.span <= MaxSpan(env) && (0 <= span <= MaxSpan(env) ==> r.value.span == span)
  {
  }

  /**
   * Without "before" the before-counts are all 0; without a truthy "after" the
   * after-counts are those of the gap report on disk (conflicts and ambiguous
   * 0); without "improved" the flag is false.
   */
  lemma {:induction false} WindowDefaults(span: int, out: map<string, Value>, stored: Option<Value>)
    ensures var r := WindowFrom(span, Obj(out), stored);
      r.Ok? ==>
        ("before" !in out ==> r.value.before == Obj(map[]) && r.value.beforeCounts == Counts(0, 0, 0))
        && (!Truthy(Get(out, "after", Null)) ==>
              (SummarizeGapsFromDir(stored).Ok?
               && r.value.after == SummaryValue(SummarizeGapsFromDir(stored).value)
               && r.value.afterCounts == Counts(SummarizeGapsFromDir(stored).value["missing"], 0, 0)))
        && ("improved" !in out ==> !r.value.improved)
        && (Truthy(Get(out, "after", Null)) ==> r.value.after == out["after"])
  {
    var r := WindowFrom(span, Obj(out), stored);
    if r.Ok? && !Truthy(Get(out, "after", Null)) {
      var g := SummarizeGapsFromDir(stored).value;
      SummaryCountsMissing(ReadJson(stored, Obj(map[])));
      var v := SummaryValue(g);
      assert v.fields == map["missing" := Int(g["missing"])];
      assert CountOf(v.fields, "missing") == Ok(g["missing"]);
    }
  }

  /** With "before" absent, the window tool fails only when the pipeline does,
      when its result is not a dict, or when the "after" side cannot be counted. */
  lemma {:induction false} WindowFailsOnlyOnAfter(span: int, out: map<string, Value>, stored: Option<Value>)
    requires "before" !in out
    ensures WindowFrom(span, Obj(out), stored).Raised? <==>
      AfterOf(out, stored).Raised? || CountsOf(AfterOf(out, stored).value).Raised?
  {
    assert BeforeOf(out) == Obj(map[]);
  }
}
