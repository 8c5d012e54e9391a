/**
 * The gap summary the agent loop and its tools read back: only the number of
 * missing values is counted. Reading `gap_report.json` is a parameter: the
 * parsed file content, or None when the file is absent or does not parse.
 */
module Utils {
  import opened Py
  import opened GapReport

  /** Python `len(v)`: lists, strings and dicts have a length; anything else raises. */
  function Len(v: Value): (r: Outcome<nat>)
    ensures v.Arr? ==> r == Ok(|v.items|)
    ensures v.Str? ==> r == Ok(|v.s|)
    ensures r.Raised? <==> !(v.Arr? || v.Str? || v.Obj?)
  {
    match v
    case Arr(xs) => Ok(|xs|)
    case Str(s) => Ok(|s|)
    case Obj(m) => Ok(|m.Keys|)
    case _ => Raised
  }

  /** `summarize_gaps`: `{"missing": len(gap.get("missing", []) or [])}` for a
      dict, `{"missing": 0}` for anything else. */
  function SummarizeGaps(gap: Value): Outcome<map<string, int>> {
    if !gap.Obj? then Ok(map["missing" := 0])
    else
      match Len(Or(Get(gap.fields, "missing", Arr([])), Arr([])))
      case Ok(n) => Ok(map["missing" := n])
      case Raised => Raised
  }

  /** `gaps.get(k, 0)` on a summary. */
  function GapCount(gaps: map<string, int>, k: string): int {
    if k in gaps then gaps[k] else 0
  }

  /** A summary as the JSON value written into a status. */
  function SummaryValue(gaps: map<string, int>): (r: Value)
    ensures r.Obj? && r.fields.Keys == gaps.Keys
    ensures forall k :: k in gaps ==> r.fields[k] == Int(gaps[k])
  {
    Obj(map k | k in gaps :: Int(gaps[k]))
  }

  /** `read_json(path, {})`: the file's content, or the default when it cannot be read. */
  function ReadJson(stored: Option<Value>, default: Value): Value {
    match stored
    case Some(v) => v
    case None => default
  }

  /** `summarize_gaps_from_dir`: the summary of the stored gap report, `{}` when there is none. */
  function SummarizeGapsFromDir(stored: Option<Value>): Outcome<map<string, int>> {
    SummarizeGaps(ReadJson(stored, Obj(map[])))
  }

  /**
   * The summary has the single key "missing": anything but a dict counts 0;
   * a dict whose "missing" is absent or falsy counts 0; a list counts its
   * items; a truthy number or boolean makes `len` raise.
   */
  lemma {:induction false} SummaryCountsMissing(gap: Value)
    ensures SummarizeGaps(gap).Ok? ==> SummarizeGaps(gap).value.Keys == {"missing"} && SummarizeGaps(gap).value["missing"] >= 0
    ensures !gap.Obj? ==> SummarizeGaps(gap) == Ok(map["missing" := 0])
    ensures gap.Obj? && ("missing" !in gap.fields || !Truthy(gap.fields["missing"])) ==>
      SummarizeGaps(gap) == Ok(map["missing" := 0])
    ensures gap.Obj? && "missing" in gap.fields && gap.fields["missing"].Arr? ==>
      SummarizeGaps(gap) == Ok(map["missing" := |gap.fields["missing"].items|])
    ensures SummarizeGaps(gap).Raised? <==>
      gap.Obj? && "missing" in gap.fields && Truthy(gap.fields["missing"])
      && !(gap.fields["missing"].Arr? || gap.fields["missing"].Str? || gap.fields["missing"].Obj?)
  {
    if gap.Obj? {
      var v := Get(gap.fields, "missing", Arr([]));
      if !Truthy(v) {
        assert Or(v, Arr([])) == Arr([]);
      }
    }
  }

  /** Without a readable report the summary is `{"missing": 0}`. */
  lemma {:induction false} NoReportNothingMissing()
    ensures SummarizeGapsFromDir(None) == Ok(map["missing" := 0])
  {
    assert ReadJson(None, Obj(map[])) == Obj(map[]);
  }

  /** A gap report this system writes always summarises, to the number of
      missing values its own summary records. */
  lemma {:induction false} WrittenReportSummary(report: Value)
    requires SummaryMatches(report)
    ensures SummarizeGaps(report) == Ok(map["missing" := |report.fields["missing"].items|])
    ensures Get(report.fields["summary"].fields, "missing", Null) == Int(SummarizeGaps(report).value["missing"])
  {
    var m := report.fields;
    assert CountMatches(m, m["summary"].fields, "missing");
    SummaryCountsMissing(report);
  }
}
