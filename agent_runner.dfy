/**
 * The agent loop's bookkeeping: the step budget read from the environment,
 * the accounting of the steps the tool-calling agent took, the classification
 * of why it stopped, and the statuses the run writes. The agent itself (the
 * chat model choosing tools) is a parameter: what its executor returned, or
 * the exception building or running it raised.
 */
module AgentRunner {
  import opened Py
  import opened Utils
  import opened Storage

  /** `_max_steps`: `max(1, int(MAX_AGENT_STEPS))`, default 7, and 7 when the value does not parse. */
  function MaxSteps(env: Option<string>): (r: int)
    ensures r >= 1
  {
    match EnvInt(env, "7")
    case Ok(n) => Max(1, n)
    case Raised => 7
  }

  /** The budget is 7 when the variable is unset or unparsable, and the value
      itself when that is a positive integer. */
  lemma {:induction false} MaxStepsValues(s: string)
    ensures MaxSteps(None) == 7
    ensures ParseInt(s).Raised? ==> MaxSteps(Some(s)) == 7
    ensures ParseInt(s).Ok? && ParseInt(s).value >= 1 ==> MaxSteps(Some(s)) == ParseInt(s).value
    ensures ParseInt(s).Ok? && ParseInt(s).value < 1 ==> MaxSteps(Some(s)) == 1
  {
    EnvIntDefault("7");
    assert DigitsValue("7") == 7 by {
      assert "7"[..0] == [];
    }
  }

  datatype StopReason = GapsResolved | BudgetExhausted | ModelChoseStop

  function ReasonText(r: StopReason): string {
    match r
    case GapsResolved => "gaps_resolved"
    case BudgetExhausted => "budget_exhausted"
    case ModelChoseStop => "model_chose_stop"
  }

  /** Why the agent stopped: no missing values and no conflicts left, the
      budget used up, or else the model's own choice. */
  function StopReasonOf(gaps: map<string, int>, stepsUsed: int, maxSteps: int): (r: StopReason)
    ensures r == GapsResolved <==> GapCount(gaps, "missing") + GapCount(gaps, "conflicts") == 0
    ensures r == BudgetExhausted <==> GapCount(gaps, "missing") + GapCount(gaps, "conflicts") != 0 && stepsUsed >= maxSteps
    ensures r == ModelChoseStop <==> GapCount(gaps, "missing") + GapCount(gaps, "conflicts") != 0 && stepsUsed < maxSteps
  {
    if GapCount(gaps, "missing") + GapCount(gaps, "conflicts") == 0 then GapsResolved
    else if stepsUsed >= maxSteps then BudgetExhausted
    else ModelChoseStop
  }

  /** The summary the runner reads never has conflicts, so the gaps count as
      resolved exactly when nothing is missing. */
  lemma {:induction false} ResolvedIffNothingMissing(stored: Option<Value>, stepsUsed: int, maxSteps: int)
    requires SummarizeGapsFromDir(stored).Ok?
    ensures var g := SummarizeGapsFromDir(stored).value;
      StopReasonOf(g, stepsUsed, maxSteps) == GapsResolved <==> g["missing"] == 0
  {
    SummaryCountsMissing(ReadJson(stored, Obj(map[])));
  }

  /** One intermediate step of the executor: the tool its action names, None
      when the action has no `tool` attribute. */
  datatype AgentStep = AgentStep(tool: Option<string>)

  /** What the executor's `ainvoke` returned: a dict with its intermediate
      steps (an absent key read as none) and its output, or something else. */
  datatype AgentResult = NotADict | ResultDict(steps: seq<AgentStep>, output: Option<string>)

  /** The agent run: the executor's result, or the message of the exception
      building or running the agent raised. */
  datatype AgentRun = Finished(result: AgentResult) | Crashed(error: string)

  function StepsUsed(res: AgentResult): nat {
    if res.ResultDict? then |res.steps| else 0
  }

  function LastAction(res: AgentResult): Option<string> {
    if res.ResultDict? && res.steps != [] then res.steps[|res.steps| - 1].tool else None
  }

  function AgentOutput(res: AgentResult): Option<string> {
    if res.ResultDict? then res.output else None
  }

  function OptionalText(s: Option<string>): Value {
    match s
    case Some(t) => Str(t)
    case None => Null
  }

  /** `(agent_output or "")[:2000]`. */
  function OutputText(out: Option<string>): (r: string)
    ensures |r| <= 2000
    ensures out.None? ==> r == ""
    ensures out.Some? ==> |r| <= |out.value| && r == out.value[..|r|] && |r| == Min(2000, |out.value|)
  {
    match out
    case Some(t) => Prefix(t, 2000)
    case None => ""
  }

  const StartStatus: map<string, Value> := map["state" := Str("running"), "step" := Str("agent.start")]

  /** `_finalize`: the job is done and the step completed, with the stop reason,
      the step accounting, the gaps left and the agent's output cut to 2000 characters. */
  function FinalStatus(reason: StopReason, stepsUsed: int, maxSteps: int, lastAction: Option<string>,
                       gapsAfter: map<string, int>, agentOutput: Option<string>): map<string, Value> {
    map["state" := Str("done"), "step" := Str("completed"), "stop_reason" := Str(ReasonText(reason)),
        "steps_used" := Int(stepsUsed), "max_steps" := Int(maxSteps), "last_action" := OptionalText(lastAction),
        "gaps_after" := SummaryValue(gapsAfter), "agent_output" := Str(OutputText(agentOutput))]
  }

  /** The final status records what it was given, under the names `_finalize` uses. */
  lemma {:induction false} FinalStatusFields(reason: StopReason, stepsUsed: int, maxSteps: int, lastAction: Option<string>,
                                             gapsAfter: map<string, int>, agentOutput: Option<string>)
    ensures var st := FinalStatus(reason, stepsUsed, maxSteps, lastAction, gapsAfter, agentOutput);
      st["state"] == Str("done") && st["step"] == Str("completed")
      && st["stop_reason"] == Str(ReasonText(reason))
      && st["steps_used"] == Int(stepsUsed) && st["max_steps"] == Int(maxSteps)
      && st["last_action"] == OptionalText(lastAction)
      && st["agent_output"] == Str(OutputText(agentOutput))
  {
  }

  /** The status an exception writes before it is re-raised. */
  function ErrorStatus(error: string): map<string, Value> {
    map["state" := Str("agent error"), "error" := Str(error), "stop_reason" := Str("exception")]
  }

  /** The stored report's "missing" entry: what the summary applies `len` to. */
  function MissingEntry(stored: Option<Value>): Value {
    var gap := ReadJson(stored, Obj(map[]));
    if gap.Obj? then Get(gap.fields, "missing", Null) else Null
  }

  /** The message of the exception `len` raises on a value it cannot count. */
  function LenError(v: Value): string {
    "object of type '" + TypeName(v) + "' has no len()"
  }

  /** The status written after the start, and what the run returns. */
  function RunEnd(env: Option<string>, run: AgentRun, stored: Option<Value>): (Outcome<AgentResult>, map<string, Value>) {
    match run
    case Crashed(e) => (Raised, ErrorStatus(e))
    case Finished(res) =>
      match SummarizeGapsFromDir(stored)
      case Raised => (Raised, ErrorStatus(LenError(MissingEntry(stored))))
      case Ok(g) =>
        var used := StepsUsed(res);
        (Ok(res), FinalStatus(StopReasonOf(g, used, MaxSteps(env)), used, MaxSteps(env), LastAction(res), g, AgentOutput(res)))
  }

  /** `_finalize`: writes the final status of the job. */
  method Finalize(log: StatusLog, jobId: string, reason: StopReason, stepsUsed: int, maxSteps: int,
                  lastAction: Option<string>, gapsAfter: map<string, int>, agentOutput: Option<string>)
    modifies log
    ensures log.records == old(log.records) + [StatusRecord(jobId, FinalStatus(reason, stepsUsed, maxSteps, lastAction, gapsAfter, agentOutput))]
  {
    log.WriteStatus(jobId, FinalStatus(reason, stepsUsed, maxSteps, lastAction, gapsAfter, agentOutput));
  }

  /**
   * `agent_run`: the start status, then either the final status (the run
   * returns the executor's result) or, when anything raises, the error status
   * (the exception propagates).
   */
  method AgentRunJob(log: StatusLog, jobId: string, env: Option<string>, run: AgentRun, stored: Option<Value>)
    returns (r: Outcome<AgentResult>)
    modifies log
    ensures r == RunEnd(env, run, stored).0
    ensures log.records == old(log.records) + [StatusRecord(jobId, StartStatus), StatusRecord(jobId, RunEnd(env, run, stored).1)]
  {
    log.WriteStatus(jobId, StartStatus);
    if run.Crashed? {
      log.WriteStatus(jobId, ErrorStatus(run.error));
      return Raised;
    }
    var result := run.result;
    var summary := SummarizeGapsFromDir(stored);
    if summary.Raised? {
      log.WriteStatus(jobId, ErrorStatus(LenError(MissingEntry(stored))));
      return Raised;
    }
    var gapsAfter := summary.value;
    var maxSteps := MaxSteps(env);
    var stepsUsed, lastAction, agentOutput := StepsUsed(result), LastAction(result), AgentOutput(result);
    var reason := StopReasonOf(gapsAfter, stepsUsed, maxSteps);
    Finalize(log, jobId, reason, stepsUsed, maxSteps, lastAction, gapsAfter, agentOutput);
    r := Ok(result);
  }

  /**
   * Every run ends with one status after the start: a finished run records
   * state "done", step "completed", a budget of at least one step, the number
   * of intermediate steps, the last step's tool and at most 2000 characters of
   * output; a run that raises records state "agent error" with stop reason
   * "exception".
   */
  lemma {:induction false} RunRecordsOutcome(env: Option<string>, run: AgentRun, stored: Option<Value>)
    ensures var (r, st) := RunEnd(env, run, stored);
      (r.Ok? ==>
        r.value == run.result
        && st["state"] == Str("done") && st["step"] == Str("completed")
        && st["max_steps"].Int? && st["max_steps"].i >= 1
        && st["steps_used"] == Int(StepsUsed(run.result))
        && st["last_action"] == OptionalText(LastAction(run.result))
        && st["agent_output"].Str? && |st["agent_output"].s| <= 2000)
      && (r.Raised? ==> st["state"] == Str("agent error") && st["stop_reason"] == Str("exception"))
      && (r.Ok? <==> run.Finished? && SummarizeGapsFromDir(stored).Ok?)
  {
    if run.Finished? && SummarizeGapsFromDir(stored).Ok? {
      var g := SummarizeGapsFromDir(stored).value;
      var used := StepsUsed(run.result);
      FinalStatusFields(StopReasonOf(g, used, MaxSteps(env)), used, MaxSteps(env), LastAction(run.result), g, AgentOutput(run.result));
    }
  }

  /** A summary that cannot be counted is a truthy number or boolean, and the error
      status names its type. */
  lemma {:induction false} UncountableSummaryError(env: Option<string>, run: AgentRun, stored: Option<Value>)
    requires run.Finished? && SummarizeGapsFromDir(stored).Raised?
    ensures RunEnd(env, run, stored).1["error"] == Str(LenError(MissingEntry(stored)))
    ensures TypeName(MissingEntry(stored)) in {"int", "float", "bool"}
  {
    var gap := ReadJson(stored, Obj(map[]));
    SummaryCountsMissing(gap);
    assert MissingEntry(stored) == gap.fields["missing"];
  }
}
