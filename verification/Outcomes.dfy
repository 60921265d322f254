/** The status a run ends with: what the runner makes of the agent's status and the verifier's result. */
module Outcomes {
  import opened Options
  import opened Statuses
  import opened Verifier
  import Agent
  import Budgets
  import Trajectory

  datatype RunOutcome = RunOutcome(status: RunStatus, verification: Option<VerificationResult>)

  function StatusAfterVerification(v: VerificationResult): RunStatus {
    if v.passed then Pass else if v.score > 0.0 then Partial else TaskFail
  }

  /**
   * How `run` ends once the agent has returned: `verification` is what the verifier would answer,
   * or nothing when it raises; no verification is recorded unless the verifier was run.
   */
  function Conclude(runtime: RunStatus, infrastructureError: bool, verification: Option<VerificationResult>): RunOutcome {
    if infrastructureError then RunOutcome(EnvironmentError, None)
    else if runtime in {AgentError, Timeout, BudgetExceeded, PolicyViolation} then RunOutcome(runtime, None)
    else if verification.None? then RunOutcome(VerifierError, None)
    else if runtime == ToolError then RunOutcome(ToolError, verification)
    else RunOutcome(StatusAfterVerification(verification.value), verification)
  }

  /** The end of `run` step by step: the status is taken over from the runtime and revised on the way. */
  method Finish(runtime: RunStatus, infrastructureError: bool, verifier: Option<VerificationResult>)
    returns (status: RunStatus, verification: Option<VerificationResult>)
    ensures RunOutcome(status, verification) == Conclude(runtime, infrastructureError, verifier)
  {
    status, verification := EnvironmentError, None;
    if infrastructureError {
      return;
    }
    status := runtime;
    if runtime !in {AgentError, ToolError, Timeout, BudgetExceeded, PolicyViolation} {
      if verifier.None? {
        status := VerifierError;
        return;
      }
      verification := verifier;
      status := StatusAfterVerification(verifier.value);
    } else if runtime == ToolError {
      if verifier.None? {
        status := VerifierError;
        return;
      }
      verification := verifier;
    }
  }

  /**
   * A run passes exactly when nothing went wrong and the verifier passed; a run that met a tool
   * error never passes, whatever the verifier says.
   */
  lemma PassExact(runtime: RunStatus, infrastructureError: bool, assertions: seq<Assertion>)
    ensures var v := BuildResult(assertions);
      var outcome := Conclude(runtime, infrastructureError, Some(v));
      && (outcome.status == Pass <==>
            !infrastructureError && AllPassed(assertions)
            && runtime !in {AgentError, Timeout, BudgetExceeded, PolicyViolation, ToolError})
      && (infrastructureError ==> outcome == RunOutcome(EnvironmentError, None))
      && (outcome.status == TaskFail && runtime == Pass ==> forall i | 0 <= i < |assertions| :: !assertions[i].passed)
  {
    ResultAgrees(assertions);
  }

  /**
   * From the agent to the runner: every status a run can end with, by what the agent met, whether an
   * infrastructure error occurred, and what the verifier answered. Nobody ends with a policy
   * violation; and a verification is recorded exactly when the verifier was asked and answered.
   */
  lemma {:induction false} RunEndsExactly(
    env: Agent.Setting, usage: Budgets.Usage, exceeded: Option<Budgets.BudgetError>,
    infrastructureError: bool, assertions: Option<seq<Assertion>>)
    ensures var run := Agent.RunOf(env, usage, exceeded);
      var s, cause := run.state, Agent.CauseOf(env, usage, run.state);
      var answer := if assertions.Some? then Some(BuildResult(assertions.value)) else None;
      var outcome := Conclude(Agent.StatusOfRun(run), infrastructureError, answer);
      var toolErrors := Trajectory.Count(s.trace, Trajectory.IsToolError()) > 0;
      var judged := !infrastructureError && cause.None? && assertions.Some?;
      && (outcome.status == EnvironmentError <==> infrastructureError)
      && (outcome.status == Timeout <==>
            !infrastructureError
            && (Agent.Late(env, s) || cause == Some(Agent.Raises(Agent.BudgetRaised(Budgets.WallSeconds)))))
      && (outcome.status == BudgetExceeded <==>
            !infrastructureError
            && (|| Agent.LimitReached(env, usage, s) || Agent.TokensPassed(env, usage, s)
                || (cause.Some? && cause.value.Raises? && cause.value.raised.BudgetRaised?
                    && cause.value.raised.dimension.CounterLimit?)))
      && (outcome.status == AgentError <==>
            !infrastructureError && cause in {Some(Agent.Raises(Agent.Ordinary)), Some(Agent.Unusable)})
      && (outcome.status == VerifierError <==> !infrastructureError && cause.None? && assertions.None?)
      && (outcome.status == ToolError <==> judged && toolErrors)
      && (outcome.status == Pass <==> judged && !toolErrors && forall a | a in assertions.value :: a.passed)
      && (outcome.status == Partial <==>
            judged && !toolErrors
            && (exists a | a in assertions.value :: a.passed) && (exists a | a in assertions.value :: !a.passed))
      && (outcome.status == TaskFail <==>
            judged && !toolErrors && assertions.value != [] && forall a | a in assertions.value :: !a.passed)
      && outcome.verification == (if judged then answer else None)
  {
    Agent.StatusExact(env, usage, exceeded);
    if assertions.Some? {
      ResultAgrees(assertions.value);
      ResultExact(assertions.value);
    }
  }
}
