/** How runs end. */
module Statuses {

  datatype RunStatus =
    | Pass | TaskFail | Partial | AgentError | ToolError | EnvironmentError | VerifierError | Timeout
    | BudgetExceeded | PolicyViolation
}
