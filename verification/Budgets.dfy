/** Execution budgets and the tracker that counts against them. */
module Budgets {
  import opened Options

  datatype ExecutionBudget = ExecutionBudget(
    maxWallSeconds: nat, maxModelTurns: nat, maxToolCalls: nat, maxTokens: Option<nat>)

  datatype Counter = ModelTurns | ToolCalls | Tokens

  datatype Dimension = CounterLimit(counter: Counter) | WallSeconds

  datatype BudgetError = InvalidAmount | Exceeded(dimension: Dimension, limit: nat, observed: real)

  /** What has been counted so far. */
  datatype Usage = Usage(modelTurns: nat, toolCalls: nat, inputTokens: nat, outputTokens: nat)

  const NO_USAGE: Usage := Usage(0, 0, 0, 0)

  function TotalTokens(u: Usage): nat {
    u.inputTokens + u.outputTokens
  }

  predicate Within(u: Usage, b: ExecutionBudget) {
    && u.modelTurns <= b.maxModelTurns
    && u.toolCalls <= b.maxToolCalls
    && (b.maxTokens.Some? ==> TotalTokens(u) <= b.maxTokens.value)
  }

  function Counted(u: Usage, counter: Counter): nat {
    match counter
    case ModelTurns => u.modelTurns
    case ToolCalls => u.toolCalls
    case Tokens => TotalTokens(u)
  }

  function Limit(b: ExecutionBudget, counter: Counter): Option<nat> {
    match counter
    case ModelTurns => Some(b.maxModelTurns)
    case ToolCalls => Some(b.maxToolCalls)
    case Tokens => b.maxTokens
  }

  /** `check_and_bump` on one of the three counters. */
  function Bumped(u: Usage, b: ExecutionBudget, counter: Counter, amount: int): Result<Usage, BudgetError>
  {
    if amount < 0 then Err(InvalidAmount)
    else
      var attempted := Counted(u, counter) + amount;
      if Limit(b, counter).Some? && attempted > Limit(b, counter).value then
        Err(Exceeded(CounterLimit(counter), Limit(b, counter).value, attempted as real))
      else match counter
        case ModelTurns => Ok(u.(modelTurns := attempted))
        case ToolCalls => Ok(u.(toolCalls := attempted))
        case Tokens => Ok(u.(outputTokens := u.outputTokens + amount))
  }

  predicate NonNegative(tokens: Option<int>) {
    tokens.Some? ==> tokens.value >= 0
  }

  function Amount(tokens: Option<int>): nat
    requires NonNegative(tokens)
  {
    if tokens.Some? then tokens.value else 0
  }

  /** `record_tokens`. */
  function Recorded(u: Usage, b: ExecutionBudget, input: Option<int>, output: Option<int>): Result<Usage, BudgetError> {
    if !NonNegative(input) || !NonNegative(output) then Err(InvalidAmount)
    else
      var attempted := TotalTokens(u) + Amount(input) + Amount(output);
      if b.maxTokens.Some? && attempted > b.maxTokens.value then Err(Exceeded(CounterLimit(Tokens), b.maxTokens.value, attempted as real))
      else Ok(u.(inputTokens := u.inputTokens + Amount(input), outputTokens := u.outputTokens + Amount(output)))
  }

  /**
   * The counters never pass their limits: a bump succeeds exactly when it stays within them, and
   * then counts exactly what was asked for on exactly one counter.
   */
  lemma BumpExact(u: Usage, b: ExecutionBudget, counter: Counter, amount: int)
    requires Within(u, b)
    ensures var r := Bumped(u, b, counter, amount);
      && (r.Ok? <==> amount >= 0 && (Limit(b, counter).Some? ==> Counted(u, counter) + amount <= Limit(b, counter).value))
      && (r.Ok? ==>
            && Within(r.value, b) && Counted(r.value, counter) == Counted(u, counter) + amount
            && forall other: Counter | other != counter ::
                 Counted(r.value, other) == Counted(u, other))
  {
  }

  /** A response is charged, input and output each to its own count, exactly when no count is negative and the sum fits. */
  lemma RecordExact(u: Usage, b: ExecutionBudget, input: Option<int>, output: Option<int>)
    ensures var r := Recorded(u, b, input, output);
      var given := (if input.Some? then input.value else 0) + if output.Some? then output.value else 0;
      && (r.Ok? <==>
            && (input.Some? ==> input.value >= 0) && (output.Some? ==> output.value >= 0)
            && (b.maxTokens.Some? ==> u.inputTokens + u.outputTokens + given <= b.maxTokens.value))
      && (r.Ok? ==>
            && r.value.inputTokens == u.inputTokens + (if input.Some? then input.value else 0)
            && r.value.outputTokens == u.outputTokens + (if output.Some? then output.value else 0)
            && r.value.modelTurns == u.modelTurns && r.value.toolCalls == u.toolCalls)
      && (r == Err(InvalidAmount) <==> (input.Some? && input.value < 0) || (output.Some? && output.value < 0))
  {
  }

  datatype Charge = Bump(counter: Counter, amount: int) | Record(input: Option<int>, output: Option<int>)

  function ChargeOne(u: Usage, b: ExecutionBudget, c: Charge): Result<Usage, BudgetError> {
    match c
    case Bump(counter, amount) => Bumped(u, b, counter, amount)
    case Record(input, output) => Recorded(u, b, input, output)
  }

  /** A run of charges, of which the refused ones count nothing. */
  function ChargeAll(u: Usage, b: ExecutionBudget, charges: seq<Charge>): Usage
    decreases |charges|
  {
    if charges == [] then u
    else
      var r := ChargeOne(u, b, charges[0]);
      ChargeAll(if r.Ok? then r.value else u, b, charges[1..])
  }

  /** Whatever is charged, accepted or refused, no counter ever passes its limit and none ever falls. */
  lemma {:induction false} ChargesStayWithin(u: Usage, b: ExecutionBudget, charges: seq<Charge>, counter: Counter)
    requires Within(u, b)
    ensures Within(ChargeAll(u, b, charges), b)
    ensures Counted(u, counter) <= Counted(ChargeAll(u, b, charges), counter)
    decreases |charges|
  {
    if charges != [] {
      var r := ChargeOne(u, b, charges[0]);
      ChargesStayWithin(if r.Ok? then r.value else u, b, charges[1..], counter);
    }
  }

  class BudgetTracker {
    const budget: ExecutionBudget
    const startedAt: real
    var modelTurns: nat
    var toolCalls: nat
    var inputTokens: nat
    var outputTokens: nat
    var exceeded: Option<BudgetError>

    function Used(): Usage
      reads this
    {
      Usage(modelTurns, toolCalls, inputTokens, outputTokens)
    }

    constructor (budget: ExecutionBudget, now: real)
      ensures this.budget == budget && startedAt == now && Used() == NO_USAGE && exceeded == None
      ensures Within(Used(), budget)
    {
      this.budget, startedAt := budget, now;
      modelTurns, toolCalls, inputTokens, outputTokens := 0, 0, 0, 0;
      exceeded := None;
    }

    /** Either the counter rises and everything else stays, or nothing is counted and the tracker remembers why. */
    method CheckAndBump(counter: Counter, amount: int) returns (r: Result<Usage, BudgetError>)
        modifies this
      ensures r == Bumped(old(Used()), budget, counter, amount)
      ensures Used() == if r.Ok? then r.value else old(Used())
      ensures exceeded == if r.Err? && r.error.Exceeded? then Some(r.error) else old(exceeded)
    {
      if amount < 0 {
        return Err(InvalidAmount);
      }
      var current, limit := 0, budget.maxTokens;
      match counter {
        case ModelTurns => current, limit := modelTurns, Some(budget.maxModelTurns);
        case ToolCalls => current, limit := toolCalls, Some(budget.maxToolCalls);
        case Tokens =>
          current := inputTokens + outputTokens;
          if limit.None? {
            outputTokens := outputTokens + amount;
            return Ok(Used());
          }
      }
      var attempted := current + amount;
      if attempted > limit.value {
        exceeded := Some(Exceeded(CounterLimit(counter), limit.value, attempted as real));
        return Err(exceeded.value);
      }
      match counter {
        case ModelTurns => modelTurns := attempted;
        case ToolCalls => toolCalls := attempted;
        case Tokens => outputTokens := attempted - inputTokens;
      }
      r := Ok(Used());
    }

    /** Elapsed wall time, never negative, must stay strictly below the limit. */
    method CheckWall(now: real) returns (r: Result<Usage, BudgetError>)
      modifies this`exceeded
      ensures var elapsed := if now - startedAt > 0.0 then now - startedAt else 0.0;
        && (r.Err? <==> elapsed >= budget.maxWallSeconds as real)
        && (r.Err? ==> r.error == Exceeded(WallSeconds, budget.maxWallSeconds, elapsed) && exceeded == Some(r.error))
        && (r.Ok? ==> r.value == Used() && exceeded == old(exceeded))
    {
      var elapsed := if now - startedAt > 0.0 then now - startedAt else 0.0;
      if elapsed >= budget.maxWallSeconds as real {
        exceeded := Some(Exceeded(WallSeconds, budget.maxWallSeconds, elapsed));
        return Err(exceeded.value);
      }
      r := Ok(Used());
    }

    method RecordTokens(input: Option<int>, output: Option<int>) returns (r: Result<Usage, BudgetError>)
      modifies this
      ensures r == Recorded(old(Used()), budget, input, output)
      ensures Used() == if r.Ok? then r.value else old(Used())
      ensures exceeded == if r.Err? && r.error.Exceeded? then Some(r.error) else old(exceeded)
    {
      if !NonNegative(input) || !NonNegative(output) {
        return Err(InvalidAmount);
      }
      var attempted := inputTokens + outputTokens + Amount(input) + Amount(output);
      if budget.maxTokens.Some? && attempted > budget.maxTokens.value {
        exceeded := Some(Exceeded(CounterLimit(Tokens), budget.maxTokens.value, attempted as real));
        return Err(exceeded.value);
      }
      inputTokens, outputTokens := inputTokens + Amount(input), outputTokens + Amount(output);
      r := Ok(Used());
    }
  }
}
