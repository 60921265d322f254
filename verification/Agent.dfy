/**
 * The reference agent: a loop that runs until the model stops calling tools or a budget runs out.
 * The model client, the tool executor, the event sink and the clock are arbitrary: they answer
 * what they like, and they raise what they like.
 */
module Agent {
  import opened Options
  import opened Statuses
  import opened Budgets
  import opened Trajectory

  /** An exception out of the client or the sink. A budget error raised there is told by its dimension alone. */
  datatype Raised = Ordinary | BudgetRaised(dimension: Dimension)

  /**
   * What one model turn meets. The sink may refuse the request before the model is asked. A
   * response may be refused by the sink, and its calls may not be sayable as an assistant message.
   */
  datatype ModelReply =
    | RequestRefused(raised: Raised)
    | ModelRaises(raised: Raised)
    | NotAResponse
    | Response(calls: seq<string>, inputTokens: Option<int>, outputTokens: Option<int>,
               refused: Option<Raised>, sayable: bool)

  /**
   * What one charged tool call meets, and how many world events are recorded meanwhile. The sink
   * may refuse the call with its raw arguments before the executor is asked. What the executor
   * raises becomes an error result; what it returns need not be a result at all; and a result may
   * be refused by the sink or not be sayable as a tool message.
   */
  datatype ToolReply =
    | CallRefused(raised: Raised)
    | ToolRaises(events: nat)
    | NotAResult(events: nat)
    | ToolAnswers(events: nat, error: bool, refused: Option<Raised>, sayable: bool)

  /** The world a run meets: the n-th model turn, the n-th charged tool call, the n-th reading of the clock. */
  datatype Surroundings = Surroundings(model: nat -> ModelReply, tool: nat -> ToolReply, clock: nat -> real)

  /** What a run is given: its budget, when the budget's clock started, and its surroundings. */
  datatype Setting = Setting(budget: ExecutionBudget, startedAt: real, around: Surroundings)

  /** A run so far: what it recorded and said, what it has met, and what was charged. */
  datatype RunState = RunState(
    trace: seq<Event>, messages: seq<Message>,
    requests: seq<seq<Message>>, // the conversation as the model saw it at each request
    hadToolError: bool, readings: nat, modelReplies: nat, toolReplies: nat,
    usage: Usage, exceeded: Option<BudgetError>)
  {
    function Emit(e: Event): RunState {
      this.(trace := trace + [e])
    }

    function Say(m: Message): RunState {
      this.(messages := messages + [m])
    }
  }

  function Fresh(usage: Usage, exceeded: Option<BudgetError>): RunState {
    RunState([], [], [], false, 0, 0, 0, usage, exceeded)
  }

  /** Why a run stops. `Faulty` is a reply of the wrong type, or a message that cannot be rendered. */
  datatype Stop = Finished | Charge(error: BudgetError) | Threw(raised: Raised) | Faulty

  /** A step of the run: the state after it, and why the run has to stop, if it has to. */
  datatype Attempt = Attempt(state: RunState, stop: Option<Stop>)

  function StatusOfDimension(d: Dimension): RunStatus {
    if d.WallSeconds? then Timeout else BudgetExceeded
  }

  function StatusOf(stop: Stop, toolErrors: bool): RunStatus {
    match stop
    case Finished => if toolErrors then ToolError else Pass
    case Charge(e) => if e.Exceeded? then StatusOfDimension(e.dimension) else AgentError
    case Threw(raised) => if raised.BudgetRaised? then StatusOfDimension(raised.dimension) else AgentError
    case Faulty => AgentError
  }

  // ---- What a run does ----

  function Elapsed(env: Setting, n: nat): real {
    var elapsed := env.around.clock(n) - env.startedAt;
    if elapsed > 0.0 then elapsed else 0.0
  }

  /** The n-th reading of the clock is below the wall limit. */
  predicate InTime(env: Setting, n: nat) {
    Elapsed(env, n) < env.budget.maxWallSeconds as real
  }

  function WallChecked(env: Setting, s: RunState): Attempt {
    var read := s.(readings := s.readings + 1);
    if InTime(env, s.readings) then Attempt(read, None)
    else
      var late := Exceeded(WallSeconds, env.budget.maxWallSeconds, Elapsed(env, s.readings));
      Attempt(read.(exceeded := Some(late)), Some(Charge(late)))
  }

  function Charged(s: RunState, r: Result<Usage, BudgetError>): Attempt {
    match r
    case Ok(usage) => Attempt(s.(usage := usage), None)
    case Err(e) => Attempt(if e.Exceeded? then s.(exceeded := Some(e)) else s, Some(Charge(e)))
  }

  /** The wall check and the charge that come before every model turn and every tool call. */
  function Admitted(env: Setting, s: RunState, counter: Counter): Attempt {
    var w := WallChecked(env, s);
    if w.stop.Some? then w else Charged(w.state, Bumped(w.state.usage, env.budget, counter, 1))
  }

  function AskedModel(s: RunState): RunState {
    s.Emit(ModelRequest).(requests := s.requests + [s.messages])
  }

  /** What is checked, charged and recorded of a reply. */
  function ReplyTaken(env: Setting, s: RunState, reply: ModelReply): Attempt {
    match reply
    case RequestRefused(raised) => Attempt(s, Some(Threw(raised)))
    case ModelRaises(raised) => Attempt(s, Some(Threw(raised)))
    case NotAResponse => Attempt(s, Some(Faulty))
    case Response(calls, input, output, refused, _) =>
      var w := WallChecked(env, s);
      if w.stop.Some? then w
      else
        var t := Charged(w.state, Recorded(w.state.usage, env.budget, input, output));
        if t.stop.Some? then t
        else if refused.Some? then Attempt(t.state, Some(Threw(refused.value)))
        else Attempt(t.state.Emit(ModelResponse(calls)), None)
  }

  /** The first half of an iteration: the budget checks, one request to the model, and its response. */
  function TurnTaken(env: Setting, s: RunState): Attempt {
    var a := Admitted(env, s, ModelTurns);
    if a.stop.Some? then a
    else
      var reply, met := env.around.model(s.modelReplies), a.state.(modelReplies := s.modelReplies + 1);
      ReplyTaken(env, if reply.RequestRefused? then met else AskedModel(met), reply)
  }

  function WorldEvents(n: nat): (events: seq<Event>)
    ensures |events| == n && forall i | 0 <= i < n :: events[i] == WorldEvent
  {
    seq(n, _ => WorldEvent)
  }

  function Called(s: RunState, id: string, events: nat): RunState {
    s.(trace := s.trace + [ToolCalled(id)] + WorldEvents(events))
  }

  function Returned(s: RunState, id: string, failed: bool): RunState {
    s.(trace := s.trace + [ToolReturned(id, failed)] + if failed then [ToolErred(id)] else [])
  }

  /** One tool call with its events, its result and its tool message. */
  function Performed(s: RunState, id: string, reply: ToolReply): Attempt {
    match reply
    case CallRefused(raised) => Attempt(s, Some(Threw(raised)))
    case NotAResult(events) => Attempt(Called(s, id, events), Some(Faulty))
    case ToolRaises(events) =>
      Attempt(Returned(Called(s, id, events).(hadToolError := true), id, true).Say(Tool(id)), None)
    case ToolAnswers(events, error, refused, sayable) =>
      var met := Called(s, id, events).(hadToolError := s.hadToolError || error);
      if refused.Some? then Attempt(met, Some(Threw(refused.value)))
      else if !sayable then Attempt(Returned(met, id, error), Some(Faulty))
      else Attempt(Returned(met, id, error).Say(Tool(id)), None)
  }

  function CallMade(env: Setting, s: RunState, id: string): Attempt {
    var a := Admitted(env, s, ToolCalls);
    if a.stop.Some? then a
    else Performed(a.state.(toolReplies := s.toolReplies + 1), id, env.around.tool(s.toolReplies))
  }

  function CallsMade(env: Setting, s: RunState, ids: seq<string>): (a: Attempt)
    ensures a.state.usage.modelTurns == s.usage.modelTurns
    decreases |ids|
  {
    if ids == [] then Attempt(s, None)
    else
      var a := CallMade(env, s, ids[0]);
      if a.stop.Some? then a else CallsMade(env, a.state, ids[1..])
  }

  /** The second half of an iteration: the assistant message and the tool calls. */
  function ToolsUsed(env: Setting, s: RunState, reply: ModelReply): (a: Attempt)
    requires reply.Response?
    ensures a.state.usage.modelTurns == s.usage.modelTurns
  {
    if !reply.sayable then Attempt(s, Some(Faulty))
    else CallsMade(env, s.Say(Assistant(reply.calls)), reply.calls)
  }

  function Erred(a: Attempt): Attempt
    requires a.stop.Some?
  {
    Attempt(a.state.Emit(AgentErred(StatusOf(a.stop.value, a.state.hadToolError))), a.stop)
  }

  /** One iteration of the loop: a turn and its tool calls, or the event that ends the run. */
  function Iterated(env: Setting, s: RunState): (a: Attempt)
    ensures a.stop.None? ==> s.usage.modelTurns < a.state.usage.modelTurns <= env.budget.maxModelTurns
  {
    var t, reply := TurnTaken(env, s), env.around.model(s.modelReplies);
    if t.stop.Some? then Erred(t)
    else if reply.calls == [] then Attempt(t.state.Emit(AgentCompleted), Some(Finished))
    else
      var c := ToolsUsed(env, t.state, reply);
      if c.stop.Some? then Erred(c) else c
  }

  /** The loop: every iteration that goes on has used up a model turn, so there are only so many. */
  function Looped(env: Setting, s: RunState): (a: Attempt)
    ensures a.stop.Some?
    decreases env.budget.maxModelTurns - s.usage.modelTurns
  {
    var a := Iterated(env, s);
    if a.stop.Some? then a else Looped(env, a.state)
  }

  function Started(s: RunState): RunState {
    s.Say(System).Say(User).Emit(AgentStarted)
  }

  /** The whole of `run`. */
  function RunOf(env: Setting, usage: Usage, exceeded: Option<BudgetError>): (a: Attempt)
    ensures a.stop.Some?
  {
    Looped(env, Started(Fresh(usage, exceeded)))
  }

  function StatusOfRun(a: Attempt): RunStatus
    requires a.stop.Some?
  {
    StatusOf(a.stop.value, a.state.hadToolError)
  }

  // ---- The agent in place ----

  datatype RuntimeResult = RuntimeResult(status: RunStatus, usage: Usage)

  class ReferenceAgent {
    const tracker: BudgetTracker
    const around: Surroundings
    var trace: seq<Event>
    var messages: seq<Message>
    var requests: seq<seq<Message>>
    var hadToolError: bool
    var readings: nat
    var modelReplies: nat
    var toolReplies: nat

    function Env(): Setting {
      Setting(tracker.budget, tracker.startedAt, around)
    }

    function State(): RunState
      reads this, tracker
    {
      RunState(trace, messages, requests, hadToolError, readings, modelReplies, toolReplies,
               tracker.Used(), tracker.exceeded)
    }

    constructor (tracker: BudgetTracker, around: Surroundings)
      ensures this.tracker == tracker && this.around == around
      ensures State() == Fresh(tracker.Used(), tracker.exceeded)
    {
      this.tracker, this.around := tracker, around;
      trace, messages, requests, hadToolError := [], [], [], false;
      readings, modelReplies, toolReplies := 0, 0, 0;
    }

    method Emit(e: Event)
      modifies this`trace
      ensures trace == old(trace) + [e]
    {
      trace := trace + [e];
    }

    method CheckWall() returns (stop: Option<Stop>)
      modifies this`readings, tracker`exceeded
      ensures Attempt(State(), stop) == WallChecked(Env(), old(State()))
    {
      var r := tracker.CheckWall(around.clock(readings));
      readings := readings + 1;
      stop := if r.Err? then Some(Charge(r.error)) else None;
    }

    method Admit(counter: Counter) returns (stop: Option<Stop>)
      modifies this`readings, tracker
      ensures Attempt(State(), stop) == Admitted(Env(), old(State()), counter)
    {
      stop := CheckWall();
      if stop.None? {
        var r := tracker.CheckAndBump(counter, 1);
        stop := if r.Err? then Some(Charge(r.error)) else None;
      }
    }

    /** What follows the request: a raising client, a reply of the wrong type, or the checks on a response. */
    method TakeReply(reply: ModelReply) returns (stop: Option<Stop>)
      modifies this`readings, this`trace, tracker
      ensures Attempt(State(), stop) == ReplyTaken(Env(), old(State()), reply)
    {
      if reply.RequestRefused? || reply.ModelRaises? {
        return Some(Threw(reply.raised));
      }
      if !reply.Response? {
        return Some(Faulty);
      }
      stop := CheckWall();
      if stop.Some? {
        return;
      }
      var r := tracker.RecordTokens(reply.inputTokens, reply.outputTokens);
      if r.Err? {
        return Some(Charge(r.error));
      }
      if reply.refused.Some? {
        return Some(Threw(reply.refused.value));
      }
      Emit(ModelResponse(reply.calls));
      stop := None;
    }

    /** Asks the model once the budget admits it. */
    method Turn() returns (reply: ModelReply, stop: Option<Stop>)
      modifies this, tracker
      ensures Attempt(State(), stop) == TurnTaken(Env(), old(State()))
      ensures stop.None? ==> reply == around.model(old(modelReplies))
    {
      reply := NotAResponse;
      stop := Admit(ModelTurns);
      if stop.Some? {
        return;
      }
      reply := around.model(modelReplies);
      modelReplies := modelReplies + 1;
      if !reply.RequestRefused? {
        Emit(ModelRequest);
        requests := requests + [messages];
      }
      stop := TakeReply(reply);
    }

    method Record(id: string, failed: bool)
      modifies this`trace
      ensures State() == Returned(old(State()), id, failed)
    {
      Emit(ToolReturned(id, failed));
      if failed {
        Emit(ToolErred(id));
      } else {
        assert trace + [] == trace;
      }
    }

    method EmitCall(id: string, events: nat)
      modifies this`trace
      ensures State() == Called(old(State()), id, events)
    {
      Emit(ToolCalled(id));
      ghost var before := trace;
      for n := 0 to events
        invariant trace == before + WorldEvents(n)
      {
        Emit(WorldEvent);
      }
    }

    /** The call itself: its events, its result and its tool message, as far as it gets. */
    method Perform(id: string, reply: ToolReply) returns (stop: Option<Stop>)
      modifies this`trace, this`messages, this`hadToolError
      ensures Attempt(State(), stop) == Performed(old(State()), id, reply)
    {
      if reply.CallRefused? {
        return Some(Threw(reply.raised));
      }
      EmitCall(id, reply.events);
      if reply.NotAResult? {
        return Some(Faulty);
      }
      var failed := reply.ToolRaises? || reply.error;
      if failed {
        hadToolError := true;
      }
      if reply.ToolAnswers? && reply.refused.Some? {
        return Some(Threw(reply.refused.value));
      }
      Record(id, failed);
      if reply.ToolAnswers? && !reply.sayable {
        return Some(Faulty);
      }
      messages := messages + [Tool(id)];
      stop := None;
    }

    method MakeCall(id: string) returns (stop: Option<Stop>)
      modifies this, tracker
      ensures Attempt(State(), stop) == CallMade(Env(), old(State()), id)
    {
      stop := Admit(ToolCalls);
      if stop.None? {
        var reply := around.tool(toolReplies);
        toolReplies := toolReplies + 1;
        stop := Perform(id, reply);
      }
    }

    method MakeCalls(ids: seq<string>) returns (stop: Option<Stop>)
      modifies this, tracker
      ensures Attempt(State(), stop) == CallsMade(Env(), old(State()), ids)
    {
      for i := 0 to |ids|
        invariant CallsMade(Env(), State(), ids[i..]) == CallsMade(Env(), old(State()), ids)
      {
        assert ids[i..][1..] == ids[i + 1..];
        stop := MakeCall(ids[i]);
        if stop.Some? {
          return;
        }
      }
      stop := None;
    }

    method UseTools(reply: ModelReply) returns (stop: Option<Stop>)
      requires reply.Response?
      modifies this, tracker
      ensures Attempt(State(), stop) == ToolsUsed(Env(), old(State()), reply)
    {
      if !reply.sayable {
        return Some(Faulty);
      }
      messages := messages + [Assistant(reply.calls)];
      stop := MakeCalls(reply.calls);
    }

    method Iterate() returns (stop: Option<Stop>)
      modifies this, tracker
      ensures Attempt(State(), stop) == Iterated(Env(), old(State()))
    {
      var reply;
      reply, stop := Turn();
      if stop.None? {
        if reply.calls == [] {
          Emit(AgentCompleted);
          return Some(Finished);
        }
        stop := UseTools(reply);
      }
      if stop.Some? {
        Emit(AgentErred(StatusOf(stop.value, hadToolError)));
      }
    }

    method Run() returns (result: RuntimeResult)
      requires State() == Fresh(tracker.Used(), tracker.exceeded)
      modifies this, tracker
      ensures var run := RunOf(Env(), old(tracker.Used()), old(tracker.exceeded));
        State() == run.state && result == RuntimeResult(StatusOfRun(run), run.state.usage)
    {
      messages := messages + [System];
      messages := messages + [User];
      Emit(AgentStarted);
      assert State() == Started(old(State()));
      var stop: Option<Stop> := None;
      while stop.None?
        invariant stop.None? ==> Looped(Env(), State()) == RunOf(Env(), old(tracker.Used()), old(tracker.exceeded))
        invariant stop.Some? ==> Attempt(State(), stop) == RunOf(Env(), old(tracker.Used()), old(tracker.exceeded))
        decreases stop.None?, tracker.budget.maxModelTurns - tracker.modelTurns
      {
        stop := Iterate();
      }
      result := RuntimeResult(StatusOf(stop.value, hadToolError), tracker.Used());
    }
  }

  // ---- What holds of every run ----

  /** The sink refused the request of the last model turn, so that the model was not asked. */
  predicate LastRequestRefused(env: Setting, s: RunState) {
    s.modelReplies > 0 && env.around.model(s.modelReplies - 1).RequestRefused?
  }

  /** The sink refused the last charged call, so that the executor was not asked. */
  predicate LastCallRefused(env: Setting, s: RunState) {
    s.toolReplies > 0 && env.around.tool(s.toolReplies - 1).CallRefused?
  }

  /** A reply that leaves its call without a result: it is no result, or the sink refuses the result. */
  predicate Unanswering(reply: ToolReply) {
    reply.NotAResult? || (reply.ToolAnswers? && reply.refused.Some?)
  }

  predicate LastCallUnanswered(env: Setting, s: RunState) {
    s.toolReplies > 0 && Unanswering(env.around.tool(s.toolReplies - 1))
  }

  function One(b: bool): nat {
    if b then 1 else 0
  }

  /**
   * The trace stands in `phase`, and the counters say what the trace says: one request for each
   * model turn and one call for each tool call charged, but for a last one that was refused.
   */
  predicate Counters(env: Setting, base: Usage, s: RunState, phase: Phase) {
    var seen := Summarize(s.trace);
    && seen.phase == phase
    && s.modelReplies == s.usage.modelTurns - base.modelTurns
    && s.toolReplies == s.usage.toolCalls - base.toolCalls
    && seen.requests == |s.requests| == s.modelReplies - One(LastRequestRefused(env, s))
    && seen.calls == s.toolReplies - One(LastCallRefused(env, s))
  }

  /** Every request showed the model a conversation that owed nothing, and that the conversation since extends. */
  predicate RequestsPaired(s: RunState) {
    forall k | 0 <= k < |s.requests| :: Owed(s.requests[k]) == Some([]) && s.requests[k] <= s.messages
  }

  /** What a response reports and is charged for: nothing, when one of its counts is negative. */
  function InputOf(reply: ModelReply): nat {
    if reply.Response? && NonNegative(reply.inputTokens) && NonNegative(reply.outputTokens) then Amount(reply.inputTokens) else 0
  }

  function OutputOf(reply: ModelReply): nat {
    if reply.Response? && NonNegative(reply.inputTokens) && NonNegative(reply.outputTokens) then Amount(reply.outputTokens) else 0
  }

  function TokensOf(reply: ModelReply): nat {
    InputOf(reply) + OutputOf(reply)
  }

  /** What the model reported over its first `n` turns. */
  function InputUpTo(around: Surroundings, n: nat): nat {
    if n == 0 then 0 else InputUpTo(around, n - 1) + InputOf(around.model(n - 1))
  }

  function OutputUpTo(around: Surroundings, n: nat): nat {
    if n == 0 then 0 else OutputUpTo(around, n - 1) + OutputOf(around.model(n - 1))
  }

  function TokensUpTo(around: Surroundings, n: nat): nat {
    InputUpTo(around, n) + OutputUpTo(around, n)
  }

  /** A response whose tokens the budget takes, after those of the `n` turns before it. */
  predicate TokensTaken(env: Setting, base: Usage, n: nat, reply: ModelReply)
    requires reply.Response?
  {
    && NonNegative(reply.inputTokens) && NonNegative(reply.outputTokens)
    && (env.budget.maxTokens.Some? ==>
          TotalTokens(base) + TokensUpTo(env.around, n) + TokensOf(reply) <= env.budget.maxTokens.value)
  }

  /**
   * What brings a run to its end: a late clock, a limit that a charge would have passed, an
   * exception, or something that cannot be used: a reply of the wrong type, a negative number of
   * tokens, a message that cannot be rendered.
   */
  datatype Cause = LateClock | Spent(counter: Counter) | Raises(raised: Raised) | Unusable

  /** What the reply to the last model turn gives cause for, before an assistant message is made of it. */
  function ModelCause(env: Setting, base: Usage, s: RunState): Option<Cause> {
    if s.modelReplies == 0 then None
    else
      var reply := env.around.model(s.modelReplies - 1);
      match reply
      case RequestRefused(raised) => Some(Raises(raised))
      case ModelRaises(raised) => Some(Raises(raised))
      case NotAResponse => Some(Unusable)
      case Response(_, input, output, refused, _) =>
        if !NonNegative(input) || !NonNegative(output) then Some(Unusable)
        else if !TokensTaken(env, base, s.modelReplies - 1, reply) then Some(Spent(Tokens))
        else if refused.Some? then Some(Raises(refused.value))
        else None
  }

  /** What the last charged call gives cause for. */
  function ToolCause(env: Setting, s: RunState): Option<Cause> {
    if s.toolReplies == 0 then None
    else match env.around.tool(s.toolReplies - 1)
      case CallRefused(raised) => Some(Raises(raised))
      case NotAResult(_) => Some(Unusable)
      case ToolRaises(_) => None
      case ToolAnswers(_, _, refused, sayable) =>
        if refused.Some? then Some(Raises(refused.value)) else if !sayable then Some(Unusable) else None
  }

  /** The last response calls tools, and no assistant message can be made of it. */
  predicate Unsayable(env: Setting, s: RunState) {
    s.modelReplies > 0
    && var reply := env.around.model(s.modelReplies - 1); reply.Response? && reply.calls != [] && !reply.sayable
  }

  /** One reading of the clock more than the turns and calls charged account for: a charge was refused. */
  predicate ChargeRefused(s: RunState) {
    s.readings > Checks(s)
  }

  /** What brought a run to its end, by what it met and what was charged; nothing, if the model finished. */
  function CauseOf(env: Setting, base: Usage, s: RunState): Option<Cause> {
    if s.readings > 0 && !InTime(env, s.readings - 1) then Some(LateClock)
    else if ModelCause(env, base, s).Some? then ModelCause(env, base, s)
    else if ToolCause(env, s).Some? then ToolCause(env, s)
    else if Unsayable(env, s) then Some(Unusable)
    else if ChargeRefused(s) then Some(Spent(if Owed(s.messages) == Some([]) then ModelTurns else ToolCalls))
    else None
  }

  /** The tokens charged are those of the first `n` turns, input as input and output as output. */
  predicate TokensMatch(env: Setting, base: Usage, s: RunState, n: nat) {
    && s.usage.inputTokens == base.inputTokens + InputUpTo(env.around, n)
    && s.usage.outputTokens == base.outputTokens + OutputUpTo(env.around, n)
  }

  predicate KeptWithin(env: Setting, base: Usage, s: RunState) {
    Within(base, env.budget) ==> Within(s.usage, env.budget)
  }

  predicate Timely(env: Setting, s: RunState) {
    forall n | 0 <= n < s.readings :: InTime(env, n)
  }

  /** Each model turn has a reading of the clock before the request and one before the response; each call has one. */
  function Checks(s: RunState): nat {
    2 * s.modelReplies + s.toolReplies
  }

  /** Nothing that a run has met so far stops it. */
  predicate NothingWrong(env: Setting, base: Usage, s: RunState) {
    && !LastRequestRefused(env, s) && !LastCallRefused(env, s) && !LastCallUnanswered(env, s)
    && ModelCause(env, base, s).None? && ToolCause(env, s).None?
  }

  /** A run between two steps: on time, all turns charged, owing the given tool messages. */
  predicate Steady(env: Setting, base: Usage, s: RunState, phase: Phase, owed: seq<string>) {
    && Counters(env, base, s, phase) && NothingWrong(env, base, s)
    && (Unsayable(env, s) ==> phase.Answered? && owed == [])
    && (s.hadToolError <==> Summarize(s.trace).errors > 0)
    && Owed(s.messages) == Some(owed) && RequestsPaired(s)
    && Timely(env, s) && TokensMatch(env, base, s, s.modelReplies) && KeptWithin(env, base, s)
    && s.readings == Checks(s)
  }

  predicate IsLate(stop: Stop) {
    stop.Charge? && stop.error.Exceeded? && stop.error.dimension.WallSeconds?
  }

  /** Only the last reading can be late, and it is late exactly when that is why the run stopped. */
  predicate Clocked(env: Setting, a: Attempt)
    requires a.stop.Some?
  {
    && (forall n | 0 <= n < a.state.readings - 1 :: InTime(env, n))
    && (IsLate(a.stop.value) <==> a.state.readings > 0 && !InTime(env, a.state.readings - 1))
  }

  /** At the end every step was checked and every turn charged, except at most the last one. */
  predicate Settled(env: Setting, base: Usage, a: Attempt)
    requires a.stop.Some?
  {
    && KeptWithin(env, base, a.state)
    && (if a.stop == Some(Finished) then a.state.readings == Checks(a.state)
        else Checks(a.state) - 1 <= a.state.readings <= Checks(a.state) + 1)
    && (|| TokensMatch(env, base, a.state, a.state.modelReplies)
        || (a.stop != Some(Finished) && a.state.modelReplies > 0
            && TokensMatch(env, base, a.state, a.state.modelReplies - 1)))
  }

  /**
   * The reason a run stops for is there: an exceeded budget with the tracker, and every reason in
   * what the run met and what was charged.
   */
  predicate Founded(env: Setting, base: Usage, a: Attempt)
    requires a.stop.Some?
  {
    && (a.stop.value.Charge? && a.stop.value.error.Exceeded? ==> a.state.exceeded == Some(a.stop.value.error))
    && CauseOf(env, base, a.state) == CauseFor(a.stop.value)
    && (CauseOf(env, base, a.state) == Some(Spent(ModelTurns)) ==> a.state.usage.modelTurns >= env.budget.maxModelTurns)
    && (CauseOf(env, base, a.state) == Some(Spent(ToolCalls)) ==> a.state.usage.toolCalls >= env.budget.maxToolCalls)
  }

  function CauseFor(stop: Stop): Option<Cause> {
    match stop
    case Finished => None
    case Charge(InvalidAmount) => Some(Unusable)
    case Charge(Exceeded(WallSeconds, _, _)) => Some(LateClock)
    case Charge(Exceeded(CounterLimit(counter), _, _)) => Some(Spent(counter))
    case Threw(raised) => Some(Raises(raised))
    case Faulty => Some(Unusable)
  }

  /** A run that is about to end with an error, in the given phase. */
  predicate Failing(env: Setting, base: Usage, a: Attempt, phase: Phase) {
    && a.stop.Some? && a.stop != Some(Finished) && Founded(env, base, a)
    && Counters(env, base, a.state, phase) && (phase.Calling? <==> LastCallUnanswered(env, a.state))
    && RequestsPaired(a.state) && Clocked(env, a) && Settled(env, base, a)
  }

  /** How the last event of a run and the tool errors before it decide its status. */
  predicate Concludes(a: Attempt)
    requires a.stop.Some?
  {
    && a.state.trace != []
    && match a.state.trace[|a.state.trace| - 1]
       case AgentCompleted => a.stop.value.Finished? && (a.state.hadToolError <==> Summarize(a.state.trace).errors > 0)
       case AgentErred(status) => !a.stop.value.Finished? && status == StatusOfRun(a)
       case _ => false
  }

  /** What is true of a run that has ended. */
  predicate Ended(env: Setting, base: Usage, a: Attempt) {
    && a.stop.Some? && Founded(env, base, a) && Concludes(a)
    && Counters(env, base, a.state, Done(LastCallUnanswered(env, a.state)))
    && RequestsPaired(a.state) && Clocked(env, a) && Settled(env, base, a)
  }

  /** The checks before a turn or a call read the clock once and charge one unit, or charge nothing and fail. */
  lemma AdmittedExact(env: Setting, s: RunState, counter: Counter)
    requires counter != Tokens
    ensures var a := Admitted(env, s, counter);
      && a.state == s.(readings := s.readings + 1, usage := a.state.usage, exceeded := a.state.exceeded)
      && (a.stop.Some? ==>
            && a.state.usage == s.usage && a.stop.value.Charge?
            && (IsLate(a.stop.value) <==> !InTime(env, s.readings))
            && a.state.exceeded == Some(a.stop.value.error)
            && (CauseFor(a.stop.value) in {Some(LateClock), Some(Spent(counter))})
            && (InTime(env, s.readings) ==> Counted(s.usage, counter) >= Limit(env.budget, counter).value))
      && (a.stop.None? ==>
            && InTime(env, s.readings)
            && Counted(a.state.usage, counter) == Counted(s.usage, counter) + 1
            && (forall other: Counter | other != counter :: Counted(a.state.usage, other) == Counted(s.usage, other))
            && (Within(s.usage, env.budget) ==> Within(a.state.usage, env.budget)))
  {
    if Within(s.usage, env.budget) {
      BumpExact(s.usage, env.budget, counter, 1);
    }
  }

  /** Whatever stops a run between two steps, it stops with everything in order. */
  lemma {:induction false} AdmissionFails(env: Setting, base: Usage, s: RunState, counter: Counter, phase: Phase, owed: seq<string>)
    requires Steady(env, base, s, phase, owed) && !phase.Calling?
    requires counter == (if owed == [] then ModelTurns else ToolCalls) && !Unsayable(env, s)
    requires Admitted(env, s, counter).stop.Some?
    ensures Failing(env, base, Admitted(env, s, counter), phase)
  {
    AdmittedExact(env, s, counter);
  }

  lemma {:induction false} WorldEventsSeen(trace: seq<Event>, n: nat)
    requires PhaseAfter(trace).Calling?
    ensures Summarize(trace + WorldEvents(n)) == Summarize(trace)
  {
    if n == 0 {
      assert trace + WorldEvents(0) == trace;
    } else {
      WorldEventsSeen(trace, n - 1);
      assert trace + WorldEvents(n) == trace + WorldEvents(n - 1) + [WorldEvent];
      Emitted(trace + WorldEvents(n - 1), WorldEvent);
    }
  }

  /** What a call adds to the trace. */
  lemma {:induction false} CalledSeen(s: RunState, id: string, events: nat, todo: seq<string>)
    requires PhaseAfter(s.trace) == Answered([id] + todo)
    ensures var before := Summarize(s.trace);
      Summarize(Called(s, id, events).trace) == before.(phase := Calling(id, todo), calls := before.calls + 1)
  {
    Emitted(s.trace, ToolCalled(id));
    assert ([id] + todo)[1..] == todo;
    WorldEventsSeen(s.trace + [ToolCalled(id)], events);
  }

  /** What a result adds to the trace: a tool error if and only if it failed. */
  lemma {:induction false} ReturnedSeen(s: RunState, id: string, failed: bool, todo: seq<string>)
    requires PhaseAfter(s.trace) == Calling(id, todo)
    ensures var before := Summarize(s.trace);
      Summarize(Returned(s, id, failed).trace)
      == before.(phase := Resume(todo), answers := before.answers + 1, errors := before.errors + One(failed))
  {
    Emitted(s.trace, ToolReturned(id, failed));
    Emitted(s.trace + [ToolReturned(id, failed)], ToolErred(id));
    if failed {
      assert Returned(s, id, failed).trace == s.trace + [ToolReturned(id, failed)] + [ToolErred(id)];
    } else {
      assert Returned(s, id, failed).trace == s.trace + [ToolReturned(id, failed)];
    }
  }

  /** A run whose next call has been charged and not yet made. */
  predicate Charging(env: Setting, base: Usage, s: RunState, owed: seq<string>) {
    var seen := Summarize(s.trace);
    && seen.phase == Answered(owed) && Owed(s.messages) == Some(owed) && RequestsPaired(s)
    && s.toolReplies > 0 && !LastRequestRefused(env, s) && ModelCause(env, base, s).None? && !Unsayable(env, s)
    && s.modelReplies == s.usage.modelTurns - base.modelTurns
    && s.toolReplies == s.usage.toolCalls - base.toolCalls
    && seen.requests == |s.requests| == s.modelReplies && seen.calls + 1 == s.toolReplies
    && (s.hadToolError <==> seen.errors > 0)
    && Timely(env, s) && TokensMatch(env, base, s, s.modelReplies) && KeptWithin(env, base, s) && s.readings == Checks(s)
  }

  lemma {:induction false} CallIsCharged(env: Setting, base: Usage, s: RunState, owed: seq<string>)
    requires Steady(env, base, s, Answered(owed), owed) && Admitted(env, s, ToolCalls).stop.None?
    ensures Charging(env, base, Admitted(env, s, ToolCalls).state.(toolReplies := s.toolReplies + 1), owed)
  {
    AdmittedExact(env, s, ToolCalls);
  }

  /** How far a reply takes its call: to nothing, to the call alone, or to its result as well. */
  lemma {:induction false} PerformedSeen(s: RunState, id: string, reply: ToolReply, todo: seq<string>)
    requires PhaseAfter(s.trace) == Answered([id] + todo)
    ensures var before, seen := Summarize(s.trace), Summarize(Performed(s, id, reply).state.trace);
      if reply.CallRefused? then seen == before
      else if Unanswering(reply) then seen == before.(phase := Calling(id, todo), calls := before.calls + 1)
      else
        seen == Summary(Resume(todo), before.requests, before.calls + 1, before.answers + 1,
                        before.errors + One(reply.ToolRaises? || reply.error))
  {
    if !reply.CallRefused? {
      var called := Called(s, id, reply.events);
      CalledSeen(s, id, reply.events, todo);
      if Unanswering(reply) {
        assert Performed(s, id, reply).state.trace == called.trace;
      } else {
        var failed := reply.ToolRaises? || reply.error;
        ReturnedSeen(called, id, failed, todo);
        assert Performed(s, id, reply).state.trace == Returned(called, id, failed).trace;
      }
    }
  }

  /** What else a reply changes, and why it stops the run if it does. */
  lemma {:induction false} PerformedExact(s: RunState, id: string, reply: ToolReply)
    ensures var a := Performed(s, id, reply);
      && a.state == s.(trace := a.state.trace, messages := if a.stop.None? then s.messages + [Tool(id)] else s.messages,
                       hadToolError := a.state.hadToolError)
      && (a.stop.None? ==> !reply.CallRefused? && !Unanswering(reply))
      && (a.stop.None? ==> a.state.hadToolError == (s.hadToolError || reply.ToolRaises? || reply.error))
      && (a.stop.Some? ==> a.stop.value.Faulty? || a.stop.value.Threw?)
      && (a.stop.Some? && a.stop.value.Threw? ==>
            || (reply.CallRefused? && reply.raised == a.stop.value.raised)
            || (reply.ToolAnswers? && reply.refused == Some(a.stop.value.raised)))
  {
  }

  /** A call stops the run for exactly what came out of it. */
  lemma {:induction false} CallHasCause(env: Setting, base: Usage, s: RunState, id: string, owed: seq<string>)
    requires Charging(env, base, s, owed)
    ensures var a := Performed(s, id, env.around.tool(s.toolReplies - 1));
      CauseOf(env, base, a.state) == (if a.stop.Some? then CauseFor(a.stop.value) else None)
  {
    PerformedExact(s, id, env.around.tool(s.toolReplies - 1));
  }

  /** A phase in which an error may end a run. */
  predicate MayErr(p: Phase) {
    p == Ready || p == Asked || p.Answered? || p.Calling?
  }

  /** What the counters and the trace say of a call that stops the run. */
  lemma {:induction false} CallCounted(env: Setting, base: Usage, s: RunState, id: string, todo: seq<string>)
    requires Charging(env, base, s, [id] + todo)
    requires Performed(s, id, env.around.tool(s.toolReplies - 1)).stop.Some?
    ensures var after := Performed(s, id, env.around.tool(s.toolReplies - 1)).state;
      var phase := PhaseAfter(after.trace);
      Counters(env, base, after, phase) && (phase.Calling? <==> LastCallUnanswered(env, after)) && MayErr(phase)
  {
    var reply := env.around.tool(s.toolReplies - 1);
    PerformedSeen(s, id, reply, todo);
    PerformedExact(s, id, reply);
  }

  /** A call that does not get its tool message stops the run. */
  lemma {:induction false} CallFails(env: Setting, base: Usage, s: RunState, id: string, todo: seq<string>)
    requires Charging(env, base, s, [id] + todo)
    requires Performed(s, id, env.around.tool(s.toolReplies - 1)).stop.Some?
    ensures var a := Performed(s, id, env.around.tool(s.toolReplies - 1));
      Failing(env, base, a, PhaseAfter(a.state.trace)) && MayErr(PhaseAfter(a.state.trace))
  {
    var reply := env.around.tool(s.toolReplies - 1);
    PerformedExact(s, id, reply);
    CallHasCause(env, base, s, id, [id] + todo);
    CallCounted(env, base, s, id, todo);
  }

  lemma {:induction false} CallSucceeds(env: Setting, base: Usage, s: RunState, id: string, todo: seq<string>)
    requires Charging(env, base, s, [id] + todo)
    requires Performed(s, id, env.around.tool(s.toolReplies - 1)).stop.None?
    ensures Steady(env, base, Performed(s, id, env.around.tool(s.toolReplies - 1)).state, Resume(todo), todo)
  {
    var reply := env.around.tool(s.toolReplies - 1);
    PerformedSeen(s, id, reply, todo);
    PerformedExact(s, id, reply);
    Said(s.messages, Tool(id));
    assert ([id] + todo)[1..] == todo;
  }

  /** After one call: the run goes on to the calls that are left, or is about to end in order. */
  predicate CallDone(env: Setting, base: Usage, a: Attempt, todo: seq<string>) {
    if a.stop.Some? then Failing(env, base, a, PhaseAfter(a.state.trace)) && MayErr(PhaseAfter(a.state.trace))
    else Steady(env, base, a.state, Resume(todo), todo)
  }

  lemma {:induction false} ChargedCallDone(env: Setting, base: Usage, s: RunState, id: string, todo: seq<string>)
    requires Charging(env, base, s, [id] + todo)
    ensures CallDone(env, base, Performed(s, id, env.around.tool(s.toolReplies - 1)), todo)
  {
    if Performed(s, id, env.around.tool(s.toolReplies - 1)).stop.Some? {
      CallFails(env, base, s, id, todo);
    } else {
      CallSucceeds(env, base, s, id, todo);
    }
  }

  lemma {:induction false} RefusedCallDone(env: Setting, base: Usage, s: RunState, id: string, todo: seq<string>)
    requires Steady(env, base, s, Answered([id] + todo), [id] + todo) && Admitted(env, s, ToolCalls).stop.Some?
    ensures CallDone(env, base, Admitted(env, s, ToolCalls), todo)
  {
    AdmissionFails(env, base, s, ToolCalls, Answered([id] + todo), [id] + todo);
    assert PhaseAfter(Admitted(env, s, ToolCalls).state.trace) == Answered([id] + todo);
  }

  lemma {:induction false} CallIsPerformed(env: Setting, s: RunState, id: string)
    ensures var a := Admitted(env, s, ToolCalls);
      CallMade(env, s, id) == if a.stop.Some? then a
                              else Performed(a.state.(toolReplies := s.toolReplies + 1), id, env.around.tool(s.toolReplies))
  {
  }

  lemma {:induction false} CallIsSteady(env: Setting, base: Usage, s: RunState, id: string, todo: seq<string>)
    requires Steady(env, base, s, Answered([id] + todo), [id] + todo)
    ensures CallDone(env, base, CallMade(env, s, id), todo)
  {
    CallIsPerformed(env, s, id);
    var a := Admitted(env, s, ToolCalls);
    if a.stop.Some? {
      RefusedCallDone(env, base, s, id, todo);
    } else {
      var charged := a.state.(toolReplies := s.toolReplies + 1);
      assert env.around.tool(charged.toolReplies - 1) == env.around.tool(s.toolReplies);
      CallIsCharged(env, base, s, [id] + todo);
      ChargedCallDone(env, base, charged, id, todo);
    }
  }

  lemma {:induction false} CallsAreSteady(env: Setting, base: Usage, s: RunState, ids: seq<string>)
    requires Steady(env, base, s, Resume(ids), ids)
    ensures var a := CallsMade(env, s, ids);
      if a.stop.None? then Steady(env, base, a.state, Ready, [])
      else Failing(env, base, a, PhaseAfter(a.state.trace)) && MayErr(PhaseAfter(a.state.trace))
    decreases |ids|
  {
    if ids != [] {
      assert ids == [ids[0]] + ids[1..];
      var a := CallMade(env, s, ids[0]);
      CallIsSteady(env, base, s, ids[0], ids[1..]);
      if a.stop.None? {
        CallsAreSteady(env, base, a.state, ids[1..]);
      }
    }
  }

  /** The run while the last model turn has been charged and its reply not yet taken. */
  predicate Open(env: Setting, base: Usage, s: RunState) {
    && s.modelReplies > 0 && Counters(env, base, s, if LastRequestRefused(env, s) then Ready else Asked)
    && !LastCallRefused(env, s) && !LastCallUnanswered(env, s) && ToolCause(env, s).None?
    && (s.hadToolError <==> Summarize(s.trace).errors > 0)
    && Owed(s.messages) == Some([]) && RequestsPaired(s)
    && Timely(env, s) && TokensMatch(env, base, s, s.modelReplies - 1) && KeptWithin(env, base, s)
    && s.readings + 1 == Checks(s)
  }

  /** A run `met` that has come from `s` by charging a model turn. */
  predicate TurnCharged(env: Setting, base: Usage, s: RunState, met: RunState) {
    && met == s.(modelReplies := s.modelReplies + 1, readings := s.readings + 1, usage := met.usage, exceeded := met.exceeded)
    && met.modelReplies == met.usage.modelTurns - base.modelTurns && met.toolReplies == met.usage.toolCalls - base.toolCalls
    && Timely(env, met) && TokensMatch(env, base, met, s.modelReplies) && KeptWithin(env, base, met)
    && met.readings + 1 == Checks(met)
  }

  /** What a charged turn leaves as it was, and what it adds to the accounts. */
  lemma {:induction false} TurnIsCharged(env: Setting, base: Usage, s: RunState)
    requires Steady(env, base, s, Ready, []) && Admitted(env, s, ModelTurns).stop.None?
    ensures TurnCharged(env, base, s, Admitted(env, s, ModelTurns).state.(modelReplies := s.modelReplies + 1))
  {
    AdmittedExact(env, s, ModelTurns);
  }

  lemma {:induction false} RefusedTurnIsOpen(env: Setting, base: Usage, s: RunState, met: RunState)
    requires Steady(env, base, s, Ready, []) && TurnCharged(env, base, s, met)
    requires env.around.model(s.modelReplies).RequestRefused?
    ensures Open(env, base, met)
  {
  }

  lemma {:induction false} TurnIsCounted(env: Setting, base: Usage, s: RunState, met: RunState)
    requires Steady(env, base, s, Ready, []) && TurnCharged(env, base, s, met)
    requires !env.around.model(s.modelReplies).RequestRefused?
    ensures Counters(env, base, AskedModel(met), Asked)
  {
    Emitted(met.trace, ModelRequest);
  }

  /** A request leaves the conversation as it is, on record as one that owed nothing. */
  lemma {:induction false} TurnIsOpen(env: Setting, base: Usage, s: RunState, met: RunState)
    requires Steady(env, base, s, Ready, []) && TurnCharged(env, base, s, met)
    requires !env.around.model(s.modelReplies).RequestRefused?
    ensures Open(env, base, AskedModel(met))
  {
    TurnIsCounted(env, base, s, met);
    Emitted(met.trace, ModelRequest);
    AskedPaired(met);
  }

  lemma AskedPaired(s: RunState)
    requires RequestsPaired(s) && Owed(s.messages) == Some([])
    ensures RequestsPaired(AskedModel(s))
  {
  }

  /** A response is charged in full and within the limits, or not at all. */
  lemma RecordedExact(u: Usage, b: ExecutionBudget, reply: ModelReply)
    requires reply.Response?
    ensures var r := Recorded(u, b, reply.inputTokens, reply.outputTokens);
      && (r.Ok? ==>
            && r.value.inputTokens == u.inputTokens + InputOf(reply) && r.value.outputTokens == u.outputTokens + OutputOf(reply)
            && r.value.modelTurns == u.modelTurns && r.value.toolCalls == u.toolCalls
            && (Within(u, b) ==> Within(r.value, b)))
      && (r.Err? && r.error.Exceeded? ==> !r.error.dimension.WallSeconds?)
  {
  }

  /** A reply that stops the run leaves no trace: at most it was checked against the clock and charged. */
  lemma {:induction false} RefusalExact(env: Setting, s: RunState, reply: ModelReply)
    requires ReplyTaken(env, s, reply).stop.Some?
    ensures var a := ReplyTaken(env, s, reply);
      && a.state == s.(readings := a.state.readings, usage := a.state.usage, exceeded := a.state.exceeded)
      && !a.stop.value.Finished?
      && (a.stop.value.Charge? && a.stop.value.error.Exceeded? ==> a.state.exceeded == Some(a.stop.value.error))
      && (if a.state.readings == s.readings then !IsLate(a.stop.value)
          else a.state.readings == s.readings + 1 && (IsLate(a.stop.value) <==> !InTime(env, s.readings)))
      && a.state.usage.modelTurns == s.usage.modelTurns && a.state.usage.toolCalls == s.usage.toolCalls
      && (Within(s.usage, env.budget) ==> Within(a.state.usage, env.budget))
      && (|| (a.state.usage.inputTokens == s.usage.inputTokens && a.state.usage.outputTokens == s.usage.outputTokens)
          || (a.state.usage.inputTokens == s.usage.inputTokens + InputOf(reply)
              && a.state.usage.outputTokens == s.usage.outputTokens + OutputOf(reply)))
  {
    if reply.Response? {
      RecordedExact(WallChecked(env, s).state.usage, env.budget, reply);
    }
  }

  /** A reply stops the run for exactly what it gives cause for. */
  lemma {:induction false} ReplyHasCause(env: Setting, base: Usage, s: RunState)
    requires Open(env, base, s)
    ensures var a := ReplyTaken(env, s, env.around.model(s.modelReplies - 1));
      a.stop.Some? ==> CauseOf(env, base, a.state) == CauseFor(a.stop.value)
  {
  }

  lemma {:induction false} ReplyRefused(env: Setting, base: Usage, s: RunState)
    requires Open(env, base, s) && ReplyTaken(env, s, env.around.model(s.modelReplies - 1)).stop.Some?
    ensures Failing(env, base, ReplyTaken(env, s, env.around.model(s.modelReplies - 1)),
                    if LastRequestRefused(env, s) then Ready else Asked)
  {
    RefusalExact(env, s, env.around.model(s.modelReplies - 1));
    ReplyHasCause(env, base, s);
  }

  lemma {:induction false} ReplyAccepted(env: Setting, base: Usage, s: RunState)
    requires Open(env, base, s) && ReplyTaken(env, s, env.around.model(s.modelReplies - 1)).stop.None?
    ensures var reply := env.around.model(s.modelReplies - 1);
      && reply.Response?
      && Steady(env, base, ReplyTaken(env, s, reply).state, if reply.calls == [] then Finishing else Answered(reply.calls), [])
  {
    var reply := env.around.model(s.modelReplies - 1);
    RecordedExact(WallChecked(env, s).state.usage, env.budget, reply);
    Emitted(s.trace, ModelResponse(reply.calls));
  }

  /** After one turn: the run has a response to work on, or is about to end in order. */
  predicate TurnDone(env: Setting, base: Usage, a: Attempt, replies: nat) {
    if a.stop.Some? then Failing(env, base, a, Ready) || Failing(env, base, a, Asked)
    else
      var reply := env.around.model(replies);
      && reply.Response? && a.state.modelReplies == replies + 1
      && Steady(env, base, a.state, if reply.calls == [] then Finishing else Answered(reply.calls), [])
  }

  lemma {:induction false} ReplyDone(env: Setting, base: Usage, s: RunState, replies: nat)
    requires Open(env, base, s) && s.modelReplies == replies + 1
    ensures TurnDone(env, base, ReplyTaken(env, s, env.around.model(replies)), replies)
  {
    var reply := env.around.model(replies);
    assert env.around.model(s.modelReplies - 1) == reply;
    if ReplyTaken(env, s, reply).stop.Some? {
      ReplyRefused(env, base, s);
    } else {
      ReplyAccepted(env, base, s);
    }
  }

  lemma {:induction false} TurnIsTaken(env: Setting, s: RunState)
    ensures var a, reply := Admitted(env, s, ModelTurns), env.around.model(s.modelReplies);
      var met := a.state.(modelReplies := s.modelReplies + 1);
      TurnTaken(env, s) == if a.stop.Some? then a
                           else ReplyTaken(env, if reply.RequestRefused? then met else AskedModel(met), reply)
  {
  }

  lemma {:induction false} TurnIsSteady(env: Setting, base: Usage, s: RunState)
    requires Steady(env, base, s, Ready, [])
    ensures TurnDone(env, base, TurnTaken(env, s), s.modelReplies)
  {
    TurnIsTaken(env, s);
    var a := Admitted(env, s, ModelTurns);
    if a.stop.Some? {
      AdmissionFails(env, base, s, ModelTurns, Ready, []);
    } else {
      var met := a.state.(modelReplies := s.modelReplies + 1);
      TurnIsCharged(env, base, s);
      if env.around.model(s.modelReplies).RequestRefused? {
        RefusedTurnIsOpen(env, base, s, met);
        ReplyDone(env, base, met, s.modelReplies);
      } else {
        TurnIsOpen(env, base, s, met);
        ReplyDone(env, base, AskedModel(met), s.modelReplies);
      }
    }
  }

  lemma {:induction false} CauseIgnoresTrace(env: Setting, base: Usage, s: RunState, trace: seq<Event>)
    ensures CauseOf(env, base, s.(trace := trace)) == CauseOf(env, base, s)
  {
  }

  lemma {:induction false} ErredEnds(env: Setting, base: Usage, a: Attempt, phase: Phase)
    requires Failing(env, base, a, phase) && MayErr(phase)
    ensures Ended(env, base, Erred(a))
  {
    Emitted(a.state.trace, AgentErred(StatusOf(a.stop.value, a.state.hadToolError)));
    CauseIgnoresTrace(env, base, a.state, Erred(a).state.trace);
  }

  lemma {:induction false} CompletedEnds(env: Setting, base: Usage, s: RunState)
    requires Steady(env, base, s, Finishing, [])
    ensures Ended(env, base, Attempt(s.Emit(AgentCompleted), Some(Finished)))
  {
    Emitted(s.trace, AgentCompleted);
  }

  lemma {:induction false} ToolsAreSteady(env: Setting, base: Usage, s: RunState, reply: ModelReply)
    requires s.modelReplies > 0 && reply == env.around.model(s.modelReplies - 1)
    requires reply.Response? && reply.calls != [] && Steady(env, base, s, Answered(reply.calls), [])
    ensures var c := ToolsUsed(env, s, reply);
      if c.stop.Some? then Ended(env, base, Erred(c)) else Steady(env, base, c.state, Ready, [])
  {
    if reply.sayable {
      var said, c := s.Say(Assistant(reply.calls)), ToolsUsed(env, s, reply);
      SaidIsSteady(env, base, s, reply.calls);
      CallsAreSteady(env, base, said, reply.calls);
      if c.stop.Some? {
        ErredEnds(env, base, c, PhaseAfter(c.state.trace));
      }
    } else {
      UnsayableFails(env, base, s, reply.calls);
      ErredEnds(env, base, Attempt(s, Some(Faulty)), Answered(reply.calls));
    }
  }

  lemma {:induction false} SaidIsSteady(env: Setting, base: Usage, s: RunState, ids: seq<string>)
    requires ids != [] && !Unsayable(env, s) && Steady(env, base, s, Answered(ids), [])
    ensures Steady(env, base, s.Say(Assistant(ids)), Resume(ids), ids)
  {
    Said(s.messages, Assistant(ids));
  }

  lemma {:induction false} UnsayableFails(env: Setting, base: Usage, s: RunState, ids: seq<string>)
    requires Unsayable(env, s) && Steady(env, base, s, Answered(ids), [])
    ensures Failing(env, base, Attempt(s, Some(Faulty)), Answered(ids))
  {
  }

  lemma {:induction false} IterationIsSteady(env: Setting, base: Usage, s: RunState)
    requires Steady(env, base, s, Ready, [])
    ensures var a := Iterated(env, s);
      if a.stop.Some? then Ended(env, base, a) else Steady(env, base, a.state, Ready, [])
  {
    var t, reply := TurnTaken(env, s), env.around.model(s.modelReplies);
    TurnIsSteady(env, base, s);
    if t.stop.Some? {
      ErredEnds(env, base, t, PhaseAfter(t.state.trace));
    } else if reply.calls == [] {
      CompletedEnds(env, base, t.state);
    } else {
      ToolsAreSteady(env, base, t.state, reply);
    }
  }

  lemma {:induction false} LoopEnds(env: Setting, base: Usage, s: RunState)
    requires Steady(env, base, s, Ready, [])
    ensures Ended(env, base, Looped(env, s))
    decreases env.budget.maxModelTurns - s.usage.modelTurns
  {
    var a := Iterated(env, s);
    IterationIsSteady(env, base, s);
    if a.stop.None? {
      LoopEnds(env, base, a.state);
    }
  }

  /**
   * Every run ends, whatever the client, the executor, the sink and the clock do, and ends in
   * order: its trace follows the grammar to the end, with a call left open exactly if the last
   * reply of the executor was no result or its result was refused; requests and calls in the trace
   * are the model turns and tool calls charged, but for a last one that the sink refused; the
   * budget holds; the tokens charged are those the model reported; every request, response and
   * call had its own reading of the clock before it, and only the last reading can be late; and
   * the status is what the reason for stopping and the tool errors say.
   */
  lemma {:induction false} EveryRunEnds(env: Setting, usage: Usage, exceeded: Option<BudgetError>)
    ensures Ended(env, usage, RunOf(env, usage, exceeded))
  {
    var started := Started(Fresh(usage, exceeded));
    Emitted([], AgentStarted);
    Said([], System);
    Said([System], User);
    assert started.messages == [System] + [User] && started.trace == [] + [AgentStarted];
    LoopEnds(env, usage, started);
  }

  /** The last reading of the clock was late. */
  predicate Late(env: Setting, s: RunState) {
    s.readings > 0 && !InTime(env, s.readings - 1)
  }

  /** A charge for another turn or call was refused, with the turns or the calls used up, and nothing else was wrong. */
  predicate LimitReached(env: Setting, base: Usage, s: RunState) {
    && !Late(env, s) && ModelCause(env, base, s).None? && ToolCause(env, s).None? && !Unsayable(env, s)
    && s.readings > Checks(s)
    && if Owed(s.messages) == Some([]) then s.usage.modelTurns >= env.budget.maxModelTurns
       else s.usage.toolCalls >= env.budget.maxToolCalls
  }

  /** The tokens of the last response would have passed the limit. */
  predicate TokensPassed(env: Setting, base: Usage, s: RunState) {
    !Late(env, s) && s.modelReplies > 0
    && var reply := env.around.model(s.modelReplies - 1);
       reply.Response? && NonNegative(reply.inputTokens) && NonNegative(reply.outputTokens)
       && env.budget.maxTokens.Some?
       && TotalTokens(base) + TokensUpTo(env.around, s.modelReplies) > env.budget.maxTokens.value
  }

  lemma {:induction false} SpentExact(env: Setting, base: Usage, s: RunState)
    requires CauseOf(env, base, s) == Some(Spent(ModelTurns)) ==> s.usage.modelTurns >= env.budget.maxModelTurns
    requires CauseOf(env, base, s) == Some(Spent(ToolCalls)) ==> s.usage.toolCalls >= env.budget.maxToolCalls
    ensures CauseOf(env, base, s) == Some(LateClock) <==> Late(env, s)
    ensures CauseOf(env, base, s) == Some(Spent(Tokens)) <==> TokensPassed(env, base, s)
    ensures CauseOf(env, base, s) in {Some(Spent(ModelTurns)), Some(Spent(ToolCalls))} <==> LimitReached(env, base, s)
  {
  }

  /**
   * How every run ends, by what it met and what was charged: the five statuses, each with its
   * exact condition. A late clock or a wall-time error raised by others is a timeout; a turn, call
   * or token limit reached, or such an error raised by others, is a spent budget; any other
   * exception and anything unusable is an agent error; and a run that met nothing of the kind
   * passes or, if a tool call failed on the way, ends with a tool error.
   */
  lemma {:induction false} StatusExact(env: Setting, usage: Usage, exceeded: Option<BudgetError>)
    ensures var run := RunOf(env, usage, exceeded);
      var s, cause, status := run.state, CauseOf(env, usage, run.state), StatusOfRun(run);
      && (status == Timeout <==> Late(env, s) || cause == Some(Raises(BudgetRaised(WallSeconds))))
      && (status == BudgetExceeded <==>
            || LimitReached(env, usage, s) || TokensPassed(env, usage, s)
            || (cause.Some? && cause.value.Raises? && cause.value.raised.BudgetRaised?
                && cause.value.raised.dimension.CounterLimit?))
      && (status == AgentError <==> cause == Some(Raises(Ordinary)) || cause == Some(Unusable))
      && (status == ToolError <==> cause == None && Count(s.trace, IsToolError()) > 0)
      && (status == Pass <==> cause == None && Count(s.trace, IsToolError()) == 0)
  {
    EveryRunEnds(env, usage, exceeded);
    SpentExact(env, usage, RunOf(env, usage, exceeded).state);
  }

  /**
   * In every run each recorded call is answered by its own result before anything but world events
   * happens, unless it is the last one and its reply is no result or its result is refused. Then
   * nothing but world events and the closing error follow it.
   */
  lemma {:induction false} EveryCallIsAnswered(env: Setting, usage: Usage, exceeded: Option<BudgetError>, i: nat) returns (j: nat)
    requires var trace := RunOf(env, usage, exceeded).state.trace; i < |trace| && trace[i].ToolCalled?
    ensures var run := RunOf(env, usage, exceeded);
      var trace := run.state.trace;
      && i < j < |trace| && (forall k | i < k < j :: trace[k].WorldEvent?)
      && (if IsLastCall(trace, i) && LastCallUnanswered(env, run.state) then trace[j].AgentErred? && j == |trace| - 1
          else trace[j].ToolReturned? && trace[j].id == trace[i].id)
  {
    EveryRunEnds(env, usage, exceeded);
    j := CallIsAnswered(RunOf(env, usage, exceeded).state.trace, i);
  }

  /** In every run exactly one event is terminal, the last one; and results match calls, but for one left open. */
  lemma {:induction false} EveryRunEndsOnce(env: Setting, usage: Usage, exceeded: Option<BudgetError>, k: nat)
    requires k < |RunOf(env, usage, exceeded).state.trace|
    ensures var run := RunOf(env, usage, exceeded);
      var trace := run.state.trace;
      && (Terminal(trace[k]) <==> k == |trace| - 1)
      && (trace[k].AgentStarted? <==> k == 0)
      && Count(trace, IsCall()) == Count(trace, IsReturn()) + One(LastCallUnanswered(env, run.state))
  {
    EveryRunEnds(env, usage, exceeded);
    ExactlyOneTerminal(RunOf(env, usage, exceeded).state.trace, k);
    CallsMatchReturns(RunOf(env, usage, exceeded).state.trace);
  }

  /** At every model request of every run, each earlier assistant message has its tool messages right behind it. */
  lemma {:induction false} EveryRequestIsPaired(env: Setting, usage: Usage, exceeded: Option<BudgetError>, k: nat, i: nat)
    requires var requests := RunOf(env, usage, exceeded).state.requests;
      k < |requests| && i < |requests[k]| && requests[k][i].Assistant?
    ensures PairedAt(RunOf(env, usage, exceeded).state.requests[k], i)
  {
    EveryRunEnds(env, usage, exceeded);
    MessagesPaired(RunOf(env, usage, exceeded).state.requests[k], i);
  }

  // ---- What can go wrong ----

  const ROOMY: ExecutionBudget := ExecutionBudget(10, 10, 10, None)

  /** A model that always calls one tool, an executor that always replies the same, and a clock that stands still. */
  function OneCall(reply: ToolReply): Setting {
    Setting(ROOMY, 0.0, Surroundings(_ => Response(["c"], None, None, None, true), _ => reply, _ => 0.0))
  }

  lemma {:induction false} FirstTurn(reply: ToolReply, s: RunState)
    requires s.usage == NO_USAGE
    ensures var t := TurnTaken(OneCall(reply), s);
      t.stop.None? && t.state.usage == Usage(1, 0, 0, 0) && t.state.toolReplies == s.toolReplies
  {
    var env := OneCall(reply);
    var a := Admitted(env, s, ModelTurns);
    assert a == Attempt(s.(readings := s.readings + 1, usage := Usage(1, 0, 0, 0)), None);
  }

  lemma {:induction false} CallStops(reply: ToolReply, s: RunState)
    requires (reply.CallRefused? || Unanswering(reply)) && s.usage == Usage(1, 0, 0, 0)
    ensures var c := CallsMade(OneCall(reply), s, ["c"]);
      c.stop.Some? && !c.stop.value.Finished? && c.state.toolReplies == s.toolReplies + 1 && c.state.usage == Usage(1, 1, 0, 0)
  {
    var env := OneCall(reply);
    var a := Admitted(env, s, ToolCalls);
    assert a == Attempt(s.(readings := s.readings + 1, usage := Usage(1, 1, 0, 0)), None);
    assert CallsMade(env, s, ["c"]) == CallMade(env, s, "c");
  }

  lemma {:induction false} LoopStops(env: Setting, s: RunState)
    requires Iterated(env, s).stop.Some?
    ensures Looped(env, s) == Iterated(env, s)
  {
  }

  lemma {:induction false} FirstCall(reply: ToolReply)
    requires reply.CallRefused? || Unanswering(reply)
    ensures var run := RunOf(OneCall(reply), NO_USAGE, None);
      run.state.toolReplies == 1 && run.state.usage.toolCalls == 1 && !run.stop.value.Finished?
  {
    var env, started := OneCall(reply), Started(Fresh(NO_USAGE, None));
    FirstTurn(reply, started);
    CallStops(reply, TurnTaken(env, started).state.Say(Assistant(["c"])));
    LoopStops(env, started);
  }

  lemma {:induction false} OnlyCallCounts(env: Setting, run: Attempt)
    requires Ended(env, NO_USAGE, run) && run.state.toolReplies == 1
    requires LastCallRefused(env, run.state) || LastCallUnanswered(env, run.state)
    ensures Count(run.state.trace, IsCall()) == One(LastCallUnanswered(env, run.state))
    ensures Count(run.state.trace, IsReturn()) == 0
  {
    CallsMatchReturns(run.state.trace);
  }

  /** Arguments that the sink does not take: the call is charged, and no call is recorded. */
  lemma {:induction false} RefusedCallExample()
    ensures var run := RunOf(OneCall(CallRefused(Ordinary)), NO_USAGE, None);
      run.state.usage.toolCalls == 1 && Count(run.state.trace, IsCall()) == 0
  {
    var env := OneCall(CallRefused(Ordinary));
    FirstCall(CallRefused(Ordinary));
    EveryRunEnds(env, NO_USAGE, None);
    OnlyCallCounts(env, RunOf(env, NO_USAGE, None));
  }

  /** An executor that returns something that is no result: the call is recorded and never answered. */
  lemma {:induction false} NoResultExample()
    ensures var trace := RunOf(OneCall(NotAResult(0)), NO_USAGE, None).state.trace;
      Count(trace, IsCall()) == 1 && Count(trace, IsReturn()) == 0
  {
    var env := OneCall(NotAResult(0));
    FirstCall(NotAResult(0));
    EveryRunEnds(env, NO_USAGE, None);
    OnlyCallCounts(env, RunOf(env, NO_USAGE, None));
  }

  /** A client that raises a budget error about wall time: the run times out, and no reading was late. */
  lemma {:induction false} RaisedTimeoutExample()
    ensures var raising := Setting(ROOMY, 0.0,
        Surroundings(_ => ModelRaises(BudgetRaised(WallSeconds)), _ => ToolRaises(0), _ => 0.0));
      var run := RunOf(raising, NO_USAGE, None);
      StatusOfRun(run) == Timeout && Timely(raising, run.state) && run.state.exceeded == None
  {
    var raising := Setting(ROOMY, 0.0,
      Surroundings(_ => ModelRaises(BudgetRaised(WallSeconds)), _ => ToolRaises(0), _ => 0.0));
    var started := Started(Fresh(NO_USAGE, None));
    var t := TurnTaken(raising, started);
    assert t.stop == Some(Threw(BudgetRaised(WallSeconds)));
    assert Iterated(raising, started) == Erred(t);
    LoopStops(raising, started);
  }
}
