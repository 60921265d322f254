/**
 * What the replies of model and executor spell out, turn by turn, without budgets, clocks or
 * failures; and that every run of the agent is that script, cut short at most.
 */
module Script {
  import opened Options
  import opened Trajectory
  import opened Agent
  import Budgets

  // ---- The script ----

  function CallsOf(reply: ModelReply): seq<string> {
    if reply.Response? then reply.calls else []
  }

  /** How many tools the first `n` turns call. */
  function CallsBefore(around: Surroundings, n: nat): nat {
    if n == 0 then 0 else CallsBefore(around, n - 1) + |CallsOf(around.model(n - 1))|
  }

  /** One call: its event, what the world records meanwhile, its result, and the error if it failed; as far as the reply lets it get. */
  function CallEvents(id: string, reply: ToolReply): seq<Event> {
    match reply
    case CallRefused(_) => []
    case NotAResult(events) => [ToolCalled(id)] + WorldEvents(events)
    case ToolRaises(events) => [ToolCalled(id)] + WorldEvents(events) + [ToolReturned(id, true), ToolErred(id)]
    case ToolAnswers(events, error, refused, _) =>
      [ToolCalled(id)] + WorldEvents(events)
      + if refused.Some? then [] else if error then [ToolReturned(id, true), ToolErred(id)] else [ToolReturned(id, false)]
  }

  /** The calls of one response, of which the first meets reply `k` of the executor. */
  function CallsEvents(around: Surroundings, ids: seq<string>, k: nat): seq<Event> {
    if ids == [] then [] else CallEvents(ids[0], around.tool(k)) + CallsEvents(around, ids[1..], k + 1)
  }

  function TurnEvents(around: Surroundings, n: nat): seq<Event> {
    match around.model(n)
    case RequestRefused(_) => []
    case ModelRaises(_) => [ModelRequest]
    case NotAResponse => [ModelRequest]
    case Response(calls, _, _, _, _) =>
      [ModelRequest, ModelResponse(calls)] + CallsEvents(around, calls, CallsBefore(around, n))
  }

  function TurnMessages(reply: ModelReply): seq<Message> {
    if CallsOf(reply) == [] then [] else [Assistant(reply.calls)] + ToolMessages(reply.calls)
  }

  /** The events of the first `n` turns. */
  function Events(around: Surroundings, n: nat): seq<Event> {
    if n == 0 then [AgentStarted] else Events(around, n - 1) + TurnEvents(around, n - 1)
  }

  /** The conversation after the first `n` turns. */
  function Conversation(around: Surroundings, n: nat): seq<Message> {
    if n == 0 then [System, User] else Conversation(around, n - 1) + TurnMessages(around.model(n - 1))
  }

  // ---- Runs follow it ----

  lemma Longer<T>(a: seq<T>, x: seq<T>, y: seq<T>)
    requires x <= y
    ensures a + x <= a + y
  {
  }

  /** One charged call. */
  lemma {:induction false} CallFollows(s: RunState, id: string, reply: ToolReply)
    ensures var a := Performed(s, id, reply);
      && a.state.trace == s.trace + CallEvents(id, reply)
      && a.state.messages == (if a.stop.None? then s.messages + [Tool(id)] else s.messages)
      && a.state == s.(trace := a.state.trace, messages := a.state.messages, hadToolError := a.state.hadToolError)
  {
    if !reply.CallRefused? {
      var called := Called(s, id, reply.events);
      assert called.trace == s.trace + ([ToolCalled(id)] + WorldEvents(reply.events));
      if !Unanswering(reply) {
        var failed := reply.ToolRaises? || reply.error;
        assert Returned(called, id, failed).trace
          == s.trace + ([ToolCalled(id)] + WorldEvents(reply.events) + if failed then [ToolReturned(id, true), ToolErred(id)] else [ToolReturned(id, false)]);
      } else {
        assert CallEvents(id, reply) == [ToolCalled(id)] + WorldEvents(reply.events);
      }
    }
  }

  /** What a step leaves alone. */
  predicate SameTurn(s: RunState, t: RunState) {
    t.modelReplies == s.modelReplies && t.requests == s.requests
  }

  lemma {:induction false} AdmissionKeeps(env: Setting, s: RunState, counter: Budgets.Counter)
    requires counter != Budgets.Tokens
    ensures var a := Admitted(env, s, counter);
      a.state == s.(readings := a.state.readings, usage := a.state.usage, exceeded := a.state.exceeded)
  {
    AdmittedExact(env, s, counter);
  }

  /** What one call or more add to a run: all of the given events and messages, or a part from the beginning. */
  predicate Adds(s: RunState, a: Attempt, events: seq<Event>, messages: seq<Message>, calls: nat) {
    && SameTurn(s, a.state)
    && s.trace <= a.state.trace <= s.trace + events
    && s.messages <= a.state.messages <= s.messages + messages
    && (a.stop.None? ==>
          a.state.trace == s.trace + events && a.state.messages == s.messages + messages
          && a.state.toolReplies == s.toolReplies + calls)
  }

  lemma {:induction false} CallAdds(env: Setting, s: RunState, id: string)
    ensures Adds(s, CallMade(env, s, id), CallEvents(id, env.around.tool(s.toolReplies)), [Tool(id)], 1)
  {
    AdmissionKeeps(env, s, Budgets.ToolCalls);
    CallFollows(Admitted(env, s, Budgets.ToolCalls).state.(toolReplies := s.toolReplies + 1), id, env.around.tool(s.toolReplies));
  }

  /** A step and, unless it stopped, the steps behind it. */
  lemma {:induction false} AddsBoth(
    s: RunState, first: Attempt, rest: Attempt, both: Attempt, e: seq<Event>, f: seq<Event>, events: seq<Event>,
    m: seq<Message>, n: seq<Message>, messages: seq<Message>, calls: nat)
    requires calls > 0 && Adds(s, first, e, m, 1) && (first.stop.None? ==> Adds(first.state, rest, f, n, calls - 1))
    requires both == (if first.stop.None? then rest else first) && events == e + f && messages == m + n
    ensures Adds(s, both, events, messages, calls)
  {
    assert s.trace + e + f == s.trace + (e + f) && s.messages + m + n == s.messages + (m + n);
  }

  lemma {:induction false} NoCall(env: Setting, s: RunState)
    ensures Adds(s, CallsMade(env, s, []), CallsEvents(env.around, [], s.toolReplies), ToolMessages([]), 0)
  {
    assert s.trace + [] == s.trace && s.messages + [] == s.messages;
  }

  lemma {:induction false} FirstCall(env: Setting, s: RunState, ids: seq<string>)
    requires ids != []
    ensures var a, k := CallMade(env, s, ids[0]), s.toolReplies;
      && CallsMade(env, s, ids) == (if a.stop.None? then CallsMade(env, a.state, ids[1..]) else a)
      && CallsEvents(env.around, ids, k) == CallEvents(ids[0], env.around.tool(k)) + CallsEvents(env.around, ids[1..], k + 1)
      && ToolMessages(ids) == [Tool(ids[0])] + ToolMessages(ids[1..])
  {
  }

  predicate CallsDone(env: Setting, s: RunState, ids: seq<string>, k: nat) {
    Adds(s, CallsMade(env, s, ids), CallsEvents(env.around, ids, k), ToolMessages(ids), |ids|)
  }

  lemma {:induction false} CallsStep(env: Setting, s: RunState, ids: seq<string>)
    requires ids != []
    requires var a := CallMade(env, s, ids[0]); a.stop.None? ==> CallsDone(env, a.state, ids[1..], s.toolReplies + 1)
    ensures CallsDone(env, s, ids, s.toolReplies)
  {
    var a, k := CallMade(env, s, ids[0]), s.toolReplies;
    FirstCall(env, s, ids);
    CallAdds(env, s, ids[0]);
    AddsBoth(s, a, CallsMade(env, a.state, ids[1..]), CallsMade(env, s, ids),
             CallEvents(ids[0], env.around.tool(k)), CallsEvents(env.around, ids[1..], k + 1), CallsEvents(env.around, ids, k),
             [Tool(ids[0])], ToolMessages(ids[1..]), ToolMessages(ids), |ids|);
  }

  /** The calls of one response: all of them, or some of them and part of the next. */
  lemma {:induction false} CallsFollow(env: Setting, s: RunState, ids: seq<string>)
    ensures CallsDone(env, s, ids, s.toolReplies)
    decreases |ids|
  {
    if ids == [] {
      NoCall(env, s);
    } else {
      var a := CallMade(env, s, ids[0]);
      CallAdds(env, s, ids[0]);
      if a.stop.None? {
        CallsFollow(env, a.state, ids[1..]);
      }
      CallsStep(env, s, ids);
    }
  }

  /** Each request showed the model the conversation of the turns before. */
  predicate Shown(around: Surroundings, requests: seq<seq<Message>>) {
    forall k {:trigger requests[k]} | 0 <= k < |requests| :: requests[k] == Conversation(around, k)
  }

  /** A run at the start of turn `n`: it has recorded and said exactly what the script has for the turns before. */
  predicate OnScript(env: Setting, s: RunState) {
    var n := s.modelReplies;
    && s.trace == Events(env.around, n) && s.messages == Conversation(env.around, n)
    && s.toolReplies == CallsBefore(env.around, n)
    && |s.requests| == n && Shown(env.around, s.requests)
  }

  /** A run that has been cut short, or has finished, within the turn that it was in. */
  predicate CutShort(env: Setting, s: RunState, trace: seq<Event>) {
    var n := s.modelReplies;
    && trace <= Events(env.around, n) && s.messages <= Conversation(env.around, n)
    && |s.requests| <= n && Shown(env.around, s.requests)
  }

  /** A run in the middle of turn `n`, with its response recorded. */
  predicate MidTurn(env: Setting, s: RunState, n: nat) {
    var reply := env.around.model(n);
    && reply.Response? && s.modelReplies == n + 1 && s.toolReplies == CallsBefore(env.around, n)
    && s.trace == Events(env.around, n) + [ModelRequest, ModelResponse(reply.calls)]
    && s.messages == Conversation(env.around, n)
    && |s.requests| == n + 1 && Shown(env.around, s.requests)
  }

  /** A run that has charged turn `n` and, if the sink took it, made its request. */
  predicate OpenTurn(env: Setting, s: RunState, n: nat) {
    var asked := !env.around.model(n).RequestRefused?;
    && s.modelReplies == n + 1 && s.toolReplies == CallsBefore(env.around, n)
    && s.trace == (if asked then Events(env.around, n) + [ModelRequest] else Events(env.around, n))
    && s.messages == Conversation(env.around, n)
    && |s.requests| == (if asked then n + 1 else n) && Shown(env.around, s.requests)
  }

  lemma {:induction false} OpenIsCutShort(env: Setting, s: RunState, n: nat)
    requires OpenTurn(env, s, n)
    ensures CutShort(env, s, s.trace)
  {
    TurnBegins(env.around, n);
    if env.around.model(n).RequestRefused? {
      assert s.trace == Events(env.around, n);
    } else {
      assert s.trace == Events(env.around, n) + [ModelRequest];
    }
    assert s.trace <= Events(env.around, n + 1);
  }

  lemma {:induction false} ReplyEnds(env: Setting, s: RunState, n: nat)
    requires OpenTurn(env, s, n)
    ensures var t := ReplyTaken(env, s, env.around.model(n));
      if t.stop.None? then MidTurn(env, t.state, n) else CutShort(env, t.state, t.state.trace)
  {
    var reply := env.around.model(n);
    ReplyFollows(env, s, reply);
    OpenIsCutShort(env, s, n);
    RequestThenResponse(Events(env.around, n), CallsOf(reply));
  }

  lemma {:induction false} AdmissionOnScript(env: Setting, s: RunState)
    requires OnScript(env, s)
    ensures var a := Admitted(env, s, Budgets.ModelTurns);
      && a.state.modelReplies == s.modelReplies
      && OnScript(env, a.state) && CutShort(env, a.state, a.state.trace)
  {
    AdmissionKeeps(env, s, Budgets.ModelTurns);
  }

  lemma LastOf<T>(a: seq<T>, x: T, k: nat)
    requires k <= |a|
    ensures (a + [x])[k] == if k < |a| then a[k] else x
  {
  }

  lemma {:induction false} OneMoreShown(around: Surroundings, requests: seq<seq<Message>>)
    requires Shown(around, requests)
    ensures Shown(around, requests + [Conversation(around, |requests|)])
  {
    var more := requests + [Conversation(around, |requests|)];
    forall k {:trigger more[k]} | 0 <= k < |more| ensures more[k] == Conversation(around, k) {
      LastOf(requests, Conversation(around, |requests|), k);
    }
  }

  lemma {:induction false} TurnOpens(env: Setting, s: RunState)
    requires OnScript(env, s)
    ensures var n := s.modelReplies;
      var met := s.(modelReplies := n + 1);
      OpenTurn(env, if env.around.model(n).RequestRefused? then met else AskedModel(met), n)
  {
    OneMoreShown(env.around, s.requests);
  }

  /** The request and the response of a turn. */
  lemma {:induction false} TurnFollows(env: Setting, s: RunState)
    requires OnScript(env, s)
    ensures var t := TurnTaken(env, s);
      if t.stop.None? then MidTurn(env, t.state, s.modelReplies) else CutShort(env, t.state, t.state.trace)
  {
    var n, reply := s.modelReplies, env.around.model(s.modelReplies);
    var a := Admitted(env, s, Budgets.ModelTurns);
    TurnIsTaken(env, s);
    AdmissionOnScript(env, s);
    if a.stop.None? {
      TurnOpens(env, a.state);
      var met := a.state.(modelReplies := n + 1);
      ReplyEnds(env, if reply.RequestRefused? then met else AskedModel(met), n);
    }
  }

  lemma RequestThenResponse(trace: seq<Event>, calls: seq<string>)
    ensures trace + [ModelRequest] + [ModelResponse(calls)] == trace + [ModelRequest, ModelResponse(calls)]
  {
  }

  /** A turn of the script begins with its request, if the sink took it, and with its response, if there was one. */
  lemma {:induction false} TurnBegins(around: Surroundings, n: nat)
    ensures Events(around, n) <= Events(around, n + 1) && Conversation(around, n) <= Conversation(around, n + 1)
    ensures !around.model(n).RequestRefused? ==> Events(around, n) + [ModelRequest] <= Events(around, n + 1)
    ensures around.model(n).Response? ==>
      Events(around, n) + [ModelRequest, ModelResponse(around.model(n).calls)] <= Events(around, n + 1)
  {
    var turn := TurnEvents(around, n);
    assert Events(around, n + 1) == Events(around, n) + turn;
    if !around.model(n).RequestRefused? {
      assert [ModelRequest] <= turn;
      Longer(Events(around, n), [ModelRequest], turn);
    }
  }

  lemma {:induction false} ReplyFollows(env: Setting, s: RunState, reply: ModelReply)
    ensures var t := ReplyTaken(env, s, reply);
      && t.state.trace == (if t.stop.None? then s.trace + [ModelResponse(CallsOf(reply))] else s.trace)
      && t.state == s.(trace := t.state.trace, readings := t.state.readings, usage := t.state.usage, exceeded := t.state.exceeded)
      && (t.stop.None? ==> reply.Response?)
  {
  }

  /** A run that has ended: cut short somewhere, or with all of the script. */
  predicate Follows(env: Setting, a: Attempt) {
    && a.state.trace != [] && CutShort(env, a.state, a.state.trace[..|a.state.trace| - 1])
    && (a.stop == Some(Finished) ==>
          && a.state.trace == Events(env.around, a.state.modelReplies) + [AgentCompleted]
          && a.state.messages == Conversation(env.around, a.state.modelReplies)
          && |a.state.requests| == a.state.modelReplies)
  }

  lemma {:induction false} TurnEnds(around: Surroundings, n: nat)
    requires around.model(n).Response?
    ensures var calls := around.model(n).calls;
      && Events(around, n + 1)
         == Events(around, n) + [ModelRequest, ModelResponse(calls)] + CallsEvents(around, calls, CallsBefore(around, n))
      && Conversation(around, n + 1)
         == (if calls == [] then Conversation(around, n) else Conversation(around, n) + [Assistant(calls)] + ToolMessages(calls))
  {
    var calls := around.model(n).calls;
    Regroup(Events(around, n), [ModelRequest, ModelResponse(calls)], CallsEvents(around, calls, CallsBefore(around, n)));
    Regroup(Conversation(around, n), [Assistant(calls)], ToolMessages(calls));
    Nothing(Conversation(around, n));
  }

  lemma Nothing<T>(a: seq<T>)
    ensures a + [] == a
  {
  }

  lemma {:induction false} ToolsFollow(env: Setting, s: RunState, n: nat)
    requires MidTurn(env, s, n) && env.around.model(n).calls != []
    ensures var c := ToolsUsed(env, s, env.around.model(n));
      if c.stop.None? then OnScript(env, c.state) else CutShort(env, c.state, c.state.trace)
  {
    var reply := env.around.model(n);
    TurnEnds(env.around, n);
    if reply.sayable {
      var said := s.Say(Assistant(reply.calls));
      CallsFollow(env, said, reply.calls);
      var c := CallsMade(env, said, reply.calls);
      assert said.trace + CallsEvents(env.around, reply.calls, said.toolReplies) == Events(env.around, n + 1);
      assert said.messages + ToolMessages(reply.calls) == Conversation(env.around, n + 1);
      assert CallsBefore(env.around, n + 1) == CallsBefore(env.around, n) + |reply.calls|;
    }
  }

  lemma {:induction false} ErredFollows(env: Setting, a: Attempt)
    requires a.stop.Some? && !a.stop.value.Finished? && CutShort(env, a.state, a.state.trace)
    ensures Follows(env, Erred(a))
  {
    var trace := Erred(a).state.trace;
    assert trace[..|trace| - 1] == a.state.trace;
  }

  lemma {:induction false} CompletedFollows(env: Setting, s: RunState, n: nat)
    requires MidTurn(env, s, n) && env.around.model(n).calls == []
    ensures Follows(env, Attempt(s.Emit(AgentCompleted), Some(Finished)))
  {
    TurnEnds(env.around, n);
    var trace := s.Emit(AgentCompleted).trace;
    assert CallsEvents(env.around, [], s.toolReplies) == [] && s.trace + [] == s.trace;
    assert trace[..|trace| - 1] == s.trace;
  }

  /** One iteration: to the start of the next turn, or to the end of the run. */
  lemma {:induction false} IterationFollows(env: Setting, s: RunState)
    requires OnScript(env, s)
    ensures var a := Iterated(env, s); if a.stop.None? then OnScript(env, a.state) else Follows(env, a)
  {
    var t, n := TurnTaken(env, s), s.modelReplies;
    TurnFollows(env, s);
    if t.stop.Some? {
      TurnStopsEarly(env, s);
      ErredFollows(env, t);
    } else {
      MidTurnFollows(env, t.state, n);
    }
  }

  /** The second half of an iteration. */
  function Rest(env: Setting, s: RunState, reply: ModelReply): Attempt
    requires reply.Response?
  {
    if reply.calls == [] then Attempt(s.Emit(AgentCompleted), Some(Finished))
    else
      var c := ToolsUsed(env, s, reply);
      if c.stop.Some? then Erred(c) else c
  }

  lemma {:induction false} MidTurnFollows(env: Setting, s: RunState, n: nat)
    requires MidTurn(env, s, n)
    ensures var a := Rest(env, s, env.around.model(n)); if a.stop.None? then OnScript(env, a.state) else Follows(env, a)
  {
    var reply := env.around.model(n);
    if reply.calls == [] {
      CompletedFollows(env, s, n);
    } else {
      ToolsFollow(env, s, n);
      var c := ToolsUsed(env, s, reply);
      if c.stop.Some? {
        ToolsStopEarly(env, s, reply);
        ErredFollows(env, c);
      }
    }
  }

  lemma {:induction false} TurnStopsEarly(env: Setting, s: RunState)
    ensures TurnTaken(env, s).stop != Some(Finished)
  {
    AdmittedExact(env, s, Budgets.ModelTurns);
  }

  lemma {:induction false} ToolsStopEarly(env: Setting, s: RunState, reply: ModelReply)
    requires reply.Response?
    ensures ToolsUsed(env, s, reply).stop != Some(Finished)
  {
    if reply.sayable {
      CallsStopEarly(env, s.Say(Assistant(reply.calls)), reply.calls);
    }
  }

  lemma {:induction false} CallsStopEarly(env: Setting, s: RunState, ids: seq<string>)
    ensures CallsMade(env, s, ids).stop != Some(Finished)
    decreases |ids|
  {
    if ids != [] {
      AdmittedExact(env, s, Budgets.ToolCalls);
      CallsStopEarly(env, CallMade(env, s, ids[0]).state, ids[1..]);
    }
  }

  lemma {:induction false} LoopFollows(env: Setting, s: RunState)
    requires OnScript(env, s)
    ensures Follows(env, Looped(env, s))
    decreases env.budget.maxModelTurns - s.usage.modelTurns
  {
    IterationFollows(env, s);
    var a := Iterated(env, s);
    if a.stop.None? {
      LoopFollows(env, a.state);
    }
  }

  /**
   * Every run is the script of its replies, cut short at most. Whatever the budget, the clock and
   * the failures: before its closing event it has recorded a part of the script from the
   * beginning, and said one; every request showed the model exactly the conversation of the turns
   * before; and a run that finishes has recorded and said all of it.
   */
  lemma {:induction false} RunFollowsScript(env: Setting, usage: Budgets.Usage, exceeded: Option<Budgets.BudgetError>)
    ensures var run := RunOf(env, usage, exceeded);
      var s, n := run.state, run.state.modelReplies;
      && s.trace != [] && s.trace[..|s.trace| - 1] <= Events(env.around, n)
      && s.messages <= Conversation(env.around, n)
      && |s.requests| <= n && (forall k | 0 <= k < |s.requests| :: s.requests[k] == Conversation(env.around, k))
      && (run.stop == Some(Finished) ==>
            s.trace == Events(env.around, n) + [AgentCompleted] && s.messages == Conversation(env.around, n) && |s.requests| == n)
  {
    var started := Started(Fresh(usage, exceeded));
    assert started.messages == [System, User] && started.trace == [AgentStarted];
    LoopFollows(env, started);
  }
}
