/**
 * The grammar of an agent's trajectory and of its conversation, as automata over events and
 * messages, and what a run that follows them looks like from outside.
 */
module Trajectory {
  import opened Options
  import opened Statuses

  datatype Event =
    | AgentStarted
    | ModelRequest
    | ModelResponse(ids: seq<string>)
    | ToolCalled(id: string)
    | WorldEvent
    | ToolReturned(id: string, error: bool)
    | ToolErred(id: string)
    | AgentCompleted
    | AgentErred(status: RunStatus)

  /** Where a run stands; `todo` are the tool calls of the last response that are still to be made. */
  datatype Phase =
    | Begin
    | Ready
    | Asked
    | Answered(todo: seq<string>)
    | Calling(id: string, todo: seq<string>)
    | Erring(id: string, todo: seq<string>)
    | Finishing
    | Done(open: bool) // whether the run ended with a call unanswered
    | Broken

  function Resume(todo: seq<string>): Phase {
    if todo == [] then Ready else Answered(todo)
  }

  function Next(p: Phase, e: Event): Phase {
    match (p, e)
    case (Begin, AgentStarted) => Ready
    case (Ready, ModelRequest) => Asked
    case (Ready, AgentErred(_)) => Done(false)
    case (Asked, ModelResponse(ids)) => if ids == [] then Finishing else Answered(ids)
    case (Asked, AgentErred(_)) => Done(false)
    case (Answered(todo), ToolCalled(id)) => if todo != [] && todo[0] == id then Calling(id, todo[1..]) else Broken
    case (Answered(_), AgentErred(_)) => Done(false)
    case (Calling(id, todo), WorldEvent) => p
    case (Calling(id, todo), ToolReturned(i, error)) =>
      if i != id then Broken else if error then Erring(id, todo) else Resume(todo)
    case (Calling(_, _), AgentErred(_)) => Done(true)
    case (Erring(id, todo), ToolErred(i)) => if i == id then Resume(todo) else Broken
    case (Finishing, AgentCompleted) => Done(false)
    case (_, _) => Broken
  }

  function PhaseAfter(trace: seq<Event>): Phase {
    if trace == [] then Begin else Next(PhaseAfter(trace[..|trace| - 1]), trace[|trace| - 1])
  }

  function Count(trace: seq<Event>, p: Event -> bool): nat {
    if trace == [] then 0 else Count(trace[..|trace| - 1], p) + if p(trace[|trace| - 1]) then 1 else 0
  }

  function IsRequest(): Event -> bool {
    (e: Event) => e.ModelRequest?
  }

  function IsCall(): Event -> bool {
    (e: Event) => e.ToolCalled?
  }

  function IsReturn(): Event -> bool {
    (e: Event) => e.ToolReturned?
  }

  function IsToolError(): Event -> bool {
    (e: Event) => e.ToolErred?
  }

  /** What is known of a trace while it grows. */
  datatype Summary = Summary(phase: Phase, requests: nat, calls: nat, answers: nat, errors: nat)

  function Seen(s: Summary, e: Event): Summary {
    Summary(Next(s.phase, e),
            s.requests + (if e.ModelRequest? then 1 else 0),
            s.calls + (if e.ToolCalled? then 1 else 0),
            s.answers + (if e.ToolReturned? then 1 else 0),
            s.errors + (if e.ToolErred? then 1 else 0))
  }

  function Summarize(trace: seq<Event>): Summary {
    Summary(PhaseAfter(trace), Count(trace, IsRequest()), Count(trace, IsCall()), Count(trace, IsReturn()),
            Count(trace, IsToolError()))
  }

  predicate Terminal(e: Event) {
    e.AgentCompleted? || e.AgentErred?
  }

  lemma Emitted(trace: seq<Event>, e: Event)
    ensures Summarize(trace + [e]) == Seen(Summarize(trace), e)
  {
    assert (trace + [e])[..|trace|] == trace;
  }

  lemma {:induction false} PrefixNotBroken(trace: seq<Event>, n: nat)
    requires PhaseAfter(trace) != Broken && n <= |trace|
    ensures PhaseAfter(trace[..n]) != Broken
    ensures n < |trace| ==> !PhaseAfter(trace[..n]).Done?
    ensures n < |trace| ==> PhaseAfter(trace[..n + 1]) == Next(PhaseAfter(trace[..n]), trace[n])
    decreases |trace|
  {
    assert trace[..|trace|] == trace;
    if n < |trace| {
      var shorter := trace[..|trace| - 1];
      assert trace[..n] == shorter[..n];
      PrefixNotBroken(shorter, n);
      if n == |trace| - 1 {
        assert trace[..n + 1] == trace && shorter == trace[..n];
      } else {
        assert trace[..n + 1] == shorter[..n + 1] && trace[n] == shorter[n];
      }
    }
  }

  lemma TerminalMeansDone(p: Phase, e: Event)
    requires Next(p, e) != Broken
    ensures Terminal(e) <==> Next(p, e).Done?
    ensures e.AgentStarted? <==> p == Begin
  {
  }

  lemma NeverBeginAgain(p: Phase, e: Event)
    ensures Next(p, e) != Begin
  {
  }

  /** A complete run ends with a terminal event, and no other event of it is terminal; it starts once, at its start. */
  lemma ExactlyOneTerminal(trace: seq<Event>, k: nat)
    requires PhaseAfter(trace).Done? && k < |trace|
    ensures Terminal(trace[k]) <==> k == |trace| - 1
    ensures trace[k].AgentStarted? <==> k == 0
  {
    PrefixNotBroken(trace, k);
    PrefixNotBroken(trace, k + 1);
    assert trace[..|trace|] == trace;
    TerminalMeansDone(PhaseAfter(trace[..k]), trace[k]);
    if k > 0 {
      PrefixNotBroken(trace, k - 1);
      NeverBeginAgain(PhaseAfter(trace[..k - 1]), trace[k - 1]);
    }
  }

  /** After a call, only world events can come before its result. */
  lemma {:induction false} StillCalling(trace: seq<Event>, i: nat, n: nat)
    requires PhaseAfter(trace) != Broken && i < n <= |trace| && trace[i].ToolCalled?
    requires forall k | i < k < n :: trace[k].WorldEvent?
    ensures PhaseAfter(trace[..n]).Calling? && PhaseAfter(trace[..n]).id == trace[i].id
    decreases n
  {
    PrefixNotBroken(trace, n);
    PrefixNotBroken(trace, n - 1);
    if n > i + 1 {
      StillCalling(trace, i, n - 1);
    }
  }

  /** After a call, world events lead to its result, or the run ends with the call open. */
  lemma {:induction false} CallIsSettled(trace: seq<Event>, i: nat, n: nat) returns (j: nat)
    requires PhaseAfter(trace).Done? && i < n <= |trace| && trace[i].ToolCalled?
    requires forall k | i < k < n :: trace[k].WorldEvent?
    ensures i < j < |trace| && forall k | i < k < j :: trace[k].WorldEvent?
    ensures || (trace[j].ToolReturned? && trace[j].id == trace[i].id)
            || (trace[j].AgentErred? && j == |trace| - 1 && PhaseAfter(trace) == Done(true))
    decreases |trace| - n
  {
    StillCalling(trace, i, n);
    assert trace[..|trace|] == trace;
    PrefixNotBroken(trace, n);
    if n + 1 <= |trace| {
      PrefixNotBroken(trace, n + 1);
    }
    if trace[n].WorldEvent? {
      j := CallIsSettled(trace, i, n + 1);
    } else {
      j := n;
    }
  }

  /** While a call is open, nothing but world events has happened since that call. */
  lemma {:induction false} OpenCall(trace: seq<Event>, n: nat) returns (c: nat)
    requires PhaseAfter(trace) != Broken && n <= |trace| && PhaseAfter(trace[..n]).Calling?
    ensures c < n && trace[c].ToolCalled? && forall k | c < k < n :: trace[k].WorldEvent?
  {
    PrefixNotBroken(trace, n - 1);
    if trace[n - 1].ToolCalled? {
      c := n - 1;
    } else {
      c := OpenCall(trace, n - 1);
    }
  }

  /** No call comes after call `i`. */
  predicate IsLastCall(trace: seq<Event>, i: nat) {
    i < |trace| && trace[i].ToolCalled? && forall k | i < k < |trace| :: !trace[k].ToolCalled?
  }

  lemma {:induction false} BeforeOpenEnd(trace: seq<Event>)
    requires PhaseAfter(trace) == Done(true)
    ensures trace != [] && PhaseAfter(trace[..|trace| - 1]).Calling? && !trace[|trace| - 1].ToolReturned?
  {
  }

  lemma {:induction false} OpenEndIsUnanswered(trace: seq<Event>, i: nat, j: nat)
    requires PhaseAfter(trace) == Done(true) && IsLastCall(trace, i) && i < j < |trace|
    ensures !trace[j].ToolReturned?
  {
    BeforeOpenEnd(trace);
    var c := OpenCall(trace, |trace| - 1);
    assert c <= i;
  }

  /**
   * Every tool call of a complete run is answered by exactly one result with its id, and nothing
   * but world events lies between the two: in particular the result comes before the next call.
   * The one exception is the last call of a run that ended with a call open.
   */
  lemma {:induction false} CallIsAnswered(trace: seq<Event>, i: nat) returns (j: nat)
    requires PhaseAfter(trace).Done? && i < |trace| && trace[i].ToolCalled?
    ensures i < j < |trace| && forall k | i < k < j :: trace[k].WorldEvent?
    ensures if PhaseAfter(trace) == Done(true) && IsLastCall(trace, i) then trace[j].AgentErred? && j == |trace| - 1
            else trace[j].ToolReturned? && trace[j].id == trace[i].id
  {
    j := CallIsSettled(trace, i, i + 1);
    if PhaseAfter(trace) == Done(true) && IsLastCall(trace, i) {
      OpenEndIsUnanswered(trace, i, j);
    } else if trace[j].AgentErred? {
      assert IsLastCall(trace, i);
    }
  }

  /** A call is open. */
  predicate IsOpen(p: Phase) {
    p.Calling? || p == Done(true)
  }

  /** Results match calls one for one, but for a call that is open. */
  lemma {:induction false} CallsMatchReturns(trace: seq<Event>)
    requires PhaseAfter(trace) != Broken
    ensures Count(trace, IsCall()) == Count(trace, IsReturn()) + if IsOpen(PhaseAfter(trace)) then 1 else 0
  {
    if trace != [] {
      CallsMatchReturns(trace[..|trace| - 1]);
    }
  }

  // ---- The conversation ----

  datatype Message = System | User | Assistant(ids: seq<string>) | Tool(id: string)

  /** What is owed once `m` is said: nothing but the next owed tool message may come before all are paid. */
  function OwedAfter(owed: Option<seq<string>>, m: Message): Option<seq<string>> {
    if owed.None? then None
    else match m
      case System => if owed.value == [] then owed else None
      case User => if owed.value == [] then owed else None
      case Assistant(ids) => if owed.value == [] then Some(ids) else None
      case Tool(id) => if owed.value != [] && owed.value[0] == id then Some(owed.value[1..]) else None
  }

  /** The tool messages the conversation still owes, or nothing when it is malformed. */
  function Owed(messages: seq<Message>): Option<seq<string>> {
    if messages == [] then Some([])
    else OwedAfter(Owed(messages[..|messages| - 1]), messages[|messages| - 1])
  }

  lemma Said(messages: seq<Message>, m: Message)
    ensures Owed(messages + [m]) == OwedAfter(Owed(messages), m)
  {
    assert (messages + [m])[..|messages|] == messages;
  }

  lemma {:induction false} OwedPrefix(messages: seq<Message>, n: nat)
    requires Owed(messages).Some? && n <= |messages|
    ensures Owed(messages[..n]).Some?
    decreases |messages|
  {
    assert messages[..|messages|] == messages;
    if n < |messages| {
      assert messages[..|messages| - 1][..n] == messages[..n];
      OwedPrefix(messages[..|messages| - 1], n);
    }
  }

  lemma {:induction false} OwedNext(messages: seq<Message>, n: nat)
    requires Owed(messages).Some? && n < |messages|
    ensures Owed(messages[..n]).Some? && Owed(messages[..n + 1]).Some?
    ensures match messages[n]
      case Assistant(ids) => Owed(messages[..n]).value == [] && Owed(messages[..n + 1]).value == ids
      case Tool(id) => Owed(messages[..n]).value == [id] + Owed(messages[..n + 1]).value
      case _ => Owed(messages[..n]).value == [] && Owed(messages[..n + 1]).value == []
  {
    OwedPrefix(messages, n);
    OwedPrefix(messages, n + 1);
    assert messages[..n + 1][..n] == messages[..n];
  }

  lemma SliceNext<T>(xs: seq<T>, a: nat, b: nat)
    requires a <= b < |xs|
    ensures xs[a..b + 1] == xs[a..b] + [xs[b]]
  {
  }

  /** While a tool message is owed, the next message is that one. */
  lemma OwedStep(messages: seq<Message>, n: nat, id: string, rest: seq<string>)
    requires Owed(messages) == Some([]) && n <= |messages| && Owed(messages[..n]) == Some([id] + rest)
    ensures n < |messages| && messages[n] == Tool(id) && Owed(messages[..n + 1]) == Some(rest)
  {
    assert messages[..|messages|] == messages;
    OwedNext(messages, n);
    assert ([id] + rest)[1..] == rest;
    assert messages[..n + 1][..n] == messages[..n];
  }

  /** What is owed after an assistant message shrinks by one tool message at a time. */
  lemma {:induction false} OwedWithin(messages: seq<Message>, i: nat, ids: seq<string>, k: nat)
    requires Owed(messages) == Some([]) && i < |messages| && messages[i] == Assistant(ids) && k <= |ids|
    ensures i + 1 + k <= |messages| && Owed(messages[..i + 1 + k]) == Some(ids[k..])
    ensures messages[i + 1..i + 1 + k] == ToolMessages(ids[..k])
  {
    if k == 0 {
      OwedNext(messages, i);
    } else {
      OwedWithin(messages, i, ids, k - 1);
      assert ids[k - 1..] == [ids[k - 1]] + ids[k..];
      OwedStep(messages, i + k, ids[k - 1], ids[k..]);
      SliceNext(messages, i + 1, i + k);
      SliceNext(ids, 0, k - 1);
      assert ToolMessages(ids[..k - 1] + [ids[k - 1]]) == ToolMessages(ids[..k - 1]) + [Tool(ids[k - 1])];
    }
  }

  function ToolMessages(ids: seq<string>): (messages: seq<Message>)
    ensures |messages| == |ids| && forall m | 0 <= m < |ids| :: messages[m] == Tool(ids[m])
  {
    seq(|ids|, m requires 0 <= m < |ids| => Tool(ids[m]))
  }

  /** Right behind the assistant message `i` stand the tool messages for its calls, in order, and no more of them. */
  predicate PairedAt(messages: seq<Message>, i: nat)
    requires i < |messages| && messages[i].Assistant?
  {
    var ids := messages[i].ids;
    && i + 1 + |ids| <= |messages|
    && messages[i + 1..i + 1 + |ids|] == ToolMessages(ids)
    && (i + 1 + |ids| < |messages| ==> !messages[i + 1 + |ids|].Tool?)
  }

  /**
   * In a conversation that owes nothing, every assistant message with k tool calls is followed by
   * exactly k tool messages, which carry the same ids in the same order.
   */
  lemma {:induction false} MessagesPaired(messages: seq<Message>, i: nat)
    requires Owed(messages) == Some([]) && i < |messages| && messages[i].Assistant?
    ensures PairedAt(messages, i)
  {
    PaidAfter(messages, i);
    NoToolWhenPaid(messages, i + 1 + |messages[i].ids|);
  }

  lemma {:induction false} PaidAfter(messages: seq<Message>, i: nat)
    requires Owed(messages) == Some([]) && i < |messages| && messages[i].Assistant?
    ensures var ids := messages[i].ids;
      var next := i + 1 + |ids|;
      next <= |messages| && messages[i + 1..next] == ToolMessages(ids) && Owed(messages[..next]) == Some([])
  {
    var ids := messages[i].ids;
    OwedWithin(messages, i, ids, |ids|);
    assert ids[..|ids|] == ids && ids[|ids|..] == [];
  }

  /** Where nothing is owed, no tool message can come next. */
  lemma NoToolWhenPaid(messages: seq<Message>, n: nat)
    requires Owed(messages).Some? && n <= |messages| && Owed(messages[..n]) == Some([])
    ensures n < |messages| ==> !messages[n].Tool?
  {
    if n < |messages| {
      OwedNext(messages, n);
    }
  }
}
