/**
 * The runner's side of a task: the tool executor, and the one-shot hook that injects a human edit
 * after the agent first gets the page.
 */
module Harness {
  import opened Options
  import opened Values
  import opened Store
  import opened Permissions
  import opened Protocol
  import opened Listing
  import opened Routes

  /** The five baseline tools. Any other name is unknown to the executor. */
  datatype ToolCall =
    | SearchTool(query: Option<string>, limit: int, offset: int)
    | GetPageTool(id: string)
    | UpdatePageTool(id: string, version: int, body: Option<string>, title: Option<string>)
    | CreatePageTool(page: NewPage)
    | VersionsTool(id: string)
    | UnknownTool(name: string)

  datatype Payload =
    | PagePayload(page: Page)
    | ListPayload(items: seq<Page>, total: nat)
    | HistoryPayload(history: seq<Page>)
    | ErrorPayload

  datatype ToolResult = ToolResult(payload: Payload, error: bool)

  /** The human edit a task asks for: present when page id, body and actor in its metadata are all text. */
  datatype Hook = Hook(pageId: string, body: string)

  /** Failures outside the model's control: the world, or its control channel, does not answer this call. */
  datatype Weather = Weather(worldDown: bool, controlDown: bool)

  /** The executor between two calls. */
  datatype Session = Session(world: World, fired: bool, infrastructureError: bool)

  /** One call: the session after it, what the agent gets, and whether the human edit was attempted. */
  datatype Executed = Executed(session: Session, result: ToolResult, attempted: bool)

  const ERROR_RESULT: ToolResult := ToolResult(ErrorPayload, true)

  datatype Answer = Answer(world: World, result: ToolResult)

  function FromResponse(r: Reply): Answer {
    Answer(r.world, if r.response.Failed? then ERROR_RESULT else ToolResult(PagePayload(r.response.page), false))
  }

  /** A search without a query is a search for the empty text. */
  function SearchText(query: Option<string>): string {
    Or(query, "")
  }

  function FromList(r: ListResponse): ToolResult {
    if r.ListFailed? then ERROR_RESULT else ToolResult(ListPayload(r.items, r.total), false)
  }

  /** A tool function: one request to the world, raising when the answer is not a success. */
  function CallTool(w: World, fold: Folding, actor: Actor, call: ToolCall): Answer {
    match call
    case SearchTool(query, limit, offset) =>
      Answer(w, FromList(ListPages(w, fold, actor, Some(SearchText(query)), limit, offset)))
    case GetPageTool(id) => FromResponse(Reply(w, GetPage(w, fold, actor, id)))
    case UpdatePageTool(id, version, body, title) =>
      FromResponse(PutPage(w, fold, actor, id, Version(version), title, body))
    case CreatePageTool(page) => FromResponse(CreatePage(w, fold, actor, page))
    case VersionsTool(id) =>
      if GetPage(w, fold, actor, id).Failed? then Answer(w, ERROR_RESULT)
      else Answer(w, ToolResult(HistoryPayload(HistoryOf(w, id)), false))
    case UnknownTool(_) => Answer(w, ERROR_RESULT)
  }

  predicate Triggers(fired: bool, hook: Option<Hook>, call: ToolCall, result: ToolResult) {
    !fired && call.GetPageTool? && !result.error && hook.Some? && call.id == hook.value.pageId
  }

  /** `execute`: the tool, then the hook when the tool succeeded; a failing hook becomes an error result. */
  function Execute(s: Session, fold: Folding, actor: Actor, hook: Option<Hook>, call: ToolCall, weather: Weather): Executed {
    if call.UnknownTool? || weather.worldDown then Executed(s, ERROR_RESULT, false)
    else
      var answer := CallTool(s.world, fold, actor, call);
      if !Triggers(s.fired, hook, call, answer.result) then
        Executed(s.(world := answer.world), answer.result, false)
      else
        var edit := HumanEdit(answer.world, hook.value.pageId, hook.value.body);
        if weather.controlDown then
          Executed(s.(world := answer.world, fired := true, infrastructureError := true), ERROR_RESULT, true)
        else if edit.response.Failed? then
          Executed(s.(world := edit.world, fired := true, infrastructureError := true), ERROR_RESULT, true)
        else
          Executed(s.(world := edit.world, fired := true), answer.result, true)
  }

  /** The executor in place, with the process environment it sets for each call and restores after it. */
  class ToolExecutor {
    const store: ConfluenceStore
    const api: Api
    const actor: Actor
    const hook: Option<Hook>
    const worldUrl: string
    var fired: bool
    var infrastructureError: bool
    var environment: map<string, string>

    ghost predicate Valid()
      reads this
    {
      api.store == store
    }

    function State(): Session
      reads this, store
    {
      Session(store.State(), fired, infrastructureError)
    }

    constructor (store: ConfluenceStore, api: Api, actor: Actor, hook: Option<Hook>, worldUrl: string,
                 environment: map<string, string>)
      requires api.store == store
      ensures Valid() && this.store == store && this.api == api && this.actor == actor && this.hook == hook
      ensures !fired && !infrastructureError && this.environment == environment
    {
      this.store, this.api, this.actor, this.hook := store, api, actor, hook;
      this.worldUrl, this.environment := worldUrl, environment;
      fired, infrastructureError := false, false;
    }

    method Call(call: ToolCall) returns (result: ToolResult)
      requires Valid()
      modifies store
      ensures var expected := CallTool(old(store.State()), api.fold, actor, call);
        store.State() == expected.world && result == expected.result
    {
      match call {
        case SearchTool(query, limit, offset) =>
          var response := api.List(actor, Some(SearchText(query)), limit, offset);
          result := FromList(response);
        case GetPageTool(id) =>
          var response := GetPage(store.State(), api.fold, actor, id);
          result := FromResponse(Reply(store.State(), response)).result;
        case UpdatePageTool(id, version, body, title) =>
          var response := api.Put(actor, id, Version(version), title, body);
          result := FromResponse(Reply(store.State(), response)).result;
        case CreatePageTool(page) =>
          var response := api.Create(actor, page);
          result := FromResponse(Reply(store.State(), response)).result;
        case VersionsTool(id) =>
          if GetPage(store.State(), api.fold, actor, id).Failed? {
            result := ERROR_RESULT;
          } else {
            var history := store.GetPageVersions(id);
            result := ToolResult(HistoryPayload(history), false);
          }
        case UnknownTool(_) =>
          result := ERROR_RESULT;
      }
    }

    /** The hook: attempts the human edit at most once, and says whether it attempted and failed. */
    method AfterSuccess(call: ToolCall, result: ToolResult, weather: Weather) returns (attempted: bool, failed: bool)
      requires Valid()
      modifies this`fired, store
      ensures attempted == Triggers(old(fired), hook, call, result)
      ensures !attempted ==> !failed && fired == old(fired) && store.State() == old(store.State())
      ensures attempted ==> fired
      ensures attempted && weather.controlDown ==> failed && store.State() == old(store.State())
      ensures attempted && !weather.controlDown ==>
        var edit := HumanEdit(old(store.State()), hook.value.pageId, hook.value.body);
        store.State() == edit.world && failed == edit.response.Failed?
    {
      if fired || !call.GetPageTool? || result.error || hook.None? || call.id != hook.value.pageId {
        return false, false;
      }
      fired := true;
      if weather.controlDown {
        return true, true;
      }
      var response := api.ApplyHumanEdit(hook.value.pageId, hook.value.body);
      return true, response.Failed?;
    }

    /** The tool and, when it succeeded, the hook; a hook that raises is recorded and becomes the result. */
    method CallThenHook(call: ToolCall, weather: Weather) returns (result: ToolResult, attempted: bool)
      requires Valid() && !call.UnknownTool? && !weather.worldDown
      modifies this`fired, this`infrastructureError, store
      ensures Executed(State(), result, attempted) == Execute(old(State()), api.fold, actor, hook, call, weather)
    {
      result := Call(call);
      attempted := false;
      if !result.error {
        var failed;
        attempted, failed := AfterSuccess(call, result, weather);
        if failed {
          infrastructureError := true;
          result := ERROR_RESULT;
        }
      }
    }

    method Run(call: ToolCall, weather: Weather) returns (result: ToolResult, attempted: bool)
      requires Valid()
      modifies this, store
      ensures Executed(State(), result, attempted) == Execute(old(State()), api.fold, actor, hook, call, weather)
      ensures environment == old(environment)
    {
      if call.UnknownTool? {
        return ERROR_RESULT, false;
      }
      var oldWorld, oldActor := Get(environment, "WORLD_API_URL"), Get(environment, "ACTOR_ID");
      environment := environment["WORLD_API_URL" := worldUrl];
      environment := environment["ACTOR_ID" := actor.userId];
      ghost var busy := environment;
      if weather.worldDown {
        result, attempted := ERROR_RESULT, false;
      } else {
        result, attempted := CallThenHook(call, weather);
      }
      assert environment == busy;
      RestoreEnvironment("WORLD_API_URL", oldWorld);
      RestoreEnvironment("ACTOR_ID", oldActor);
      RestoredIsOld(old(environment), worldUrl, actor.userId);
    }

    method RestoreEnvironment(name: string, value: Option<string>)
      modifies this`environment
      ensures environment == Restored(old(environment), name, value)
    {
      if value.None? {
        environment := environment - {name};
      } else {
        environment := environment[name := value.value];
      }
    }
  }

  function Restored(environment: map<string, string>, name: string, value: Option<string>): map<string, string> {
    if value.None? then environment - {name} else environment[name := value.value]
  }

  /** Setting the two variables and restoring them one after the other gives the environment back. */
  lemma RestoredIsOld(environment: map<string, string>, url: string, user: string)
    ensures Restored(
        Restored(environment["WORLD_API_URL" := url]["ACTOR_ID" := user], "WORLD_API_URL", Get(environment, "WORLD_API_URL")),
        "ACTOR_ID", Get(environment, "ACTOR_ID")) == environment
  {
    assert "WORLD_API_URL" != "ACTOR_ID";
  }

  // ---- The hook over every sequence of calls ----

  datatype Issued = Issued(call: ToolCall, weather: Weather)

  /** The session before call `k`; at `k == |calls|`, the session at the end. */
  function SessionAt(s: Session, fold: Folding, actor: Actor, hook: Option<Hook>, calls: seq<Issued>, k: nat): Session
    requires k <= |calls|
    decreases k, 0
  {
    if k == 0 then s else ExecutedAt(s, fold, actor, hook, calls, k - 1).session
  }

  function ExecutedAt(s: Session, fold: Folding, actor: Actor, hook: Option<Hook>, calls: seq<Issued>, k: nat): Executed
    requires k < |calls|
    decreases k, 1
  {
    Execute(SessionAt(s, fold, actor, hook, calls, k), fold, actor, hook, calls[k].call, calls[k].weather)
  }

  /** One call reads the target successfully: the tool itself, before any hook. */
  predicate ReadsTarget(s: Session, fold: Folding, actor: Actor, hook: Option<Hook>, issued: Issued) {
    && hook.Some? && issued.call == GetPageTool(hook.value.pageId) && !issued.weather.worldDown
    && !CallTool(s.world, fold, actor, issued.call).result.error
  }

  predicate ReadsTargetAt(s: Session, fold: Folding, actor: Actor, hook: Option<Hook>, calls: seq<Issued>, k: nat)
    requires k < |calls|
  {
    ReadsTarget(SessionAt(s, fold, actor, hook, calls, k), fold, actor, hook, calls[k])
  }

  lemma AttemptExact(s: Session, fold: Folding, actor: Actor, hook: Option<Hook>, issued: Issued)
    ensures var e := Execute(s, fold, actor, hook, issued.call, issued.weather);
      && (e.attempted <==> !s.fired && ReadsTarget(s, fold, actor, hook, issued))
      && (e.session.fired <==> s.fired || e.attempted)
      && (e.session.infrastructureError ==> s.infrastructureError || (e.attempted && e.result == ERROR_RESULT))
      && (s.infrastructureError ==> e.session.infrastructureError)
  {
  }

  lemma FiredNext(s: Session, fold: Folding, actor: Actor, hook: Option<Hook>, calls: seq<Issued>, k: nat)
    requires k < |calls|
    ensures SessionAt(s, fold, actor, hook, calls, k + 1).fired
      <==> SessionAt(s, fold, actor, hook, calls, k).fired || ReadsTargetAt(s, fold, actor, hook, calls, k)
  {
    AttemptExact(SessionAt(s, fold, actor, hook, calls, k), fold, actor, hook, calls[k]);
  }

  /** A flag that is only ever set by its triggers. */
  lemma {:induction false} LatchExact(flag: seq<bool>, trigger: seq<bool>, k: nat)
    requires |flag| == |trigger| + 1 && k <= |trigger|
    requires forall i | 0 <= i < |trigger| :: flag[i + 1] == (flag[i] || trigger[i])
    ensures flag[k] <==> flag[0] || exists i | 0 <= i < k :: trigger[i]
  {
    if k > 0 {
      LatchExact(flag, trigger, k - 1);
    }
  }

  lemma FiredExact(s: Session, fold: Folding, actor: Actor, hook: Option<Hook>, calls: seq<Issued>, k: nat)
    requires k <= |calls|
    ensures SessionAt(s, fold, actor, hook, calls, k).fired
      <==> s.fired || exists i | 0 <= i < k :: ReadsTargetAt(s, fold, actor, hook, calls, i)
  {
    var n := |calls|;
    var flag := seq(n + 1, i requires 0 <= i <= n => SessionAt(s, fold, actor, hook, calls, i).fired);
    var trigger := seq(n, i requires 0 <= i < n => ReadsTargetAt(s, fold, actor, hook, calls, i));
    forall i | 0 <= i < n ensures flag[i + 1] == (flag[i] || trigger[i]) {
      FiredNext(s, fold, actor, hook, calls, i);
    }
    LatchExact(flag, trigger, k);
    assert forall i | 0 <= i < k :: trigger[i] == ReadsTargetAt(s, fold, actor, hook, calls, i);
    assert flag[0] == s.fired;
  }

  /**
   * Over every sequence of calls, the human edit is attempted exactly at the first successful
   * read of the target, and so at most once.
   */
  lemma HookFiresAtFirstRead(s: Session, fold: Folding, actor: Actor, hook: Option<Hook>, calls: seq<Issued>, k: nat)
    requires !s.fired && k < |calls|
    ensures ExecutedAt(s, fold, actor, hook, calls, k).attempted <==>
      && ReadsTargetAt(s, fold, actor, hook, calls, k)
      && forall i | 0 <= i < k :: !ReadsTargetAt(s, fold, actor, hook, calls, i)
    ensures forall j | 0 <= j < k ::
      ExecutedAt(s, fold, actor, hook, calls, k).attempted ==> !ExecutedAt(s, fold, actor, hook, calls, j).attempted
  {
    FiredExact(s, fold, actor, hook, calls, k);
    AttemptExact(SessionAt(s, fold, actor, hook, calls, k), fold, actor, hook, calls[k]);
    forall j | 0 <= j < k
      ensures ExecutedAt(s, fold, actor, hook, calls, j).attempted ==>
        ReadsTargetAt(s, fold, actor, hook, calls, j)
    {
      AttemptExact(SessionAt(s, fold, actor, hook, calls, j), fold, actor, hook, calls[j]);
    }
  }

  /**
   * What an attempt means for the agent and the world. When the edit succeeds the agent is handed
   * the page as it was before the edit, while the world already holds the edit, one version on.
   * When it fails the agent gets an error and the executor carries an infrastructure error.
   */
  lemma AttemptOutcome(s: Session, fold: Folding, actor: Actor, hook: Option<Hook>, issued: Issued)
    requires Coherent(s.world) && Execute(s, fold, actor, hook, issued.call, issued.weather).attempted
    ensures var e := Execute(s, fold, actor, hook, issued.call, issued.weather);
      var id := hook.value.pageId;
      && id in s.world.pages
      && (issued.weather.controlDown <==> e.session.infrastructureError && e.result == ERROR_RESULT)
      && (issued.weather.controlDown ==> e.session.world == s.world)
      && (!issued.weather.controlDown ==>
            && e.result == ToolResult(PagePayload(s.world.pages[id]), false)
            && OneWrite(s.world, e.session.world, id, e.session.world.pages[id])
            && e.session.world.pages[id] == s.world.pages[id].(body := hook.value.body, version := s.world.pages[id].version + 1))
  {
    HumanEditOnCoherent(s.world, hook.value.pageId, hook.value.body);
  }

  /** A failed edit is never forgotten: the infrastructure error it leaves is there at the end of the run. */
  lemma {:induction false} InfrastructureErrorStays(
    s: Session, fold: Folding, actor: Actor, hook: Option<Hook>, calls: seq<Issued>, j: nat, k: nat)
    requires j <= k <= |calls| && SessionAt(s, fold, actor, hook, calls, j).infrastructureError
    ensures SessionAt(s, fold, actor, hook, calls, k).infrastructureError
    decreases k
  {
    if j < k {
      InfrastructureErrorStays(s, fold, actor, hook, calls, j, k - 1);
      AttemptExact(SessionAt(s, fold, actor, hook, calls, k - 1), fold, actor, hook, calls[k - 1]);
    }
  }

  // ---- What the tools do ----

  /** A tool that reads answers what the world holds, and changes nothing. */
  lemma {:induction false} ReadingTools(w: World, fold: Folding, actor: Actor, id: string, query: Option<string>, limit: int, offset: int)
    requires Coherent(w)
    ensures var may := id in w.pages && CanAccess(w, w.pages[id], actor, ReadPage, fold);
      && CallTool(w, fold, actor, GetPageTool(id))
         == Answer(w, if may then ToolResult(PagePayload(w.pages[id]), false) else ToolResult(ErrorPayload, true))
      && CallTool(w, fold, actor, VersionsTool(id))
         == Answer(w, if may then ToolResult(HistoryPayload(w.histories[id]), false) else ToolResult(ErrorPayload, true))
      && var text := if query.Some? then query.value else "";
         var pages := VisiblePages(w, fold, actor, Some(text));
         CallTool(w, fold, actor, SearchTool(query, limit, offset))
         == Answer(w, if 1 <= limit <= 100 && offset >= 0 then ToolResult(ListPayload(Slice(pages, limit, offset), |pages|), false)
                      else ToolResult(ErrorPayload, true))
  {
  }

  /**
   * The writing tool: it succeeds exactly for an actor who may write, against the current version;
   * then title and body are those given, or the old ones, and the version is one higher; the answer is the page.
   */
  lemma {:induction false} WritingTool(w: World, fold: Folding, actor: Actor, id: string, version: int, body: Option<string>, title: Option<string>)
    requires Coherent(w)
    ensures var answer := CallTool(w, fold, actor, UpdatePageTool(id, version, body, title));
      && (!answer.result.error <==>
            id in w.pages && CanAccess(w, w.pages[id], actor, WritePage, fold) && version == w.pages[id].version)
      && (answer.result.error ==> answer == Answer(w, ToolResult(ErrorPayload, true)))
      && (!answer.result.error ==>
            var page := w.pages[id].(title := if title.Some? then title.value else w.pages[id].title,
                                     body := if body.Some? then body.value else w.pages[id].body, version := version + 1);
            && answer.result.payload == PagePayload(page)
            && OneWrite(w, answer.world, id, page))
  {
    PutOnCoherent(w, fold, actor, id, Version(version), title, body);
  }

  /** The creating tool: one request, whose page is the answer. */
  lemma {:induction false} CreatingTool(w: World, fold: Folding, actor: Actor, page: NewPage)
    requires Coherent(w)
    ensures var answer, r := CallTool(w, fold, actor, CreatePageTool(page)), CreatePage(w, fold, actor, page);
      && answer.world == r.world
      && answer.result == (if r.response.Page201? then ToolResult(PagePayload(r.response.page), false) else ToolResult(ErrorPayload, true))
      && (r.response.Page201? ==>
            var made := r.response.page;
            && made.title == page.title && made.body == page.body && made.id == page.id && made.spaceId == page.spaceId
            && made.version == 1)
  {
    CreateOnCoherent(w, fold, actor, page);
  }
}
