/**
 * The Confluence REST routes and the trusted human edit, as steps on the state of a world,
 * and what holds over every interleaving of any number of clients.
 */
module Routes {
  import opened Options
  import opened Ordering
  import opened Values
  import opened Store
  import opened Permissions
  import opened Protocol
  import opened Listing

  /** The If-Version header: missing or blank, not an integer, or an integer. */
  datatype IfVersion = Absent | NotInteger | Version(n: int)

  datatype Response = Failed(status: int) | Page200(page: Page) | Page201(page: Page)

  datatype Reply = Reply(world: World, response: Response)

  datatype ListResponse = ListFailed(status: int) | Page200List(items: seq<Page>, total: nat, limit: int, offset: int)

  /** `get_page`. */
  function GetPage(w: World, fold: Folding, actor: Actor, id: string): Response {
    if id !in w.pages then Failed(404)
    else if !CanAccess(w, w.pages[id], actor, ReadPage, fold) then Failed(403)
    else Page200(w.pages[id])
  }

  /** `list_pages`, which has no query, and `search_pages`: 422 outside the bounds that both declare. */
  function ListPages(w: World, fold: Folding, actor: Actor, query: Option<string>, limit: int, offset: int): ListResponse {
    if limit < 1 || limit > 100 || offset < 0 then ListFailed(422)
    else
      var pages := VisiblePages(w, fold, actor, query);
      Page200List(Slice(pages, limit, offset), |pages|, limit, offset)
  }

  /** `update_page`: 428 without a precondition, 400 when it is not an integer, 409 when it is stale. */
  function PutPage(
    w: World, fold: Folding, actor: Actor, id: string, header: IfVersion,
    title: Option<string>, body: Option<string>): Reply
  {
    if id !in w.pages then Reply(w, Failed(404))
    else if !CanAccess(w, w.pages[id], actor, WritePage, fold) then Reply(w, Failed(403))
    else match header
      case Absent => Reply(w, Failed(428))
      case NotInteger => Reply(w, Failed(400))
      case Version(n) =>
        if n != w.pages[id].version then Reply(w, Failed(409))
        else
          var u := Updated(w, id, NO_CHANGES.(title := title, body := body), Some(w.pages[id].version));
          Reply(u.world, if u.result.Ok? then Page200(u.result.value) else Failed(StatusOf(u.result.error)))
  }

  function StatusOf(e: StoreError): int {
    if e.VersionConflict? then 409 else 500
  }

  datatype NewPage = NewPage(id: string, spaceId: string, title: string, body: string, ownerId: Option<string>)

  function PageOf(payload: NewPage, actor: Actor): Page {
    PageRecord(payload.id, payload.spaceId, payload.title, payload.body, 1,
               if payload.ownerId.Some? && payload.ownerId.value != "" then payload.ownerId.value else actor.userId,
               map[])
  }

  /** `create_page`: 422 when the payload names no page or no space. */
  function CreatePage(w: World, fold: Folding, actor: Actor, payload: NewPage): Reply {
    if payload.id == "" || payload.spaceId == "" then Reply(w, Failed(422))
    else if w.spaces != map[] && payload.spaceId !in w.spaces then Reply(w, Failed(404))
    else if !CanCreate(w, payload.spaceId, actor, fold) then Reply(w, Failed(403))
    else if payload.id in w.pages then Reply(w, Failed(409))
    else
      var a := Added(w, PageOf(payload, actor));
      Reply(a.world, if a.result.Ok? then Page201(a.result.value) else Failed(500))
  }

  /** `apply_human_edit`: a trusted write against the current version. */
  function HumanEdit(w: World, id: string, body: string): Reply {
    if id !in w.pages then Reply(w, Failed(404))
    else
      var u := Updated(w, id, NO_CHANGES.(body := Some(body)), Some(w.pages[id].version));
      Reply(u.world, if u.result.Ok? then Page200(u.result.value) else Failed(StatusOf(u.result.error)))
  }

  /** The routes in place, over the store that the application holds. */
  class Api {
    const store: ConfluenceStore
    const fold: Folding

    constructor (store: ConfluenceStore, fold: Folding)
      ensures this.store == store && this.fold == fold
    {
      this.store, this.fold := store, fold;
    }

    /** The loop over the pages takes them in the store's own order; any order gives the same list. */
    method List(actor: Actor, query: Option<string>, limit: int, offset: int) returns (response: ListResponse)
      ensures response == ListPages(store.State(), fold, actor, query, limit, offset)
    {
      if limit < 1 || limit > 100 || offset < 0 {
        return ListFailed(422);
      }
      var pages := CollectVisible(store.State(), fold, actor, query, SortedIds(store.pages.Keys));
      response := Page200List(Slice(pages, limit, offset), |pages|, limit, offset);
    }

    method Put(actor: Actor, id: string, header: IfVersion, title: Option<string>, body: Option<string>)
      returns (response: Response)
      modifies store
      ensures var expected := PutPage(old(store.State()), fold, actor, id, header, title, body);
        store.State() == expected.world && response == expected.response
    {
      if id !in store.pages {
        return Failed(404);
      }
      var page := store.pages[id];
      if !CanAccess(store.State(), page, actor, WritePage, fold) {
        return Failed(403);
      }
      match header {
        case Absent => return Failed(428);
        case NotInteger => return Failed(400);
        case Version(n) =>
          if n != page.version {
            return Failed(409);
          }
          var updates: PageChanges := NO_CHANGES.(title := title, body := body);
          assert WithKeywords(updates, None, None) == updates;
          var updated := store.UpdatePage(id, updates, None, None, Some(page.version));
          response := if updated.Ok? then Page200(updated.value) else Failed(StatusOf(updated.error));
      }
    }

    method Create(actor: Actor, payload: NewPage) returns (response: Response)
      modifies store
      ensures var expected := CreatePage(old(store.State()), fold, actor, payload);
        store.State() == expected.world && response == expected.response
    {
      if payload.id == "" || payload.spaceId == "" {
        return Failed(422);
      }
      if store.spaces != map[] && payload.spaceId !in store.spaces {
        return Failed(404);
      }
      if !CanCreate(store.State(), payload.spaceId, actor, fold) {
        return Failed(403);
      }
      if payload.id in store.pages {
        return Failed(409);
      }
      var added := store.AddPage(PageOf(payload, actor));
      response := if added.Ok? then Page201(added.value) else Failed(500);
    }

    method ApplyHumanEdit(id: string, body: string) returns (response: Response)
      modifies store
      ensures var expected := HumanEdit(old(store.State()), id, body);
        store.State() == expected.world && response == expected.response
    {
      if id !in store.pages {
        return Failed(404);
      }
      var updated := store.UpdatePage(id, NO_CHANGES, None, Some(body), Some(store.pages[id].version));
      response := if updated.Ok? then Page200(updated.value) else Failed(StatusOf(updated.error));
    }
  }

  // ---- What one request does to a coherent world ----

  /** Changing title and body leaves everything else of a page alone. */
  lemma EditedPage(page: Page, title: Option<string>, body: Option<string>)
    ensures ApplyChanges(page, NO_CHANGES.(title := title, body := body))
      == page.(title := Or(title, page.title), body := Or(body, page.body))
  {
    assert page.extra + map[] == page.extra;
  }

  /** A PUT succeeds exactly when the page exists, the actor may write, and the header names the current version. */
  lemma PutOnCoherent(
    w: World, fold: Folding, actor: Actor, id: string, header: IfVersion, title: Option<string>, body: Option<string>)
    requires Coherent(w)
    ensures var r := PutPage(w, fold, actor, id, header, title, body);
      && Coherent(r.world)
      && (r.response.Page200? <==>
            && id in w.pages && CanAccess(w, w.pages[id], actor, WritePage, fold)
            && header == Version(w.pages[id].version))
      && (!r.response.Page200? ==> r.response.Failed? && r.world == w)
      && (r.response.Page200? ==>
            && OneWrite(w, r.world, id, r.response.page)
            && r.response.page == w.pages[id].(title := Or(title, w.pages[id].title), body := Or(body, w.pages[id].body),
                                               version := w.pages[id].version + 1))
  {
    if id in w.pages {
      EditedPage(w.pages[id], title, body);
      UpdateOnCoherent(w, id, NO_CHANGES.(title := title, body := body), Some(w.pages[id].version));
    }
  }

  lemma VisibleAt(w: World, fold: Folding, actor: Actor, query: Option<string>, i: nat)
    requires Coherent(w) && i < |ListedIds(w, fold, actor, query)|
    ensures var id := ListedIds(w, fold, actor, query)[i];
      && Listed(w, fold, actor, query, id)
      && VisiblePages(w, fold, actor, query)[i] == w.pages[id] && w.pages[id].id == id
  {
    var ids := ListedIds(w, fold, actor, query);
    assert ids[i] in ids;
    assert CoherentPage(ids[i], w.pages[ids[i]], w.histories[ids[i]]);
  }

  lemma SliceAt<T>(items: seq<T>, limit: nat, offset: nat, i: nat)
    requires i < |Slice(items, limit, offset)|
    ensures offset + i < |items| && Slice(items, limit, offset)[i] == items[offset + i]
  {
  }

  /**
   * What listing and searching show: a page is among the items if and only if it is live, readable
   * and matching, and its id stands within the asked slice of the ids that are; it is shown as it
   * now is, with body and version.
   */
  lemma {:induction false} ListShows(
    w: World, fold: Folding, actor: Actor, query: Option<string>, limit: int, offset: int, page: Page)
    requires Coherent(w) && 1 <= limit <= 100 && 0 <= offset
    ensures page in ListPages(w, fold, actor, query, limit, offset).items
      <==> Listed(w, fold, actor, query, page.id) && w.pages[page.id] == page
           && page.id in Slice(ListedIds(w, fold, actor, query), limit, offset)
  {
    var ids, pages := ListedIds(w, fold, actor, query), VisiblePages(w, fold, actor, query);
    var shown, items := Slice(ids, limit, offset), Slice(pages, limit, offset);
    if page in items {
      var i :| 0 <= i < |items| && items[i] == page;
      SliceAt(pages, limit, offset, i);
      SliceAt(ids, limit, offset, i);
      VisibleAt(w, fold, actor, query, offset + i);
      assert shown[i] == page.id;
    }
    if page.id in shown && page.id in w.pages && w.pages[page.id] == page {
      var i :| 0 <= i < |shown| && shown[i] == page.id;
      SliceAt(pages, limit, offset, i);
      SliceAt(ids, limit, offset, i);
      VisibleAt(w, fold, actor, query, offset + i);
      assert items[i] == page;
    }
  }

  /** What a GET answers: the page to those who may read it, 403 to everybody else, and 404 where there is none. */
  lemma GetExact(w: World, fold: Folding, actor: Actor, id: string)
    ensures var response, may := GetPage(w, fold, actor, id), id in w.pages && CanAccess(w, w.pages[id], actor, ReadPage, fold);
      && (response == Failed(404) <==> id !in w.pages)
      && (response == Failed(403) <==> id in w.pages && !may)
      && (may ==> response == Page200(w.pages[id]))
  {
  }

  /** When a list is refused: with 422, exactly for a limit outside 1 to 100 or a negative offset. */
  lemma ListRefusal(w: World, fold: Folding, actor: Actor, query: Option<string>, limit: int, offset: int)
    ensures var response := ListPages(w, fold, actor, query, limit, offset);
      && (response.ListFailed? <==> limit < 1 || limit > 100 || offset < 0)
      && (response.ListFailed? ==> response.status == 422)
      && (response.Page200List? ==>
            response.total == |ListedIds(w, fold, actor, query)| && response.limit == limit && response.offset == offset)
  {
  }

  /** Why a creation is refused, in the order of the checks: 422, 404, 403, 409. */
  lemma CreateRefusals(w: World, fold: Folding, actor: Actor, payload: NewPage)
    requires Coherent(w)
    ensures var response := CreatePage(w, fold, actor, payload).response;
      var named, known := payload.id != "" && payload.spaceId != "", w.spaces == map[] || payload.spaceId in w.spaces;
      var may := CanCreate(w, payload.spaceId, actor, fold);
      && (response == Failed(422) <==> !named)
      && (response == Failed(404) <==> named && !known)
      && (response == Failed(403) <==> named && known && !may)
      && (response == Failed(409) <==> named && known && may && payload.id in w.pages)
      && (response.Failed? ==> response.status in {422, 404, 403, 409})
  {
    CreateOnCoherent(w, fold, actor, payload);
  }

  /** On any world at all: a PUT that passes its checks fails with 500 exactly on a page stored under the id of another. */
  lemma {:induction false} PutOnAny(
    w: World, fold: Folding, actor: Actor, id: string, header: IfVersion, title: Option<string>, body: Option<string>)
    ensures PutPage(w, fold, actor, id, header, title, body).response == Failed(500) <==>
      && id in w.pages && CanAccess(w, w.pages[id], actor, WritePage, fold)
      && header == Version(w.pages[id].version) && w.pages[id].id != id
    ensures HumanEdit(w, id, Or(body, "")).response == Failed(500) <==> id in w.pages && w.pages[id].id != id
  {
  }

  /**
   * Why a PUT is refused: 404 for an unknown page, 403 without permission, 428 (section 3 of RFC 6585)
   * without a precondition, 400 for one that is no integer, 409 (section 15.5.10 of RFC 9110) for a
   * stale one. Nothing else is ever answered, whatever is to be written.
   */
  lemma PutRefusals(
    w: World, fold: Folding, actor: Actor, id: string, header: IfVersion, title: Option<string>, body: Option<string>)
    requires Coherent(w)
    ensures var response := PutPage(w, fold, actor, id, header, title, body).response;
      var allowed := id in w.pages && CanAccess(w, w.pages[id], actor, WritePage, fold);
      && (response == Failed(404) <==> id !in w.pages)
      && (response == Failed(403) <==> id in w.pages && !allowed)
      && (response == Failed(428) <==> allowed && header == Absent)
      && (response == Failed(400) <==> allowed && header == NotInteger)
      && (response == Failed(409) <==> allowed && header.Version? && header.n != w.pages[id].version)
      && (response.Failed? ==> response.status in {404, 403, 428, 400, 409})
  {
    PutOnCoherent(w, fold, actor, id, header, title, body);
  }

  lemma HumanEditOnCoherent(w: World, id: string, body: string)
    requires Coherent(w)
    ensures var r := HumanEdit(w, id, body);
      && Coherent(r.world)
      && (r.response.Page200? <==> id in w.pages)
      && (id !in w.pages ==> r == Reply(w, Failed(404)))
      && (id in w.pages ==>
            && OneWrite(w, r.world, id, r.response.page)
            && r.response.page == w.pages[id].(body := body, version := w.pages[id].version + 1))
  {
    if id in w.pages {
      UpdateOnCoherent(w, id, NO_CHANGES.(body := Some(body)), Some(w.pages[id].version));
      assert w.pages[id].extra + map[] == w.pages[id].extra;
    }
  }

  lemma CreateOnCoherent(w: World, fold: Folding, actor: Actor, payload: NewPage)
    requires Coherent(w)
    ensures var r := CreatePage(w, fold, actor, payload);
      && Coherent(r.world)
      && (r.response.Page201? <==>
            && payload.id != "" && payload.spaceId != "" && payload.id !in w.pages
            && (w.spaces == map[] || payload.spaceId in w.spaces)
            && CanCreate(w, payload.spaceId, actor, fold))
      && (!r.response.Page201? ==> r.response.Failed? && r.world == w)
      && (r.response.Page201? ==>
            && r.response.page == PageOf(payload, actor)
            && PageOf(payload, actor)
               == PageRecord(payload.id, payload.spaceId, payload.title, payload.body, 1,
                             if payload.ownerId in {None, Some("")} then actor.userId else payload.ownerId.value, map[])
            && r.world == w.(pages := w.pages[payload.id := r.response.page],
                             histories := w.histories[payload.id := [r.response.page]]))
  {
    AddOnCoherent(w, PageOf(payload, actor));
  }

  // ---- Any number of clients, in any interleaving ----

  datatype Request =
    | Fetch(actor: Actor, id: string)
    | Put(actor: Actor, id: string, header: IfVersion, title: Option<string>, body: Option<string>)
    | Create(actor: Actor, payload: NewPage)
    | Edit(id: string, text: string)

  datatype Served = Served(world: World, event: Event)

  function Serve(w: World, fold: Folding, request: Request): Served {
    match request
    case Fetch(actor, id) =>
      var r := GetPage(w, fold, actor, id);
      Served(w, if r.Page200? then Read(id, r.page) else Refused(if r.Failed? then r.status else 500))
    case Put(actor, id, header, title, body) =>
      WriteEvent(w, id, PutPage(w, fold, actor, id, header, title, body))
    case Create(actor, payload) =>
      var r := CreatePage(w, fold, actor, payload);
      Served(r.world, if r.response.Page201? then Made(payload.id, r.response.page)
                        else Refused(if r.response.Failed? then r.response.status else 500))
    case Edit(id, text) => WriteEvent(w, id, HumanEdit(w, id, text))
  }

  function WriteEvent(w: World, id: string, r: Reply): Served {
    Served(r.world, if r.response.Page200? && id in w.pages then Wrote(id, w.pages[id], r.response.page)
                      else Refused(if r.response.Failed? then r.response.status else 500))
  }

  /** One request on a coherent world is one step of the protocol, and it keeps the world coherent. */
  lemma ServeIsStep(w: World, fold: Folding, request: Request)
    requires Coherent(w)
    ensures Happens(w, Serve(w, fold, request).event, Serve(w, fold, request).world)
    ensures Coherent(Serve(w, fold, request).world)
  {
    match request
    case Fetch(_, _) =>
    case Put(actor, id, header, title, body) => PutOnCoherent(w, fold, actor, id, header, title, body);
    case Create(actor, payload) => CreateOnCoherent(w, fold, actor, payload);
    case Edit(id, text) => HumanEditOnCoherent(w, id, text);
  }

  /** The worlds and events of serving requests one after the other, in the order they arrive. */
  datatype ServedRun = ServedRun(worlds: seq<World>, trace: seq<Event>)

  function ServeAll(w: World, fold: Folding, requests: seq<Request>): (run: ServedRun)
    ensures |run.worlds| == |run.trace| + 1 && |run.trace| == |requests|
    ensures run.worlds[0] == w
    decreases |requests|
  {
    if requests == [] then ServedRun([w], [])
    else
      var served := Serve(w, fold, requests[0]);
      var rest := ServeAll(served.world, fold, requests[1..]);
      ServedRun([w] + rest.worlds, [served.event] + rest.trace)
  }

  /** Every interleaving of any number of clients and human edits is an execution of the protocol. */
  lemma {:induction false} ServeAllIsExecution(w: World, fold: Folding, requests: seq<Request>)
    requires Coherent(w)
    ensures var run := ServeAll(w, fold, requests); Execution(run.worlds, run.trace)
    decreases |requests|
  {
    if requests != [] {
      var served := Serve(w, fold, requests[0]);
      ServeIsStep(w, fold, requests[0]);
      ServeAllIsExecution(served.world, fold, requests[1..]);
      var rest, run := ServeAll(served.world, fold, requests[1..]), ServeAll(w, fold, requests);
      forall k | 0 <= k < |run.trace| ensures HappensAt(run.worlds, run.trace, k) {
        if k > 0 {
          assert HappensAt(rest.worlds, rest.trace, k - 1);
        }
      }
    }
  }

  /** A write that was asked for with If-Version: the event names the client's own expected version. */
  lemma {:induction false} PutReplacesExpected(w: World, fold: Folding, requests: seq<Request>, k: nat)
    requires Coherent(w) && k < |requests| && requests[k].Put?
    ensures var e := ServeAll(w, fold, requests).trace[k];
      e.Wrote? ==> e.id == requests[k].id && requests[k].header == Version(e.replaced.version)
    decreases |requests|
  {
    ServeIsStep(w, fold, requests[0]);
    if k == 0 {
      var r := requests[0];
      PutOnCoherent(w, fold, r.actor, r.id, r.header, r.title, r.body);
    } else {
      PutReplacesExpected(Serve(w, fold, requests[0]).world, fold, requests[1..], k - 1);
    }
  }

  /**
   * The client's view of no lost update. If a request was answered with a page (a GET, or an own
   * write) and a later PUT naming that page's version succeeds, then what the PUT replaced is
   * exactly the page that was answered: no edit made in between is overwritten.
   */
  lemma GetThenPut(w: World, fold: Folding, requests: seq<Request>, j: nat, k: nat)
    requires Coherent(w) && j < k < |requests| && requests[k].Put?
    ensures var trace := ServeAll(w, fold, requests).trace;
      !trace[j].Refused? && trace[j].id == requests[k].id
      && requests[k].header == Version(Shown(trace[j]).version) && trace[k].Wrote?
      ==> trace[k].replaced == Shown(trace[j])
  {
    var run := ServeAll(w, fold, requests);
    ServeAllIsExecution(w, fold, requests);
    PutReplacesExpected(w, fold, requests, k);
    if !run.trace[j].Refused? && run.trace[j].id == requests[k].id && run.trace[k].Wrote? {
      NoLostUpdate(run.worlds, run.trace, j, k);
    }
  }

  /**
   * Read your writes: after a successful PUT the same actor's next GET returns exactly the written
   * page, one version on, and the page is in that actor's unfiltered listing.
   */
  lemma ReadYourWrites(
    w: World, fold: Folding, actor: Actor, id: string, header: IfVersion, title: Option<string>, body: Option<string>)
    requires Coherent(w)
    requires PutPage(w, fold, actor, id, header, title, body).response.Page200?
    ensures var r := PutPage(w, fold, actor, id, header, title, body);
      && GetPage(r.world, fold, actor, id) == r.response
      && r.response.page.version == w.pages[id].version + 1
      && (body.Some? ==> r.response.page.body == body.value)
      && (title.Some? ==> r.response.page.title == title.value)
      && id in ListedIds(r.world, fold, actor, None)
  {
    var r := PutPage(w, fold, actor, id, header, title, body);
    PutOnCoherent(w, fold, actor, id, header, title, body);
    WriteImpliesRead(w, w.pages[id], actor, fold);
    AccessUnaffected(w, r.world, w.pages[id], r.response.page, actor, ReadPage, fold);
  }
}
