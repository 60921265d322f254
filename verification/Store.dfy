/**
 * The page store: live pages under a version number, and an append-only history for each page.
 *
 * The functions say what each operation does to the state of a world; the class
 * carries the operations out in place and is proved against them.
 */
module Store {
  import opened Options
  import opened Values

  datatype StoreError =
    | UnknownPage(id: string)
    | PageExists(id: string)
    | VersionConflict(current: int, expected: int)
    | IdMismatch(wanted: string, got: string)

  /** The fields an update may carry; an update never carries `id` or `version`, which the store removes. */
  datatype Changes = Changes(
    spaceId: Option<string>, title: Option<string>, body: Option<string>, ownerId: Option<string>,
    extra: map<string, Value>)

  type PageChanges = c: Changes | c.extra.Keys !! DECLARED_FIELDS
    witness Changes(None, None, None, None, map[])

  const NO_CHANGES: PageChanges := Changes(None, None, None, None, map[])

  function Or<T>(change: Option<T>, current: T): T {
    if change.Some? then change.value else current
  }

  function ApplyChanges(page: Page, c: PageChanges): Page {
    page.(spaceId := Or(c.spaceId, page.spaceId), title := Or(c.title, page.title),
          body := Or(c.body, page.body), ownerId := Or(c.ownerId, page.ownerId),
          extra := page.extra + c.extra)
  }

  /** The keyword arguments `title=` and `body=` override what the mapping of updates says. */
  function WithKeywords(c: PageChanges, title: Option<string>, body: Option<string>): PageChanges {
    c.(title := if title.Some? then title else c.title, body := if body.Some? then body else c.body)
  }

  datatype Outcome = Outcome(world: World, result: Result<Page, StoreError>)

  function HistoryOf(w: World, id: string): seq<Page> {
    if id in w.histories then w.histories[id] else []
  }

  /** `append_version`: fails, changing nothing, when the entry belongs to another page. */
  function Appended(w: World, id: string, entry: Page): Outcome {
    if entry.id != id then Outcome(w, Err(IdMismatch(id, entry.id)))
    else Outcome(w.(histories := w.histories[id := HistoryOf(w, id) + [entry]]), Ok(entry))
  }

  /** `add_page`. */
  function Added(w: World, page: Page): Outcome {
    if page.id in w.pages then Outcome(w, Err(PageExists(page.id)))
    else Appended(w.(pages := w.pages[page.id := page], histories := w.histories[page.id := []]), page.id, page)
  }

  /**
   * `update_page`. Checks come before any change, except the identity check of the
   * history, which comes after the page has been changed.
   */
  function Updated(w: World, id: string, c: PageChanges, expected: Option<int>): Outcome {
    if id !in w.pages then Outcome(w, Err(UnknownPage(id)))
    else if expected.Some? && expected.value != w.pages[id].version then
      Outcome(w, Err(VersionConflict(w.pages[id].version, expected.value)))
    else
      var page := ApplyChanges(w.pages[id], c);
      var bumped := page.(version := page.version + 1);
      Appended(w.(pages := w.pages[id := bumped]), id, bumped)
  }

  /** `set_page`: rewrites a page and the history entries that carry its current version. */
  function PageSet(w: World, id: string, c: PageChanges): World
    requires id in w.pages
  {
    var page := ApplyChanges(w.pages[id], c);
    var pages := w.pages[id := page];
    if id in w.histories
    then w.(pages := pages, histories := w.histories[id := EntriesSet(w.histories[id], page.version, c)])
    else w.(pages := pages)
  }

  function EntriesSet(history: seq<Page>, version: int, c: PageChanges): (r: seq<Page>)
    ensures |r| == |history|
    ensures forall i | 0 <= i < |r| ::
      r[i] == if history[i].version == version then ApplyChanges(history[i], c) else history[i]
  {
    seq(|history|, i requires 0 <= i < |history| =>
      if history[i].version == version then ApplyChanges(history[i], c) else history[i])
  }

  class ConfluenceStore {
    var users: map<string, Value>
    var spaces: map<string, Value>
    var pages: map<string, Page>
    var pageVersions: map<string, seq<Page>>
    var permissions: map<string, Value>
    var domainId: string
    var schemaVersion: string

    function State(): World
      reads this
    {
      World(users, spaces, pages, pageVersions, permissions)
    }

    constructor (resources: World, domainId: string, schemaVersion: string)
      ensures State() == resources
      ensures this.domainId == domainId && this.schemaVersion == schemaVersion
    {
      this.users, this.spaces := resources.users, resources.spaces;
      this.pages, this.pageVersions := resources.pages, resources.histories;
      this.permissions := resources.permissions;
      this.domainId, this.schemaVersion := domainId, schemaVersion;
    }

    method TakeSnapshot(snapshotId: string, timestamp: string) returns (s: Snapshot)
      ensures s == Snapshot(snapshotId, domainId, schemaVersion, timestamp, State())
    {
      s := Snapshot(snapshotId, domainId, schemaVersion, timestamp, State());
    }

    method Restore(s: Snapshot)
      modifies this
      ensures State() == s.resources
      ensures domainId == s.domainId && schemaVersion == s.schemaVersion
    {
      users, spaces := s.resources.users, s.resources.spaces;
      pages, pageVersions := s.resources.pages, s.resources.histories;
      permissions := s.resources.permissions;
      domainId, schemaVersion := s.domainId, s.schemaVersion;
    }

    method AppendVersion(id: string, entry: Option<Page>) returns (r: Result<Page, StoreError>)
      modifies this`pageVersions
      ensures entry.None? && id !in pages ==> r == Err(UnknownPage(id)) && State() == old(State())
      ensures entry.Some? || id in pages ==>
        var expected := Appended(old(State()), id, if entry.Some? then entry.value else pages[id]);
        State() == expected.world && r == expected.result
    {
      if entry.None? && id !in pages {
        return Err(UnknownPage(id));
      }
      var current := if entry.Some? then entry.value else pages[id];
      if current.id != id {
        return Err(IdMismatch(id, current.id));
      }
      if id !in pageVersions {
        pageVersions := pageVersions[id := []];
      }
      pageVersions := pageVersions[id := pageVersions[id] + [current]];
      r := Ok(current);
    }

    method AddPage(page: Page) returns (r: Result<Page, StoreError>)
      modifies this
      ensures State() == Added(old(State()), page).world && r == Added(old(State()), page).result
      ensures domainId == old(domainId) && schemaVersion == old(schemaVersion)
    {
      if page.id in pages {
        return Err(PageExists(page.id));
      }
      pages := pages[page.id := page];
      pageVersions := pageVersions[page.id := []];
      r := AppendVersion(page.id, None);
    }

    method BumpVersion(id: string) returns (r: Result<int, StoreError>)
      modifies this`pages
      ensures id !in old(pages) ==> pages == old(pages) && r == Err(UnknownPage(id))
      ensures id in old(pages) ==>
        var bumped := old(pages)[id].(version := old(pages)[id].version + 1);
        pages == old(pages)[id := bumped] && r == Ok(bumped.version)
    {
      if id !in pages {
        return Err(UnknownPage(id));
      }
      pages := pages[id := pages[id].(version := pages[id].version + 1)];
      r := Ok(pages[id].version);
    }

    method UpdatePage(
        id: string, updates: PageChanges, title: Option<string>, body: Option<string>, expectedVersion: Option<int>)
      returns (r: Result<Page, StoreError>)
      modifies this
      ensures var expected := Updated(old(State()), id, WithKeywords(updates, title, body), expectedVersion);
        State() == expected.world && r == expected.result
      ensures domainId == old(domainId) && schemaVersion == old(schemaVersion)
    {
      if id !in pages {
        return Err(UnknownPage(id));
      }
      if expectedVersion.Some? && pages[id].version != expectedVersion.value {
        return Err(VersionConflict(pages[id].version, expectedVersion.value));
      }
      var page := ApplyChanges(pages[id], updates);
      if title.Some? {
        page := page.(title := title.value);
      }
      if body.Some? {
        page := page.(body := body.value);
      }
      assert page == ApplyChanges(pages[id], WithKeywords(updates, title, body));
      ghost var bumped := page.(version := page.version + 1);
      pages := pages[id := page];
      var _ := BumpVersion(id);
      assert pages == old(pages)[id := bumped];
      ghost var changed := State();
      assert changed == old(State()).(pages := old(pages)[id := bumped]);
      r := AppendVersion(id, None);
      assert State() == Appended(changed, id, bumped).world;
    }

    /** On a coherent world: every version of a known page, oldest first, down to the live page. */
    method GetPageVersions(id: string) returns (history: seq<Page>)
      ensures history == HistoryOf(State(), id)
      ensures Coherent(State()) ==> (history == [] <==> id !in pages)
      ensures Coherent(State()) && id in pages ==> |history| == pages[id].version && history[|history| - 1] == pages[id]
      ensures Coherent(State()) ==> forall i | 0 <= i < |history| :: history[i].id == id && history[i].version == i + 1
    {
      history := if id in pageVersions then pageVersions[id] else [];
      assert Coherent(State()) && id in pages ==> CoherentPage(id, pages[id], pageVersions[id]);
    }

    method SetPage(id: string, title: Option<string>, body: Option<string>)
      requires id in pages
      modifies this
      ensures State() == PageSet(old(State()), id, NO_CHANGES.(title := title, body := body))
      ensures domainId == old(domainId) && schemaVersion == old(schemaVersion)
    {
      var changes: PageChanges := NO_CHANGES.(title := title, body := body);
      pages := pages[id := ApplyChanges(pages[id], changes)];
      if id in pageVersions {
        var entries, version := pageVersions[id], pages[id].version;
        for i := 0 to |entries|
          invariant |entries| == |pageVersions[id]|
          invariant forall j | i <= j < |entries| :: entries[j] == pageVersions[id][j]
          invariant forall j | 0 <= j < i :: entries[j] == EntriesSet(pageVersions[id], version, changes)[j]
        {
          if entries[i].version == version {
            entries := entries[i := ApplyChanges(entries[i], changes)];
          }
        }
        assert entries == EntriesSet(pageVersions[id], version, changes);
        pageVersions := pageVersions[id := entries];
      }
    }
  }

  // ---- Coherent states ----

  /** One page and its history: entry `i` carries version `i + 1`, and the last entry is the page. */
  predicate CoherentPage(id: string, page: Page, history: seq<Page>) {
    && page.id == id
    && |history| == page.version
    && page.version >= 1
    && history[|history| - 1] == page
    && (forall i | 0 <= i < |history| :: history[i].id == id && history[i].version == i + 1)
  }

  predicate Coherent(w: World) {
    && w.pages.Keys == w.histories.Keys
    && (forall id | id in w.pages :: CoherentPage(id, w.pages[id], w.histories[id]))
  }

  /** On a coherent world an update fails only by an unknown page or a stale version, and then changes nothing. */
  lemma UpdateOnCoherent(w: World, id: string, c: PageChanges, expected: Option<int>)
    requires Coherent(w)
    ensures var u := Updated(w, id, c, expected);
      && Coherent(u.world)
      && (u.result.Ok? <==> id in w.pages && (expected.Some? ==> expected.value == w.pages[id].version))
      && (u.result.Err? ==> u.world == w)
      && (u.result.Ok? ==>
            var page := u.result.value;
            && page == ApplyChanges(w.pages[id], c).(version := w.pages[id].version + 1)
            && u.world == w.(pages := w.pages[id := page], histories := w.histories[id := w.histories[id] + [page]]))
  {
    var u := Updated(w, id, c, expected);
    if id in w.pages {
      assert CoherentPage(id, w.pages[id], w.histories[id]);
      if u.result.Ok? {
        var page := u.result.value;
        assert u.world.histories[id] == w.histories[id] + [page];
        assert CoherentPage(id, u.world.pages[id], u.world.histories[id]);
        forall other | other in u.world.pages
          ensures CoherentPage(other, u.world.pages[other], u.world.histories[other])
        {
          if other != id {
            assert CoherentPage(other, w.pages[other], w.histories[other]);
          }
        }
      }
    }
  }

  /** On any world, a failed update leaves the state alone unless what failed is the identity check. */
  lemma FailedUpdateExact(w: World, id: string, c: PageChanges, expected: Option<int>)
    requires Updated(w, id, c, expected).result.Err?
    ensures Updated(w, id, c, expected).world == w
      <==> !(id in w.pages && w.pages[id].id != id && (expected.Some? ==> expected.value == w.pages[id].version))
  {
    var u := Updated(w, id, c, expected);
    if id in w.pages && w.pages[id].id != id && (expected.Some? ==> expected.value == w.pages[id].version) {
      assert u.world.pages[id].version != w.pages[id].version;
    }
  }

  /** One such update: the page stored under "p" calls itself "q", so the update fails and leaves it bumped. */
  lemma FailedUpdateExample()
    ensures var page: Page := PageRecord("q", "", "", "", 1, "", map[]);
      var w := World(map[], map[], map["p" := page], map["p" := [page]], map[]);
      var u := Updated(w, "p", NO_CHANGES, Some(1));
      u.result == Err(IdMismatch("p", "q")) && u.world != w && u.world.pages["p"].version == 2
  {
  }

  /** Adding a new page keeps the world coherent exactly when the page starts at version 1. */
  lemma AddOnCoherent(w: World, page: Page)
    requires Coherent(w)
    ensures var a := Added(w, page);
      && (a.result.Ok? <==> page.id !in w.pages)
      && (a.result.Err? ==> a.world == w)
      && (a.result.Ok? ==>
            && a.world == w.(pages := w.pages[page.id := page], histories := w.histories[page.id := [page]])
            && (Coherent(a.world) <==> page.version == 1))
  {
    if page.id !in w.pages {
      AddedWorld(w, page);
      AddedIsCoherent(w, page);
    }
  }

  lemma AddedIsCoherent(w: World, page: Page)
    requires Coherent(w) && page.id !in w.pages
    ensures Coherent(w.(pages := w.pages[page.id := page], histories := w.histories[page.id := [page]]))
      <==> page.version == 1
  {
    var added := w.(pages := w.pages[page.id := page], histories := w.histories[page.id := [page]]);
    assert added.pages.Keys == added.histories.Keys;
    assert CoherentPage(page.id, added.pages[page.id], added.histories[page.id]) <==> page.version == 1;
    forall other | other in w.pages && other != page.id
      ensures CoherentPage(other, added.pages[other], added.histories[other])
    {
      assert CoherentPage(other, w.pages[other], w.histories[other]);
    }
  }

  lemma AddedWorld(w: World, page: Page)
    requires page.id !in w.pages
    ensures Added(w, page)
      == Outcome(w.(pages := w.pages[page.id := page], histories := w.histories[page.id := [page]]), Ok(page))
  {
    assert [] + [page] == [page];
    assert w.histories[page.id := []][page.id := [page]] == w.histories[page.id := [page]];
  }

  /** Fixture edits keep a coherent world coherent, without a new version. */
  lemma SetOnCoherent(w: World, id: string, title: Option<string>, body: Option<string>)
    requires Coherent(w) && id in w.pages
    ensures var c := NO_CHANGES.(title := title, body := body);
      && Coherent(PageSet(w, id, c))
      && PageSet(w, id, c).pages == w.pages[id := ApplyChanges(w.pages[id], c)]
      && |PageSet(w, id, c).histories[id]| == |w.histories[id]|
  {
    var c := NO_CHANGES.(title := title, body := body);
    var v := PageSet(w, id, c);
    forall other | other in v.pages ensures CoherentPage(other, v.pages[other], v.histories[other]) {
      assert CoherentPage(other, w.pages[other], w.histories[other]);
    }
  }

  // ---- Every run of the store ----

  datatype Step =
    | Add(page: Page)
    | Update(id: string, changes: PageChanges, expected: Option<int>)
    | TakeSnapshot
    | RestoreTaken(k: nat)
    | RestoreGiven(resources: World)

  /** The store's state and the snapshots taken so far. */
  datatype System = System(world: World, taken: seq<World>)

  function Apply(s: System, step: Step): System {
    match step
    case Add(page) => s.(world := Added(s.world, page).world)
    case Update(id, c, expected) => s.(world := Updated(s.world, id, c, expected).world)
    case TakeSnapshot => s.(taken := s.taken + [s.world])
    case RestoreTaken(k) => if k < |s.taken| then s.(world := s.taken[k]) else s
    case RestoreGiven(resources) => s.(world := resources)
  }

  function Run(s: System, steps: seq<Step>): System
    decreases |steps|
  {
    if steps == [] then s else Run(Apply(s, steps[0]), steps[1..])
  }

  /** The two demands on callers: pages start at version 1, and a snapshot from outside is coherent. */
  predicate Admissible(step: Step) {
    (step.Add? ==> step.page.version == 1) && (step.RestoreGiven? ==> Coherent(step.resources))
  }

  predicate CoherentSystem(s: System) {
    Coherent(s.world) && forall k | 0 <= k < |s.taken| :: Coherent(s.taken[k])
  }

  lemma StepKeepsCoherence(s: System, step: Step)
    requires CoherentSystem(s) && Admissible(step)
    ensures CoherentSystem(Apply(s, step))
    ensures s.taken <= Apply(s, step).taken
  {
    match step
    case Add(page) => AddOnCoherent(s.world, page);
    case Update(id, c, expected) => UpdateOnCoherent(s.world, id, c, expected);
    case _ =>
  }

  /** Every run of the store keeps it coherent, and no snapshot ever changes once taken. */
  lemma {:induction false} RunKeepsCoherence(s: System, steps: seq<Step>)
    requires CoherentSystem(s)
    requires forall k | 0 <= k < |steps| :: Admissible(steps[k])
    ensures CoherentSystem(Run(s, steps))
    ensures s.taken <= Run(s, steps).taken
    decreases |steps|
  {
    if steps != [] {
      StepKeepsCoherence(s, steps[0]);
      RunKeepsCoherence(Apply(s, steps[0]), steps[1..]);
    }
  }

  /** No step, admissible or not, touches a snapshot that was taken. */
  lemma {:induction false} RunKeepsTaken(s: System, steps: seq<Step>)
    ensures s.taken <= Run(s, steps).taken
    decreases |steps|
  {
    if steps != [] {
      RunKeepsTaken(Apply(s, steps[0]), steps[1..]);
    }
  }

  /** The round trip: taking a snapshot, doing anything at all, and restoring it gives the old world back. */
  lemma SnapshotUndoes(s: System, steps: seq<Step>)
    ensures Apply(Run(Apply(s, TakeSnapshot), steps), RestoreTaken(|s.taken|)).world == s.world
  {
    var taken := Apply(s, TakeSnapshot);
    RunKeepsTaken(taken, steps);
    assert Run(taken, steps).taken[|s.taken|] == taken.taken[|s.taken|];
  }

  /** Every page of `w` is still in `v`, with a history that extends the one it had. */
  predicate HistoriesExtend(w: World, v: World) {
    forall id | id in w.histories :: id in v.histories && w.histories[id] <= v.histories[id]
  }

  /** Between restores histories only grow: no page is lost and no entry is rewritten. */
  lemma {:induction false} HistoriesOnlyGrow(s: System, steps: seq<Step>)
    requires CoherentSystem(s)
    requires forall k | 0 <= k < |steps| :: Admissible(steps[k]) && !steps[k].RestoreTaken? && !steps[k].RestoreGiven?
    ensures HistoriesExtend(s.world, Run(s, steps).world)
    decreases |steps|
  {
    if steps != [] {
      var next := Apply(s, steps[0]);
      StepKeepsCoherence(s, steps[0]);
      match steps[0] {
        case Add(page) => AddOnCoherent(s.world, page);
        case Update(id, c, expected) => UpdateOnCoherent(s.world, id, c, expected);
        case _ =>
      }
      HistoriesOnlyGrow(next, steps[1..]);
    }
  }

  /** Which error an update fails with, and what a page that it succeeds on becomes, field by field. */
  lemma {:induction false} UpdateExact(
    w: World, id: string, c: PageChanges, title: Option<string>, body: Option<string>, expected: Option<int>)
    ensures var r := Updated(w, id, WithKeywords(c, title, body), expected).result;
      && (r == Err(UnknownPage(id)) <==> id !in w.pages)
      && (id in w.pages ==>
            var page, current := w.pages[id], w.pages[id].version;
            var stale := expected.Some? && expected.value != current;
            && (stale <==> expected.Some? && r == Err(VersionConflict(current, expected.value)))
            && (r == Err(IdMismatch(id, page.id)) <==> !stale && page.id != id)
            && (r.Ok? <==> !stale && page.id == id)
            && (r.Ok? ==>
                  && r.value.id == id && r.value.version == current + 1
                  && r.value.title == (if title.Some? then title.value else if c.title.Some? then c.title.value else page.title)
                  && r.value.body == (if body.Some? then body.value else if c.body.Some? then c.body.value else page.body)
                  && r.value.spaceId == (if c.spaceId.Some? then c.spaceId.value else page.spaceId)
                  && r.value.ownerId == (if c.ownerId.Some? then c.ownerId.value else page.ownerId)
                  && r.value.extra == page.extra + c.extra))
  {
  }
}
