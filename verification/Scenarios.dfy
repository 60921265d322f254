/**
 * The concurrent-edit and preservation tasks end to end: what the scenarios ask for, an agent
 * that works through the executor and the hook, and the verdict of the verifier at the end.
 */
module Scenarios {
  import opened Options
  import opened Ordering
  import opened Text
  import opened Values
  import opened Store
  import opened Permissions
  import opened Protocol
  import opened Listing
  import opened Routes
  import opened Sections
  import opened Commuting
  import opened Verifier
  import opened Verdicts
  import opened Harness

  // ---- Concurrent edit ----

  /** A task of the concurrent-edit family: a human note for one section, a replacement for another. */
  datatype ConcurrentTask = ConcurrentTask(
    target: string, humanSection: string, note: string, section: string, fragment: string)

  /** Both sections are there, and the agent's section is still found once the note has been written. */
  predicate Generates(task: ConcurrentTask, body: string) {
    && task.humanSection != task.section && '\n' !in task.humanSection && '\n' !in task.section
    && HasSection(body, task.humanSection) && HasSection(body, task.section)
    && StillFound(Split(body), FindSection(Split(body), Marker(task.humanSection)),
                  Extended(SectionOf(body, task.humanSection), task.note), Marker(task.section))
  }

  function HumanBody(task: ConcurrentTask, body: string): Result<string, SectionError> {
    AppendToSection(body, task.humanSection, task.note)
  }

  /** First the human note, then the requested replacement. */
  function FinalBody(task: ConcurrentTask, body: string): Result<string, SectionError> {
    var human := HumanBody(task, body);
    if human.Err? then human else ReplaceSection(human.value, task.section, task.fragment)
  }

  /** The verifier configuration that the scenario writes into the task. */
  function ConcurrentConfig(task: ConcurrentTask, human: string, expected: string): Config {
    Config(
      [task.target], map[task.target := task.fragment], OneBody(expected),
      Some(SectionTexts(expected, Some(task.section))), [], Some(task.note),
      Some(Concurrency(Some(task.target), NoteFields(None, Some(task.note), None, Some(human)))))
  }

  /** The fixture after `generate` has set the title and the body of the target. */
  function Prepared(w: World, target: string, title: string, body: string): World
    requires target in w.pages
  {
    PageSet(PageSet(w, target, NO_CHANGES.(title := Some(title))), target, NO_CHANGES.(body := Some(body)))
  }

  /** Preparing a coherent fixture keeps it coherent, at the same versions, with the body that was asked for. */
  lemma PreparedIsCoherent(w: World, target: string, title: string, body: string)
    requires Coherent(w) && target in w.pages
    ensures var v := Prepared(w, target, title, body);
      && Coherent(v) && v.pages.Keys == w.pages.Keys
      && v.pages[target] == w.pages[target].(title := title, body := body)
      && |v.histories[target]| == |w.histories[target]|
  {
    var page := w.pages[target];
    SetOnCoherent(w, target, Some(title), None);
    SetOnCoherent(PageSet(w, target, NO_CHANGES.(title := Some(title))), target, None, Some(body));
    EditedPage(page, Some(title), None);
    EditedPage(page.(title := title), None, Some(body));
  }

  /** `generate` in place: the fixture is prepared, and the bodies and the configuration are composed. */
  method GenerateConcurrent(store: ConfluenceStore, task: ConcurrentTask, title: string, sections: seq<(string, string)>)
    returns (r: Result<Config, SectionError>)
    requires task.target in store.pages
    modifies store
    ensures var body := SectionedBody(sections);
      && store.State() == Prepared(old(store.State()), task.target, title, body)
      && var expected := FinalBody(task, body);
         r == if expected.Err? then Err(expected.error)
              else Ok(ConcurrentConfig(task, HumanBody(task, body).value, expected.value))
  {
    store.SetPage(task.target, Some(title), None);
    var body := SectionedBody(sections);
    store.SetPage(task.target, None, Some(body));
    var human := AppendInPlace(body, task.humanSection, task.note);
    if human.Err? {
      return Err(human.error);
    }
    var expected := ReplaceInPlace(human.value, task.section, task.fragment);
    if expected.Err? {
      return Err(expected.error);
    }
    r := Ok(ConcurrentConfig(task, human.value, expected.value));
  }

  /** On such a page the expected body exists and holds both the note and the replacement. */
  lemma GeneratedBodies(task: ConcurrentTask, body: string)
    requires Generates(task, body)
    ensures var human, expected := HumanBody(task, body), FinalBody(task, body);
      && human.Ok? && expected.Ok?
      && HasSection(human.value, task.section)
      && Contains(expected.value, task.fragment) && Contains(expected.value, task.note)
  {
    var h, g := task.humanSection, task.section;
    var parts := Split(body);
    var i, j := FindSection(parts, Marker(h)), FindSection(parts, Marker(g));
    if i == j { MarkersExclude(parts[i], h, g); }
    var extended, rewritten := Extended(parts[i], task.note), Replaced(g, task.fragment);
    EditAfterEdit(body, h, extended, g, rewritten);
    var both := parts[i := extended][j := rewritten];
    JoinContainsPart(both, i);
    JoinContainsPart(both, j);
    ContainsMiddle(Marker(g), task.fragment, "");
    assert Marker(g) + task.fragment + "" == rewritten;
    ContainsTransitive(Join(both), rewritten, task.fragment);
    ContainsMiddle(parts[i] + "\n", task.note, "");
    assert parts[i] + "\n" + task.note + "" == extended;
    ContainsTransitive(Join(both), extended, task.note);
  }

  /**
   * When the two edits commute: the expected body is also what the human note after the
   * replacement would give, if and only if the replacement leaves the human's section found.
   */
  lemma ExpectedBothWays(task: ConcurrentTask, body: string)
    requires task.humanSection != task.section && '\n' !in task.humanSection && '\n' !in task.section && Line(task.note)
    requires HasSection(body, task.humanSection) && HasSection(body, task.section)
    ensures var replaced := ReplaceSection(body, task.section, task.fragment);
      && replaced.Ok? && FinalBody(task, body).Ok?
      && (FinalBody(task, body) == AppendToSection(replaced.value, task.humanSection, task.note)
          <==> StillFound(Split(body), FindSection(Split(body), Marker(task.section)),
                          Replaced(task.section, task.fragment), Marker(task.humanSection)))
  {
    LineNotesCommute(body, task.humanSection, task.note, task.section, task.fragment);
  }

  lemma SectionLineFits(heading: string, content: string, isLast: bool)
    requires Line(content) && '\n' !in heading
    ensures Fits(Replaced(heading, content), isLast)
  {
    SectionSeparators(heading, content);
  }

  predicate LineSections(sections: seq<(string, string)>) {
    forall k | 0 <= k < |sections| :: '\n' !in sections[k].0 && Line(sections[k].1)
  }

  lemma LineSectionsSplit(sections: seq<(string, string)>, i: nat)
    requires LineSections(sections) && i < |sections|
    ensures Split(SectionedBody(sections)) == SectionTextsOf(sections)
    ensures HasSection(SectionedBody(sections), sections[i].0)
    ensures Fits(SectionOf(SectionedBody(sections), sections[i].0), false)
  {
    var texts := SectionTextsOf(sections);
    forall k | 0 <= k < |sections| ensures Fits(texts[k], false) {
      SectionLineFits(sections[k].0, sections[k].1, false);
    }
    SplitOfJoin(texts);
    assert StartsWith(texts[i], Marker(sections[i].0));
  }

  /** Every body the scenarios generate, made of sections with one-line contents, admits every such task. */
  lemma SectionedBodyGenerates(task: ConcurrentTask, sections: seq<(string, string)>, i: nat, j: nat)
    requires LineSections(sections) && i < |sections| && j < |sections|
    requires task.humanSection == sections[i].0 && task.section == sections[j].0 && task.humanSection != task.section
    requires task.target != "" && Line(task.note) && Line(task.fragment)
    ensures var body := SectionedBody(sections);
      && Generates(task, body)
      && StillFound(Split(body), FindSection(Split(body), Marker(task.section)),
                    Replaced(task.section, task.fragment), Marker(task.humanSection))
  {
    var body := SectionedBody(sections);
    var parts := Split(body);
    LineSectionsSplit(sections, i);
    LineSectionsSplit(sections, j);
    LineNoteStillFound(body, task.humanSection, task.note, task.section);
    SectionLineFits(task.section, task.fragment, IsLastSection(body, task.section));
    var h, g := FindSection(parts, Marker(task.humanSection)), FindSection(parts, Marker(task.section));
    if h == g { MarkersExclude(parts[h], task.humanSection, task.section); }
    FitsStillFound(parts, g, Replaced(task.section, task.fragment), task.section, task.humanSection);
  }

  // ---- The agent ----

  /**
   * What the agent may do in any order: read with `get_page`, `get_page_versions` or `search_pages`,
   * taking away one of the pages it is shown, or try to write the target.
   */
  datatype Move =
    | Look(id: string)
    | LookAtHistory(id: string, pick: nat)
    | Search(query: Option<string>, limit: int, offset: int, pick: nat)
    | Try

  function ReadingCall(move: Move): ToolCall
    requires !move.Try?
  {
    match move
    case Look(id) => GetPageTool(id)
    case LookAtHistory(id, _) => VersionsTool(id)
    case Search(query, limit, offset, _) => SearchTool(query, limit, offset)
  }

  function PagesIn(payload: Payload): seq<Page> {
    match payload
    case PagePayload(page) => [page]
    case ListPayload(items, _) => items
    case HistoryPayload(history) => history
    case ErrorPayload => []
  }

  /** The page that the agent takes away from an answer, if it is the target; else what it had before. */
  function Taken(last: Option<Page>, move: Move, payload: Payload, target: string): Option<Page> {
    var pages, pick := PagesIn(payload), if move.LookAtHistory? || move.Search? then move.pick else 0;
    if pick < |pages| && pages[pick].id == target then Some(pages[pick]) else last
  }

  /** The agent and the session it works in. `last` is the target page as the agent last read it. */
  datatype Play = Play(session: Session, last: Option<Page>, done: bool)

  /** One move of an agent that only ever writes the replacement into the body it last read, and stops at success. */
  function Turn(p: Play, task: ConcurrentTask, fold: Folding, actor: Actor, hook: Option<Hook>, move: Move, weather: Weather): Play {
    if p.done then p
    else match move
      case Try =>
        if p.last.None? then p
        else
          var body := ReplaceSection(p.last.value.body, task.section, task.fragment);
          if body.Err? then p
          else
            var e := Execute(p.session, fold, actor, hook,
                             UpdatePageTool(task.target, p.last.value.version, Some(body.value), None), weather);
            p.(session := e.session, done := !e.result.error)
      case _ =>
        var e := Execute(p.session, fold, actor, hook, ReadingCall(move), weather);
        p.(session := e.session, last := Taken(p.last, move, e.result.payload, task.target))
  }

  datatype Moment = Moment(move: Move, weather: Weather)

  function Playing(p: Play, task: ConcurrentTask, fold: Folding, actor: Actor, hook: Option<Hook>, schedule: seq<Moment>): Play {
    if schedule == [] then p
    else
      var n := |schedule| - 1;
      Turn(Playing(p, task, fold, actor, hook, schedule[..n]), task, fold, actor, hook, schedule[n].move, schedule[n].weather)
  }

  /** The world after the human edit and after the agent's write, `w` being the world before both. */
  function AfterBody(w: World, id: string, body: string): World
    requires id in w.pages && id in w.histories
  {
    var page := w.pages[id].(body := body, version := w.pages[id].version + 1);
    w.(pages := w.pages[id := page], histories := w.histories[id := w.histories[id] + [page]])
  }

  /**
   * The stages of a run without infrastructure errors, with the human edit made or not: the agent
   * holds some entry of the target's history, or it has finished.
   */
  predicate Staged(p: Play, w: World, task: ConcurrentTask, human: string, expected: string)
    requires Coherent(w) && task.target in w.pages
  {
    var edited := AfterBody(w, task.target, human);
    var alone := ReplaceSection(w.pages[task.target].body, task.section, task.fragment);
    p.session.infrastructureError ||
    (if !p.done then
       p.session.world == (if p.session.fired then edited else w)
       && (p.last.Some? ==> p.last.value in p.session.world.histories[task.target])
     else if p.session.fired then
       p.session.world == AfterBody(edited, task.target, expected)
     else
       alone.Ok? && p.session.world == AfterBody(w, task.target, alone.value))
  }

  lemma HumanEditReaches(w: World, id: string, body: string)
    requires Coherent(w) && id in w.pages
    ensures HumanEdit(w, id, body).world == AfterBody(w, id, body)
  {
    HumanEditOnCoherent(w, id, body);
    WrittenWorld(w, HumanEdit(w, id, body).world, id, HumanEdit(w, id, body).response.page, body);
  }

  lemma EditedIsCoherent(w: World, id: string, body: string)
    requires Coherent(w) && id in w.pages
    ensures Coherent(AfterBody(w, id, body))
  {
    HumanEditReaches(w, id, body);
    HumanEditOnCoherent(w, id, body);
  }

  /** A PUT of a new body that is refused changes nothing. */
  lemma PutRefused(w: World, fold: Folding, actor: Actor, id: string, n: int, body: string)
    requires Coherent(w) && id in w.pages
    requires PutPage(w, fold, actor, id, Version(n), None, Some(body)).response.Failed?
    ensures PutPage(w, fold, actor, id, Version(n), None, Some(body)).world == w
    ensures !(n == w.pages[id].version && CanAccess(w, w.pages[id], actor, WritePage, fold))
  {
    PutOnCoherent(w, fold, actor, id, Version(n), None, Some(body));
  }

  /** A PUT of a new body that succeeds was made against the current version and leaves the edited world. */
  lemma PutAccepted(w: World, fold: Folding, actor: Actor, id: string, n: int, body: string)
    requires Coherent(w) && id in w.pages
    requires !PutPage(w, fold, actor, id, Version(n), None, Some(body)).response.Failed?
    ensures n == w.pages[id].version
    ensures PutPage(w, fold, actor, id, Version(n), None, Some(body)).world == AfterBody(w, id, body)
  {
    PutOnCoherent(w, fold, actor, id, Version(n), None, Some(body));
    var r := PutPage(w, fold, actor, id, Version(n), None, Some(body));
    assert r.response.Page200?;
    WrittenWorld(w, r.world, id, r.response.page, body);
  }

  lemma WrittenWorld(w: World, v: World, id: string, written: Page, body: string)
    requires OneWrite(w, v, id, written)
    requires written == w.pages[id].(body := body, version := w.pages[id].version + 1)
    ensures v == AfterBody(w, id, body)
  {
  }

  lemma LiveIsKept(w: World, id: string)
    requires Coherent(w) && id in w.pages
    ensures w.pages[id] in w.histories[id] && w.pages[id].id == id
  {
    assert CoherentPage(id, w.pages[id], w.histories[id]);
  }

  /** Of all that the history keeps, only the live page has the current version. */
  lemma CurrentIsLive(w: World, id: string, page: Page)
    requires Coherent(w) && id in w.pages && page in w.histories[id] && page.version == w.pages[id].version
    ensures page == w.pages[id]
  {
    assert CoherentPage(id, w.pages[id], w.histories[id]);
  }

  /** Reading changes nothing, and every page it shows is kept in that page's history. */
  lemma {:induction false} ShownIsKept(w: World, fold: Folding, actor: Actor, move: Move, page: Page)
    requires Coherent(w) && !move.Try?
    ensures var answer := CallTool(w, fold, actor, ReadingCall(move));
      answer.world == w && (page in PagesIn(answer.result.payload) ==> page.id in w.pages && page in w.histories[page.id])
  {
    match move
    case Look(id) => if id in w.pages { LiveIsKept(w, id); }
    case LookAtHistory(id, _) => if id in w.pages { assert CoherentPage(id, w.pages[id], w.histories[id]); }
    case Search(query, limit, offset, _) =>
      if 1 <= limit <= 100 && 0 <= offset {
        ListShows(w, fold, actor, Some(SearchText(query)), limit, offset, page);
        if page.id in w.pages { LiveIsKept(w, page.id); }
      }
  }

  lemma EditExtends(w: World, id: string, body: string)
    requires Coherent(w) && id in w.pages
    ensures forall page | page in w.histories[id] :: page in AfterBody(w, id, body).histories[id]
  {
  }

  lemma TakenIsShown(last: Option<Page>, move: Move, payload: Payload, target: string)
    ensures var taken := Taken(last, move, payload, target);
      taken == last || (taken.Some? && taken.value.id == target && taken.value in PagesIn(payload))
  {
  }

  /** A reading call through the executor: at most the human edit happens, and only behind `get_page`. */
  lemma {:induction false} ReadExecuted(s: Session, fold: Folding, actor: Actor, hook: Hook, move: Move, weather: Weather)
    requires Coherent(s.world) && hook.pageId in s.world.pages && !move.Try?
    ensures var e := Execute(s, fold, actor, Some(hook), ReadingCall(move), weather);
      && (PagesIn(e.result.payload) == [] || e.result.payload == CallTool(s.world, fold, actor, ReadingCall(move)).result.payload)
      && (e.session.infrastructureError ==> s.infrastructureError || (e.session.fired && weather.controlDown))
      && (s.infrastructureError ==> e.session.infrastructureError)
      && (e.session.fired
          <==> s.fired
               || (!weather.worldDown && move == Look(hook.pageId)
                   && CanAccess(s.world, s.world.pages[hook.pageId], actor, ReadPage, fold)))
      && (if e.session.fired == s.fired then e.session.world == s.world
          else e.session.infrastructureError || e.session.world == AfterBody(s.world, hook.pageId, hook.body))
  {
    HumanEditReaches(s.world, hook.pageId, hook.body);
    HumanEditOnCoherent(s.world, hook.pageId, hook.body);
    ShownIsKept(s.world, fold, actor, move, s.world.pages[hook.pageId]);
  }

  lemma {:induction false} ReadStaged(
    p: Play, w: World, task: ConcurrentTask, fold: Folding, actor: Actor, move: Move, weather: Weather, human: string, expected: string)
    requires Coherent(w) && task.target in w.pages && !p.done && !move.Try?
    requires Staged(p, w, task, human, expected)
    ensures Staged(Turn(p, task, fold, actor, Some(Hook(task.target, human)), move, weather), w, task, human, expected)
  {
    var s, hook := p.session, Hook(task.target, human);
    EditedIsCoherent(w, task.target, human);
    EditExtends(w, task.target, human);
    var e := Execute(s, fold, actor, Some(hook), ReadingCall(move), weather);
    if !e.session.infrastructureError && !s.infrastructureError {
      ReadExecuted(s, fold, actor, hook, move, weather);
      TakenIsShown(p.last, move, e.result.payload, task.target);
      var taken := Taken(p.last, move, e.result.payload, task.target);
      if taken.Some? {
        ShownIsKept(s.world, fold, actor, move, taken.value);
      }
    } else if s.infrastructureError {
      AttemptExact(s, fold, actor, Some(hook), Issued(ReadingCall(move), weather));
    }
  }

  lemma {:induction false} WriteIsPut(
    s: Session, fold: Folding, actor: Actor, hook: Option<Hook>, id: string, n: int, body: string, weather: Weather)
    ensures Execute(s, fold, actor, hook, UpdatePageTool(id, n, Some(body), None), weather)
      == if weather.worldDown then Executed(s, ERROR_RESULT, false)
         else
           var r := PutPage(s.world, fold, actor, id, Version(n), None, Some(body));
           Executed(s.(world := r.world), FromResponse(r).result, false)
  {
  }

  /** A write through the executor: made against the current version, or nothing happens. The hook is never behind it. */
  lemma {:induction false} WriteExecuted(
    s: Session, fold: Folding, actor: Actor, hook: Option<Hook>, id: string, n: int, body: string, weather: Weather)
    requires Coherent(s.world) && id in s.world.pages
    ensures var e := Execute(s, fold, actor, hook, UpdatePageTool(id, n, Some(body), None), weather);
      && e.session == s.(world := e.session.world)
      && (if e.result.error then e.session.world == s.world
          else n == s.world.pages[id].version && e.session.world == AfterBody(s.world, id, body))
  {
    var r := PutPage(s.world, fold, actor, id, Version(n), None, Some(body));
    WriteIsPut(s, fold, actor, hook, id, n, body, weather);
    if r.response.Failed? {
      PutRefused(s.world, fold, actor, id, n, body);
    } else {
      PutAccepted(s.world, fold, actor, id, n, body);
    }
  }

  /** A try that succeeds wrote the replacement into the live page; any other try changes nothing. */
  lemma {:induction false} TryExecuted(p: Play, task: ConcurrentTask, fold: Folding, actor: Actor, hook: Option<Hook>, weather: Weather)
    requires Coherent(p.session.world) && task.target in p.session.world.pages && !p.done
    requires p.last.Some? ==> p.last.value in p.session.world.histories[task.target]
    ensures var w, q := p.session.world, Turn(p, task, fold, actor, hook, Try, weather);
      && q == p.(session := p.session.(world := q.session.world), done := q.done)
      && (if q.done then
            var body := ReplaceSection(w.pages[task.target].body, task.section, task.fragment);
            body.Ok? && q.session.world == AfterBody(w, task.target, body.value)
          else q.session.world == w)
  {
    if p.last.Some? {
      var body, n := ReplaceSection(p.last.value.body, task.section, task.fragment), p.last.value.version;
      if body.Ok? {
        WriteExecuted(p.session, fold, actor, hook, task.target, n, body.value, weather);
        if n == p.session.world.pages[task.target].version {
          CurrentIsLive(p.session.world, task.target, p.last.value);
        }
      }
    }
  }

  lemma {:induction false} TryStaged(
    p: Play, w: World, task: ConcurrentTask, fold: Folding, actor: Actor, weather: Weather, human: string, expected: string)
    requires Coherent(w) && task.target in w.pages && !p.done
    requires ReplaceSection(human, task.section, task.fragment) == Ok(expected)
    requires Staged(p, w, task, human, expected)
    ensures Staged(Turn(p, task, fold, actor, Some(Hook(task.target, human)), Try, weather), w, task, human, expected)
  {
    if p.session.infrastructureError {
      TryKeepsError(p, task, fold, actor, Some(Hook(task.target, human)), weather);
    } else {
      EditedIsCoherent(w, task.target, human);
      TryExecuted(p, task, fold, actor, Some(Hook(task.target, human)), weather);
    }
  }

  lemma {:induction false} TryKeepsError(p: Play, task: ConcurrentTask, fold: Folding, actor: Actor, hook: Option<Hook>, weather: Weather)
    requires p.session.infrastructureError
    ensures Turn(p, task, fold, actor, hook, Try, weather).session.infrastructureError
  {
  }

  /** Whatever the agent does next, and whatever the weather, a run stays within its stages. */
  lemma TurnStaged(p: Play, w: World, task: ConcurrentTask, fold: Folding, actor: Actor, move: Move, weather: Weather,
                   human: string, expected: string)
    requires Coherent(w) && task.target in w.pages
    requires ReplaceSection(human, task.section, task.fragment) == Ok(expected)
    requires Staged(p, w, task, human, expected)
    ensures Staged(Turn(p, task, fold, actor, Some(Hook(task.target, human)), move, weather), w, task, human, expected)
  {
    if !p.done {
      match move
      case Try => TryStaged(p, w, task, fold, actor, weather, human, expected);
      case _ => ReadStaged(p, w, task, fold, actor, move, weather, human, expected);
    }
  }

  lemma {:induction false} PlayingStaged(p: Play, w: World, task: ConcurrentTask, fold: Folding, actor: Actor, schedule: seq<Moment>,
                                         human: string, expected: string)
    requires Coherent(w) && task.target in w.pages
    requires ReplaceSection(human, task.section, task.fragment) == Ok(expected)
    requires Staged(p, w, task, human, expected)
    ensures Staged(Playing(p, task, fold, actor, Some(Hook(task.target, human)), schedule), w, task, human, expected)
    decreases |schedule|
  {
    if schedule != [] {
      var n := |schedule| - 1;
      PlayingStaged(p, w, task, fold, actor, schedule[..n], human, expected);
      TurnStaged(Playing(p, task, fold, actor, Some(Hook(task.target, human)), schedule[..n]), w, task, fold, actor,
                 schedule[n].move, schedule[n].weather, human, expected);
    }
  }

  function Start(w: World): Play {
    Play(Session(w, false, false), None, false)
  }

  lemma TwoEditsGrew(w: World, id: string, human: string, expected: string)
    requires Coherent(w) && id in w.pages
    ensures Grew(w, AfterBody(AfterBody(w, id, human), id, expected), id, 2)
  {
    assert CoherentPage(id, w.pages[id], w.histories[id]);
  }

  /** The fragment that the verifier takes for the human edit; with a note that is not empty it is the note. */
  function NoteSought(w: World, task: ConcurrentTask, human: string, expected: string): (note: Option<string>)
    ensures task.note != "" ==> note == Some(task.note)
  {
    HumanFragment(ConcurrentConfig(task, human, expected), w, task.target)
  }

  lemma TwoEditsVerdict(w: World, task: ConcurrentTask, human: string, expected: string)
    requires Coherent(w) && task.target in w.pages && Contains(expected, task.fragment)
    ensures var final := AfterBody(AfterBody(w, task.target, human), task.target, expected);
      var note := NoteSought(w, task, human, expected);
      AllPassed(ConcurrentAssertions(w, final, ConcurrentConfig(task, human, expected)))
      <==> task.target != "" && note.Some? && Contains(expected, note.value)
  {
    var config := ConcurrentConfig(task, human, expected);
    var final := AfterBody(AfterBody(w, task.target, human), task.target, expected);
    ConcurrentVerdict(w, final, config);
    TwoEditsEdited(w, task, human, expected);
    OneTarget(task.target);
    NoteDecides(w, final, task, human, expected);
  }

  lemma OneTarget(target: string)
    ensures ValidPageIds([target]) <==> target != ""
  {
    assert [target][0] == target;
  }

  lemma NoteDecides(w: World, final: World, task: ConcurrentTask, human: string, expected: string)
    requires task.target in final.pages && final.pages[task.target].body == expected
    ensures var note := NoteSought(w, task, human, expected);
      ConcurrencyOk(w, final, ConcurrentConfig(task, human, expected)) <==> note.Some? && Contains(expected, note.value)
  {
  }

  lemma TwoEditsEdited(w: World, task: ConcurrentTask, human: string, expected: string)
    requires Coherent(w) && task.target in w.pages && Contains(expected, task.fragment)
    ensures var final := AfterBody(AfterBody(w, task.target, human), task.target, expected);
      Edited(w, final, ConcurrentConfig(task, human, expected), true, TwoFor(task.target))
  {
    var config := ConcurrentConfig(task, human, expected);
    var final := AfterBody(AfterBody(w, task.target, human), task.target, expected);
    assert Targets(config) == {task.target};
    TwoEditsGrew(w, task.target, human, expected);
    assert ContentOk(final, config, true, task.target);
    assert RestUnchanged(w, final, {task.target});
  }

  lemma ReplacedContains(body: string, heading: string, content: string)
    requires HasSection(body, heading)
    ensures Contains(ReplaceSection(body, heading, content).value, content)
  {
    EditContains(body, heading, Replaced(heading, content), 0);
    ContainsMiddle(Marker(heading), content, "");
    assert Marker(heading) + content + "" == Replaced(heading, content);
    ContainsTransitive(ReplaceSection(body, heading, content).value, Replaced(heading, content), content);
  }

  /** One version on is not two: a run that made a single write never passes. */
  lemma OneEditFails(w: World, task: ConcurrentTask, human: string, expected: string, body: string)
    requires Coherent(w) && task.target in w.pages
    ensures !AllPassed(ConcurrentAssertions(w, AfterBody(w, task.target, body), ConcurrentConfig(task, human, expected)))
  {
    var config, final := ConcurrentConfig(task, human, expected), AfterBody(w, task.target, body);
    ConcurrentVerdict(w, final, config);
    assert config.expectedPageIds[0] == task.target && task.target in Targets(config);
    assert !BumpedBy(w, final, task.target, 2);
  }

  /**
   * What finishing a concurrent-edit task amounts to, exactly. Take any coherent world and any task
   * whose expected body exists on one of its pages. Under every schedule of reads with any reading
   * tool, tries and outages in which the agent gets to write, and no control failure occurred: if
   * the human edit was made, the final body is the scenario's expected body, two versions on; if it
   * was not, the agent's replacement stands alone, one version on. Every assertion of the concurrency
   * verifier passes if and only if the human edit was made and the expected body still holds the note.
   */
  lemma ConcurrentEditCompletes(w: World, task: ConcurrentTask, fold: Folding, actor: Actor, schedule: seq<Moment>)
    requires Coherent(w) && task.target in w.pages && FinalBody(task, w.pages[task.target].body).Ok?
    ensures var body := w.pages[task.target].body;
      var human, expected := HumanBody(task, body), FinalBody(task, body);
      && human.Ok?
      && var end := Playing(Start(w), task, fold, actor, Some(Hook(task.target, human.value)), schedule);
         end.done && !end.session.infrastructureError ==>
           var final, fired := end.session.world, end.session.fired;
           var note := NoteSought(w, task, human.value, expected.value);
           && task.target in final.pages
           && Ok(final.pages[task.target].body) == (if fired then expected else ReplaceSection(body, task.section, task.fragment))
           && final.pages[task.target].version == w.pages[task.target].version + (if fired then 2 else 1)
           && (AllPassed(ConcurrentAssertions(w, final, ConcurrentConfig(task, human.value, expected.value)))
               <==> fired && task.target != "" && note.Some? && Contains(expected.value, note.value))
  {
    var body := w.pages[task.target].body;
    var human, expected := HumanBody(task, body).value, FinalBody(task, body).value;
    ReplacedContains(human, task.section, task.fragment);
    PlayingStaged(Start(w), w, task, fold, actor, schedule, human, expected);
    TwoEditsVerdict(w, task, human, expected);
    var alone := ReplaceSection(body, task.section, task.fragment);
    if alone.Ok? {
      OneEditFails(w, task, human, expected, alone.value);
    }
  }

  predicate LooksAtTarget(task: ConcurrentTask, moment: Moment) {
    moment.move == Look(task.target) && !moment.weather.worldDown
  }

  /** Move `k` of a schedule is made, and is a `get_page` of the target that reaches the world. */
  predicate LooksAt(w: World, task: ConcurrentTask, fold: Folding, actor: Actor, hook: Option<Hook>, schedule: seq<Moment>, k: nat)
    requires k < |schedule|
  {
    LooksAtTarget(task, schedule[k]) && !Playing(Start(w), task, fold, actor, hook, schedule[..k]).done
  }

  ghost predicate Looked(w: World, task: ConcurrentTask, fold: Folding, actor: Actor, hook: Option<Hook>, schedule: seq<Moment>) {
    exists k | 0 <= k < |schedule| :: LooksAt(w, task, fold, actor, hook, schedule, k)
  }

  lemma {:induction false} LookedNext(
    w: World, task: ConcurrentTask, fold: Folding, actor: Actor, hook: Option<Hook>, schedule: seq<Moment>, n: nat)
    requires |schedule| == n + 1
    ensures Looked(w, task, fold, actor, hook, schedule)
      <==> Looked(w, task, fold, actor, hook, schedule[..n]) || LooksAt(w, task, fold, actor, hook, schedule, n)
  {
    forall k | 0 <= k < n
      ensures LooksAt(w, task, fold, actor, hook, schedule, k) == LooksAt(w, task, fold, actor, hook, schedule[..n], k)
    {
      assert schedule[..n][..k] == schedule[..k];
    }
  }

  lemma {:induction false} TurnFires(
    p: Play, w: World, task: ConcurrentTask, fold: Folding, actor: Actor, moment: Moment, human: string, expected: string)
    requires Coherent(w) && task.target in w.pages && Staged(p, w, task, human, expected)
    requires p.session.infrastructureError ==> p.session.fired
    ensures var q := Turn(p, task, fold, actor, Some(Hook(task.target, human)), moment.move, moment.weather);
      && (q.session.infrastructureError ==> q.session.fired)
      && (q.session.fired
          <==> p.session.fired
               || (!p.done && LooksAtTarget(task, moment) && CanAccess(w, w.pages[task.target], actor, ReadPage, fold)))
  {
    if !p.done && !moment.move.Try? {
      if p.session.fired {
        AttemptExact(p.session, fold, actor, Some(Hook(task.target, human)), Issued(ReadingCall(moment.move), moment.weather));
      } else {
        ReadExecuted(p.session, fold, actor, Hook(task.target, human), moment.move, moment.weather);
      }
    }
  }

  /**
   * When the human edit is made: exactly when the agent may read the target and does so with
   * `get_page` before it has finished. Neither searching nor reading the history brings it about.
   */
  lemma {:induction false} EditMadeExactly(
    w: World, task: ConcurrentTask, fold: Folding, actor: Actor, schedule: seq<Moment>, human: string, expected: string)
    requires Coherent(w) && task.target in w.pages
    requires ReplaceSection(human, task.section, task.fragment) == Ok(expected)
    ensures var hook := Some(Hook(task.target, human));
      var end := Playing(Start(w), task, fold, actor, hook, schedule);
      && (end.session.infrastructureError ==> end.session.fired)
      && (end.session.fired
          <==> CanAccess(w, w.pages[task.target], actor, ReadPage, fold) && Looked(w, task, fold, actor, hook, schedule))
    decreases |schedule|
  {
    if schedule != [] {
      var n, hook := |schedule| - 1, Some(Hook(task.target, human));
      EditMadeExactly(w, task, fold, actor, schedule[..n], human, expected);
      PlayingStaged(Start(w), w, task, fold, actor, schedule[..n], human, expected);
      TurnFires(Playing(Start(w), task, fold, actor, hook, schedule[..n]), w, task, fold, actor, schedule[n], human, expected);
      LookedNext(w, task, fold, actor, hook, schedule, n);
    }
  }

  /** A section A, a section B that came along with it, and the section B that was there. */
  function ThreeSections(first: string, second: string, third: string): seq<string> {
    [Replaced("A", first), Replaced("B", second), Replaced("B", third)]
  }

  lemma {:induction false} ThreeSectionsSplit(first: string, second: string, third: string)
    requires first != "" && !HasSeparator(first) && first[0] != '\n' && !EndsInNewline(first) && Line(second) && Line(third)
    ensures var parts := ThreeSections(first, second, third);
      && Splittable(parts) && !StartsWith(parts[0], Marker("B"))
      && StartsWith(parts[1], Marker("B")) && !StartsWith(parts[1], Marker("A"))
  {
    SectionSeparators("A", first);
    SectionSeparators("B", second);
    SectionSeparators("B", third);
    if StartsWith(Replaced("A", first), Marker("B")) { MarkersExclude(Replaced("A", first), "A", "B"); }
    if StartsWith(Replaced("B", second), Marker("A")) { MarkersExclude(Replaced("B", second), "A", "B"); }
  }

  lemma {:induction false} TwoSectionsEdit(a: string, b: string, text: string)
    requires Line(a) && Line(b)
    ensures var body := Replaced("A", a) + BLANK_LINE + Replaced("B", b);
      && ReplaceSection(body, "A", text) == Ok(Replaced("A", text) + BLANK_LINE + Replaced("B", b))
      && AppendToSection(body, "A", text) == Ok(Extended(Replaced("A", a), text) + BLANK_LINE + Replaced("B", b))
  {
    var parts := [Replaced("A", a), Replaced("B", b)];
    TwoSections("A", a, "B", b);
    forall t: string ensures Join(parts[0 := t]) == t + BLANK_LINE + Replaced("B", b) {
      assert parts[0 := t][1..] == [Replaced("B", b)];
    }
  }

  lemma ThreeSectionsJoin(a: string, b: string, c: string)
    ensures Join([a, b, c]) == a + BLANK_LINE + b + BLANK_LINE + c
  {
    assert [a, b, c][1..] == [b, c] && [b, c][1..] == [c];
    assert Join([b, c]) == b + BLANK_LINE + c;
    assert a + BLANK_LINE + (b + BLANK_LINE + c) == a + BLANK_LINE + b + BLANK_LINE + c;
  }

  /** The expected body when a note for A brings along a section B: the replacement lands on the section that came along. */
  lemma {:induction false} CapturedNote(target: string, a: string, b: string, x: string, y: string, z: string)
    requires Line(a) && Line(b) && Line(x) && Line(y) && Line(z)
    ensures FinalBody(ConcurrentTask(target, "A", x + BLANK_LINE + Replaced("B", y), "B", z),
                         Replaced("A", a) + BLANK_LINE + Replaced("B", b))
      == Ok(Replaced("A", a + "\n" + x) + BLANK_LINE + Replaced("B", z) + BLANK_LINE + Replaced("B", b))
  {
    var note, first := x + BLANK_LINE + Replaced("B", y), a + "\n" + x;
    var before, after := ThreeSections(first, y, b), ThreeSections(first, z, b);
    TwoSectionsEdit(a, b, note);
    assert Extended(Replaced("A", a), note) == Replaced("A", first) + BLANK_LINE + Replaced("B", y);
    ThreeSectionsJoin(before[0], before[1], before[2]);
    LinesJoined(a, x);
    ThreeSectionsSplit(first, y, b);
    EditOfJoin(before, 1, "B", z);
    assert before[1 := Replaced("B", z)] == after;
    ThreeSectionsJoin(after[0], after[1], after[2]);
  }

  lemma ReplacedInjective(h: string, x: string, y: string)
    requires Replaced(h, x) == Replaced(h, y)
    ensures x == y
  {
    assert Replaced(h, x)[|Marker(h)|..] == x && Replaced(h, y)[|Marker(h)|..] == y;
  }

  /** On such tasks the two orders differ, but for the coincidence that all three sections B have the same content. */
  lemma {:induction false} CapturedNoteCommutes(target: string, a: string, b: string, x: string, y: string, z: string)
    requires Line(a) && Line(b) && Line(x) && Line(y) && Line(z)
    ensures var note, body := x + BLANK_LINE + Replaced("B", y), Replaced("A", a) + BLANK_LINE + Replaced("B", b);
      var replaced := ReplaceSection(body, "B", z);
      && replaced.Ok?
      && (FinalBody(ConcurrentTask(target, "A", note, "B", z), body) == AppendToSection(replaced.value, "A", note)
          <==> y == z == b)
  {
    var note, first := x + BLANK_LINE + Replaced("B", y), a + "\n" + x;
    var parts := [Replaced("A", a), Replaced("B", b)];
    TwoSections("A", a, "B", b);
    assert parts[1 := Replaced("B", z)] == [Replaced("A", a), Replaced("B", z)];
    assert Join([Replaced("A", a), Replaced("B", z)][1..]) == Replaced("B", z);
    TwoSectionsEdit(a, z, note);
    assert Extended(Replaced("A", a), note) == Replaced("A", first) + BLANK_LINE + Replaced("B", y);
    CapturedNote(target, a, b, x, y, z);
    LinesJoined(a, x);
    ThreeSectionsDiffer(first, z, b, y, z);
  }

  lemma {:induction false} ThreeSectionsDiffer(first: string, s: string, t: string, u: string, v: string)
    requires first != "" && !HasSeparator(first) && first[0] != '\n' && !EndsInNewline(first)
    requires Line(s) && Line(t) && Line(u) && Line(v)
    ensures var front := Replaced("A", first) + BLANK_LINE;
      front + Replaced("B", s) + BLANK_LINE + Replaced("B", t) == front + Replaced("B", u) + BLANK_LINE + Replaced("B", v)
      <==> s == u && t == v
  {
    var one, two := ThreeSections(first, s, t), ThreeSections(first, u, v);
    ThreeSectionsJoin(one[0], one[1], one[2]);
    ThreeSectionsJoin(two[0], two[1], two[2]);
    ThreeSectionsSplit(first, s, t);
    ThreeSectionsSplit(first, u, v);
    SplitOfJoin(one);
    SplitOfJoin(two);
    if Join(one) == Join(two) {
      assert one[1] == two[1] && one[2] == two[2];
      ReplacedInjective("B", s, u);
      ReplacedInjective("B", t, v);
    }
  }

  lemma {:induction false} LinesJoined(a: string, x: string)
    requires Line(a) && Line(x)
    ensures var s := a + "\n" + x; s != "" && !HasSeparator(s) && s[0] != '\n' && !EndsInNewline(s)
  {
    var s := a + "\n" + x;
    forall k | 0 <= k < |s| - 1 ensures !SeparatorAt(s, k) {
      if k < |a| { assert s[k] == a[k]; } else { assert s[k + 1] == x[k - |a|]; }
    }
  }

  /** One such task: the expected body has lost the note, so that no run of it can pass. */
  lemma {:induction false} CapturedNoteExample()
    ensures var note := "x\n\n## B\ny";
      var expected := FinalBody(ConcurrentTask("p", "A", note, "B", "z"), "## A\na\n\n## B\nb");
      expected == Ok("## A\na\nx\n\n## B\nz\n\n## B\nb") && !Contains(expected.value, note)
  {
    CapturedNote("p", "a", "b", "x", "y", "z");
    CapturedTexts();
    if Contains("## A\na\nx\n\n## B\nz\n\n## B\nb", "x\n\n## B\ny") {
      ContainsChar("## A\na\nx\n\n## B\nz\n\n## B\nb", "x\n\n## B\ny", 'y');
    }
  }

  lemma CapturedTexts()
    ensures "x\n\n## B\ny" == "x" + BLANK_LINE + Replaced("B", "y") && 'y' in "x\n\n## B\ny"
    ensures "## A\na\n\n## B\nb" == Replaced("A", "a") + BLANK_LINE + Replaced("B", "b")
    ensures "## A\na\nx\n\n## B\nz\n\n## B\nb"
      == Replaced("A", "a" + "\n" + "x") + BLANK_LINE + Replaced("B", "z") + BLANK_LINE + Replaced("B", "b")
    ensures 'y' !in "## A\na\nx\n\n## B\nz\n\n## B\nb" && 'y' !in "## A\na\n\n## B\nb"
  {
    assert "x\n\n## B\ny"[|"x\n\n## B\ny"| - 1] == 'y';
  }

  /**
   * The same from the fixture on: whatever coherent fixture `generate` starts from, and whatever
   * sections with one-line contents it writes, the task it makes passes under every schedule that
   * finishes it if and only if the agent, who may read the target, did so with `get_page` before
   * finishing; otherwise the human edit was never made, and the task fails.
   */
  lemma GeneratedTaskCompletes(
    w: World, task: ConcurrentTask, title: string, sections: seq<(string, string)>, i: nat, j: nat,
    fold: Folding, actor: Actor, schedule: seq<Moment>)
    requires Coherent(w) && task.target in w.pages && task.target != ""
    requires LineSections(sections) && i < |sections| && j < |sections| && Line(task.note) && Line(task.fragment)
    requires task.humanSection == sections[i].0 && task.section == sections[j].0 && task.humanSection != task.section
    ensures var body := SectionedBody(sections);
      var v, human, expected := Prepared(w, task.target, title, body), HumanBody(task, body), FinalBody(task, body);
      && human.Ok? && expected.Ok?
      && var hook := Some(Hook(task.target, human.value));
         var end := Playing(Start(v), task, fold, actor, hook, schedule);
         end.done && !end.session.infrastructureError ==>
           var met := CanAccess(v, v.pages[task.target], actor, ReadPage, fold) && Looked(v, task, fold, actor, hook, schedule);
           && task.target in end.session.world.pages
           && end.session.world.pages[task.target].version
              == w.pages[task.target].version + (if met then 2 else 1)
           && (AllPassed(ConcurrentAssertions(v, end.session.world, ConcurrentConfig(task, human.value, expected.value)))
               <==> met)
  {
    var body := SectionedBody(sections);
    PreparedIsCoherent(w, task.target, title, body);
    SectionedBodyGenerates(task, sections, i, j);
    GeneratedBodies(task, body);
    var v := Prepared(w, task.target, title, body);
    ConcurrentEditCompletes(v, task, fold, actor, schedule);
    EditMadeExactly(v, task, fold, actor, schedule, HumanBody(task, body).value, FinalBody(task, body).value);
  }

  const CLEAR: Weather := Weather(false, false)

  lemma EditKeepsAccess(w: World, id: string, body: string, actor: Actor, op: Operation, fold: Folding)
    requires id in w.pages && id in w.histories
    ensures var v := AfterBody(w, id, body); CanAccess(v, v.pages[id], actor, op, fold) == CanAccess(w, w.pages[id], actor, op, fold)
  {
    var v := AfterBody(w, id, body);
    AccessUnaffected(w, v, w.pages[id], v.pages[id], actor, op, fold);
  }

  lemma PutCurrent(w: World, fold: Folding, actor: Actor, id: string, body: string)
    requires Coherent(w) && id in w.pages && CanAccess(w, w.pages[id], actor, WritePage, fold)
    ensures !PutPage(w, fold, actor, id, Version(w.pages[id].version), None, Some(body)).response.Failed?
  {
    PutOnCoherent(w, fold, actor, id, Version(w.pages[id].version), None, Some(body));
  }

  /** A look in clear weather, at a page that is there and may be read, shows it as it was before any hook. */
  lemma {:induction false} LookShows(s: Session, fold: Folding, actor: Actor, hook: Hook)
    requires Coherent(s.world) && hook.pageId in s.world.pages
    requires CanAccess(s.world, s.world.pages[hook.pageId], actor, ReadPage, fold)
    ensures var e := Execute(s, fold, actor, Some(hook), GetPageTool(hook.pageId), CLEAR);
      && e.session.fired && e.session.infrastructureError == s.infrastructureError
      && e.result.payload == PagePayload(s.world.pages[hook.pageId])
  {
    HumanEditOnCoherent(s.world, hook.pageId, hook.body);
  }

  /** A successful look in clear weather: the agent ends up holding the page as it was before any hook. */
  lemma {:induction false} LookReads(
    p: Play, w: World, task: ConcurrentTask, fold: Folding, actor: Actor, human: string, expected: string)
    requires Coherent(w) && task.target in w.pages && !p.done && !p.session.infrastructureError
    requires CanAccess(w, w.pages[task.target], actor, WritePage, fold)
    requires Staged(p, w, task, human, expected)
    ensures var q := Turn(p, task, fold, actor, Some(Hook(task.target, human)), Look(task.target), CLEAR);
      && !q.done && q.session.fired && !q.session.infrastructureError
      && q.last == Some(p.session.world.pages[task.target])
  {
    WriteImpliesRead(w, w.pages[task.target], actor, fold);
    EditKeepsAccess(w, task.target, human, actor, ReadPage, fold);
    EditedIsCoherent(w, task.target, human);
    LiveIsKept(p.session.world, task.target);
    LookShows(p.session, fold, actor, Hook(task.target, human));
  }

  /** Trying in clear weather, holding the page as it now is, finishes the task. */
  lemma TryFinishes(p: Play, w: World, task: ConcurrentTask, fold: Folding, actor: Actor, human: string, expected: string)
    requires Coherent(w) && task.target in w.pages && !p.done && p.session.fired && !p.session.infrastructureError
    requires CanAccess(w, w.pages[task.target], actor, WritePage, fold)
    requires ReplaceSection(human, task.section, task.fragment) == Ok(expected)
    requires Staged(p, w, task, human, expected) && p.last == Some(p.session.world.pages[task.target])
    ensures var q := Turn(p, task, fold, actor, Some(Hook(task.target, human)), Try, CLEAR);
      q.done && q.session.fired && !q.session.infrastructureError
  {
    EditedIsCoherent(w, task.target, human);
    EditKeepsAccess(w, task.target, human, actor, WritePage, fold);
    PutCurrent(AfterBody(w, task.target, human), fold, actor, task.target, expected);
  }

  /** A retrying agent is never stuck: whatever happened before, looking twice and trying finishes the task, human edit included. */
  lemma RetryFinishes(p: Play, w: World, task: ConcurrentTask, fold: Folding, actor: Actor, human: string, expected: string)
    requires Coherent(w) && task.target in w.pages && !p.done && !p.session.infrastructureError
    requires CanAccess(w, w.pages[task.target], actor, WritePage, fold)
    requires ReplaceSection(human, task.section, task.fragment) == Ok(expected)
    requires Staged(p, w, task, human, expected)
    ensures var hook := Some(Hook(task.target, human));
      var seen := Turn(p, task, fold, actor, hook, Look(task.target), CLEAR);
      var again := Turn(seen, task, fold, actor, hook, Look(task.target), CLEAR);
      var end := Turn(again, task, fold, actor, hook, Try, CLEAR);
      end.done && end.session.fired && !end.session.infrastructureError
  {
    var hook := Some(Hook(task.target, human));
    var seen := Turn(p, task, fold, actor, hook, Look(task.target), CLEAR);
    LookReads(p, w, task, fold, actor, human, expected);
    TurnStaged(p, w, task, fold, actor, Look(task.target), CLEAR, human, expected);
    var again := Turn(seen, task, fold, actor, hook, Look(task.target), CLEAR);
    LookReads(seen, w, task, fold, actor, human, expected);
    TurnStaged(seen, w, task, fold, actor, Look(task.target), CLEAR, human, expected);
    assert again.session.world == seen.session.world;
    TryFinishes(again, w, task, fold, actor, human, expected);
  }

  // ---- Runs that finish without the human edit ----

  lemma {:induction false} TryUnseen(p: Play, w: World, task: ConcurrentTask, fold: Folding, actor: Actor, hook: Option<Hook>)
    requires Coherent(w) && task.target in w.pages && CanAccess(w, w.pages[task.target], actor, WritePage, fold)
    requires HasSection(w.pages[task.target].body, task.section)
    requires p == Play(Session(w, false, false), Some(w.pages[task.target]), false)
    ensures var q := Turn(p, task, fold, actor, hook, Try, CLEAR);
      var body := ReplaceSection(w.pages[task.target].body, task.section, task.fragment).value;
      q.done && q.session == Session(AfterBody(w, task.target, body), false, false)
  {
    var body := ReplaceSection(w.pages[task.target].body, task.section, task.fragment).value;
    PutCurrent(w, fold, actor, task.target, body);
    PutAccepted(w, fold, actor, task.target, w.pages[task.target].version, body);
  }

  lemma TwoMoves(p: Play, task: ConcurrentTask, fold: Folding, actor: Actor, hook: Option<Hook>, first: Moment, second: Moment)
    ensures Playing(p, task, fold, actor, hook, [first, second])
      == Turn(Turn(p, task, fold, actor, hook, first.move, first.weather), task, fold, actor, hook, second.move, second.weather)
  {
    assert [first, second][..1] == [first] && [first][..0] == [];
    assert Playing(p, task, fold, actor, hook, [first]) == Turn(p, task, fold, actor, hook, first.move, first.weather);
  }

  /** An agent that learned the live page by other means than `get_page`, and writes at once, finishes and fails. */
  lemma {:induction false} UnseenEditFails(
    w: World, task: ConcurrentTask, fold: Folding, actor: Actor, move: Move, human: string, expected: string)
    requires Coherent(w) && task.target in w.pages && CanAccess(w, w.pages[task.target], actor, WritePage, fold)
    requires HasSection(w.pages[task.target].body, task.section) && (move.LookAtHistory? || move.Search?)
    requires var seen := Turn(Start(w), task, fold, actor, Some(Hook(task.target, human)), move, CLEAR);
      seen.last == Some(w.pages[task.target])
    ensures var end := Playing(Start(w), task, fold, actor, Some(Hook(task.target, human)), [Moment(move, CLEAR), Moment(Try, CLEAR)]);
      && end.done && !end.session.fired && !end.session.infrastructureError
      && !AllPassed(ConcurrentAssertions(w, end.session.world, ConcurrentConfig(task, human, expected)))
  {
    var hook := Some(Hook(task.target, human));
    var seen := Turn(Start(w), task, fold, actor, hook, move, CLEAR);
    ReadExecuted(Start(w).session, fold, actor, hook.value, move, CLEAR);
    TwoMoves(Start(w), task, fold, actor, hook, Moment(move, CLEAR), Moment(Try, CLEAR));
    TryUnseen(seen, w, task, fold, actor, hook);
    OneEditFails(w, task, human, expected, ReplaceSection(w.pages[task.target].body, task.section, task.fragment).value);
  }

  lemma {:induction false} HistoryShowsLive(w: World, task: ConcurrentTask, fold: Folding, actor: Actor, hook: Option<Hook>)
    requires Coherent(w) && task.target in w.pages && CanAccess(w, w.pages[task.target], actor, WritePage, fold)
    requires w.histories[task.target] != []
    ensures Turn(Start(w), task, fold, actor, hook, LookAtHistory(task.target, |w.histories[task.target]| - 1), CLEAR).last
      == Some(w.pages[task.target])
  {
    assert CoherentPage(task.target, w.pages[task.target], w.histories[task.target]);
    WriteImpliesRead(w, w.pages[task.target], actor, fold);
  }

  /** Every actor who may write the target can do that by reading the history, whose last entry is the live page. */
  lemma {:induction false} HistoryThenWriteFails(
    w: World, task: ConcurrentTask, fold: Folding, actor: Actor, human: string, expected: string)
    requires Coherent(w) && task.target in w.pages && CanAccess(w, w.pages[task.target], actor, WritePage, fold)
    requires HasSection(w.pages[task.target].body, task.section)
    ensures var look := LookAtHistory(task.target, |w.histories[task.target]| - 1);
      var end := Playing(Start(w), task, fold, actor, Some(Hook(task.target, human)), [Moment(look, CLEAR), Moment(Try, CLEAR)]);
      && end.done && !end.session.fired && !end.session.infrastructureError
      && !AllPassed(ConcurrentAssertions(w, end.session.world, ConcurrentConfig(task, human, expected)))
  {
    assert CoherentPage(task.target, w.pages[task.target], w.histories[task.target]);
    HistoryShowsLive(w, task, fold, actor, Some(Hook(task.target, human)));
    UnseenEditFails(w, task, fold, actor, LookAtHistory(task.target, |w.histories[task.target]| - 1), human, expected);
  }

  /** And by any search that the target matches: a search for it alone, at its position among the matches, is one. */
  lemma {:induction false} SearchThenWriteFails(
    w: World, task: ConcurrentTask, fold: Folding, actor: Actor, query: string, j: nat, human: string, expected: string)
    requires Coherent(w) && task.target in w.pages && CanAccess(w, w.pages[task.target], actor, WritePage, fold)
    requires HasSection(w.pages[task.target].body, task.section)
    requires j < |ListedIds(w, fold, actor, Some(query))| && ListedIds(w, fold, actor, Some(query))[j] == task.target
    ensures var end := Playing(Start(w), task, fold, actor, Some(Hook(task.target, human)),
                               [Moment(Search(Some(query), 1, j, 0), CLEAR), Moment(Try, CLEAR)]);
      && end.done && !end.session.fired && !end.session.infrastructureError
      && !AllPassed(ConcurrentAssertions(w, end.session.world, ConcurrentConfig(task, human, expected)))
  {
    VisibleAt(w, fold, actor, Some(query), j);
    SliceAt(VisiblePages(w, fold, actor, Some(query)), 1, j, 0);
    UnseenEditFails(w, task, fold, actor, Search(Some(query), 1, j, 0), human, expected);
  }

  // ---- Preservation ----

  /** A task of the preservation family: replace one section, or append one. */
  datatype PreservationTask =
    | ReplaceTask(target: string, section: string, fragment: string)
    | AppendTask(target: string, section: string, fragment: string)

  /** `generate` asks one thing of the page: that the section to replace is there. */
  predicate CanGenerate(task: PreservationTask, body: string) {
    task.ReplaceTask? ==> HasSection(body, task.section)
  }

  /** A replacement that leaves the other sections as they were. */
  predicate Focused(task: PreservationTask, body: string)
    requires CanGenerate(task, body)
  {
    task.ReplaceTask? ==> KeepsToItself(Replaced(task.section, task.fragment), task.section, IsLastSection(body, task.section))
  }

  function FocusedBody(task: PreservationTask, body: string): string
    requires CanGenerate(task, body)
  {
    match task
    case ReplaceTask(_, section, fragment) => ReplaceSection(body, section, fragment).value
    case AppendTask(_, section, fragment) => AppendSection(body, section, fragment)
  }

  /** The sections that must survive: all of them when appending, all but the edited one when replacing. */
  function PreservedTexts(task: PreservationTask, body: string): seq<string>
    requires CanGenerate(task, body)
  {
    match task
    case ReplaceTask(_, section, _) => SectionTexts(FocusedBody(task, body), Some(section))
    case AppendTask(_, _, _) => SectionTexts(body, None)
  }

  function PreservationConfig(task: PreservationTask, w: World): Config
    requires task.target in w.pages && CanGenerate(task, w.pages[task.target].body)
  {
    var body := w.pages[task.target].body;
    Config([task.target], map[task.target := task.fragment], OneBody(FocusedBody(task, body)),
           Some(PreservedTexts(task, body)), SortedIds(w.pages.Keys - {task.target}), None, None)
  }

  /**
   * What the configuration asks for: the one target, and every other page untouched. An appending
   * edit must keep all sections of the body. What a replacing edit must keep is the sections of the
   * body not under the edited heading if and only if the edit is focused.
   */
  lemma {:induction false} PreservationAsks(task: PreservationTask, w: World, page: string, text: string)
    requires task.target in w.pages && CanGenerate(task, w.pages[task.target].body)
    ensures var body, config := w.pages[task.target].body, PreservationConfig(task, w);
      && config.expectedPageIds == [task.target] && config.preservedFragments.Some?
      && StrictlySorted(config.forbiddenPageIds)
      && (page in config.forbiddenPageIds <==> page in w.pages && page != task.target)
      && (task.AppendTask? ==> config.preservedFragments.value == Split(body))
      && (task.ReplaceTask? ==>
            && (config.preservedFragments.value == SectionTexts(body, Some(task.section)) <==> Focused(task, body))
            && (Focused(task, body) ==>
                  multiset(config.preservedFragments.value)[text]
                  == if StartsWith(text, "## " + task.section + "\n") then 0 else multiset(Split(body))[text]))
  {
    var body := w.pages[task.target].body;
    SortedIdsSorted(w.pages.Keys - {task.target});
    if task.ReplaceTask? {
      ReplaceFrames(body, task.section, task.fragment);
      SectionTextsExact(body, task.section, text);
    }
  }

  /** `generate` in place: it fails exactly when the section to replace is missing. */
  method GeneratePreservation(store: ConfluenceStore, task: PreservationTask, title: string, sections: seq<(string, string)>)
    returns (r: Result<Config, SectionError>)
    requires task.target in store.pages
    modifies store
    ensures store.State() == Prepared(old(store.State()), task.target, title, SectionedBody(sections))
    ensures store.State().pages[task.target].body == SectionedBody(sections)
    ensures r == if CanGenerate(task, SectionedBody(sections)) then Ok(PreservationConfig(task, store.State()))
                 else Err(SectionNotFound(task.section))
  {
    store.SetPage(task.target, Some(title), None);
    var body := SectionedBody(sections);
    store.SetPage(task.target, None, Some(body));
    var expected: string;
    match task {
      case ReplaceTask(_, section, fragment) =>
        var replaced := ReplaceInPlace(body, section, fragment);
        if replaced.Err? {
          return Err(replaced.error);
        }
        expected := replaced.value;
      case AppendTask(_, section, fragment) =>
        expected := AppendSection(body, section, fragment);
    }
    var forbidden := SortedIds(store.pages.Keys - {task.target});
    var preserved := if task.AppendTask? then SectionTexts(body, None) else SectionTexts(expected, Some(task.section));
    r := Ok(Config([task.target], map[task.target := task.fragment], OneBody(expected), Some(preserved), forbidden, None, None));
  }

  lemma FocusedContainsFragment(task: PreservationTask, body: string)
    requires CanGenerate(task, body)
    ensures Contains(FocusedBody(task, body), task.fragment)
  {
    match task
    case ReplaceTask(_, section, fragment) => ReplacedContains(body, section, fragment);
    case AppendTask(_, section, fragment) =>
      ContainsMiddle(body + BLANK_LINE + Marker(section), fragment, "");
      assert body + BLANK_LINE + Marker(section) + fragment + "" == FocusedBody(task, body);
  }

  lemma PreservedByReplacing(body: string, section: string, fragment: string, text: string)
    requires HasSection(body, section) && text in SectionTexts(ReplaceSection(body, section, fragment).value, Some(section))
    ensures Contains(ReplaceSection(body, section, fragment).value, text)
    ensures KeepsToItself(Replaced(section, fragment), section, IsLastSection(body, section)) ==> Contains(body, text)
  {
    var replaced := ReplaceSection(body, section, fragment).value;
    InExcluding(Split(replaced), Marker(section), text);
    PartContained(replaced, text);
    ReplaceFrames(body, section, fragment);
    if KeepsToItself(Replaced(section, fragment), section, IsLastSection(body, section)) {
      InExcluding(Split(body), Marker(section), text);
      PartContained(body, text);
    }
  }

  lemma AppendContains(body: string, section: string, fragment: string)
    ensures Contains(AppendSection(body, section, fragment), body)
  {
    assert OccursAt(AppendSection(body, section, fragment), body, 0);
  }

  lemma PreservedByAppending(body: string, section: string, fragment: string, text: string)
    requires text in SectionTexts(body, None)
    ensures Contains(body, text) && Contains(AppendSection(body, section, fragment), text)
  {
    PartContained(body, text);
    AppendContains(body, section, fragment);
    ContainsTransitive(AppendSection(body, section, fragment), body, text);
  }

  /** Every preserved text is part of the edited body, and of the body before if the edit is focused. */
  lemma PreservedInBoth(task: PreservationTask, body: string, text: string)
    requires CanGenerate(task, body) && text in PreservedTexts(task, body)
    ensures Contains(FocusedBody(task, body), text)
    ensures Focused(task, body) ==> Contains(body, text)
  {
    match task
    case ReplaceTask(_, section, fragment) => PreservedByReplacing(body, section, fragment, text);
    case AppendTask(_, section, fragment) => PreservedByAppending(body, section, fragment, text);
  }

  lemma PartContained(body: string, text: string)
    requires text in Split(body)
    ensures Contains(body, text)
  {
    var k :| 0 <= k < |Split(body)| && Split(body)[k] == text;
    JoinContainsPart(Split(body), k);
    JoinOfSplit(body);
  }

  lemma OneEditIsEdited(w: World, task: PreservationTask)
    requires Coherent(w) && task.target in w.pages && CanGenerate(task, w.pages[task.target].body)
    ensures var config := PreservationConfig(task, w);
      Edited(w, AfterBody(w, task.target, FocusedBody(task, w.pages[task.target].body)), config, true, One())
  {
    var config := PreservationConfig(task, w);
    var final := AfterBody(w, task.target, FocusedBody(task, w.pages[task.target].body));
    FocusedContainsFragment(task, w.pages[task.target].body);
    assert CoherentPage(task.target, w.pages[task.target], w.histories[task.target]);
    assert Targets(config) == {task.target};
    assert ContentOk(final, config, true, task.target);
    assert Grew(w, final, task.target, 1);
  }

  lemma ForbiddenListValid(others: set<string>)
    ensures ValidPageIds(SortedIds(others)) <==> others != {} && "" !in others
  {
    SortedIdsSorted(others);
    if SortedIds(others) == [] {
      assert forall x | x in others :: x in SortedIds(others);
    } else {
      assert SortedIds(others)[0] in SortedIds(others);
    }
  }

  /** Every text that must survive was there before. */
  predicate AllThereBefore(task: PreservationTask, body: string)
    requires CanGenerate(task, body)
  {
    forall k | 0 <= k < |PreservedTexts(task, body)| :: Contains(body, PreservedTexts(task, body)[k])
  }

  lemma OneEditPreserves(w: World, task: PreservationTask)
    requires task.target in w.pages && task.target in w.histories && CanGenerate(task, w.pages[task.target].body)
    ensures var body := w.pages[task.target].body;
      Preserved(w, AfterBody(w, task.target, FocusedBody(task, body)), PreservationConfig(task, w))
      <==> AllThereBefore(task, body) && ValidPageIds(SortedIds(w.pages.Keys - {task.target}))
  {
    var body := w.pages[task.target].body;
    var final := AfterBody(w, task.target, FocusedBody(task, body));
    var texts := PreservedTexts(task, body);
    forall k | 0 <= k < |texts| ensures FragmentPreserved(w, final, task.target, texts[k]) <==> Contains(body, texts[k]) {
      PreservedInBoth(task, body, texts[k]);
    }
    forall page | page in SortedIds(w.pages.Keys - {task.target})
      ensures page in w.pages && page in final.pages && w.pages[page] == final.pages[page] {}
  }

  /**
   * Preservation completeness, exactly: writing the scenario's expected body once makes the
   * preservation verifier pass if and only if the world holds another page, no page has an empty
   * id, and every text that must survive was there before. With a single page the list of forbidden
   * pages is empty, which the verifier takes for a missing configuration.
   */
  lemma PreservationCompletes(w: World, task: PreservationTask)
    requires Coherent(w) && task.target in w.pages && CanGenerate(task, w.pages[task.target].body)
    ensures var body := w.pages[task.target].body;
      var write := NO_CHANGES.(body := Some(FocusedBody(task, body)));
      var final := Updated(w, task.target, write, Some(w.pages[task.target].version)).world;
      AllPassed(PreservationAssertions(w, final, PreservationConfig(task, w)))
      <==> w.pages.Keys != {task.target} && "" !in w.pages && AllThereBefore(task, body)
  {
    var expected := FocusedBody(task, w.pages[task.target].body);
    var config, final := PreservationConfig(task, w), AfterBody(w, task.target, expected);
    HumanEditReaches(w, task.target, expected);
    PreservationVerdict(w, final, config);
    OneEditIsEdited(w, task);
    OneEditPreserves(w, task);
    ForbiddenListValid(w.pages.Keys - {task.target});
  }

  /** A focused edit keeps every text that must survive. */
  lemma FocusedKeepsAll(task: PreservationTask, body: string)
    requires CanGenerate(task, body) && Focused(task, body)
    ensures AllThereBefore(task, body)
  {
    forall k | 0 <= k < |PreservedTexts(task, body)| ensures Contains(body, PreservedTexts(task, body)[k]) {
      PreservedInBoth(task, body, PreservedTexts(task, body)[k]);
    }
  }

  /** Every task with a one-line replacement on sections with one-line contents is focused. */
  lemma LineTaskIsFocused(task: PreservationTask, sections: seq<(string, string)>, i: nat)
    requires LineSections(sections) && i < |sections| && task.section == sections[i].0 && Line(task.fragment)
    ensures CanGenerate(task, SectionedBody(sections)) && Focused(task, SectionedBody(sections))
  {
    var body := SectionedBody(sections);
    LineSectionsSplit(sections, i);
    SectionLineFits(task.section, task.fragment, IsLastSection(body, task.section));
    FitsKeepsToItself(Replaced(task.section, task.fragment), task.section, IsLastSection(body, task.section));
  }

  /**
   * From the fixture on: whatever coherent fixture `generate` starts from, and whatever sections
   * with one-line contents it writes, writing the expected body once passes if and only if the
   * fixture has another page and no empty page id.
   */
  lemma GeneratedPreservationCompletes(
    w: World, task: PreservationTask, title: string, sections: seq<(string, string)>, i: nat)
    requires Coherent(w) && task.target in w.pages
    requires LineSections(sections) && i < |sections| && task.section == sections[i].0 && Line(task.fragment)
    ensures var body := SectionedBody(sections);
      var v := Prepared(w, task.target, title, body);
      && CanGenerate(task, body) && task.target in v.pages && v.pages[task.target].body == body
      && var write := NO_CHANGES.(body := Some(FocusedBody(task, body)));
         var final := Updated(v, task.target, write, Some(v.pages[task.target].version)).world;
         (AllPassed(PreservationAssertions(v, final, PreservationConfig(task, v)))
          <==> w.pages.Keys != {task.target} && "" !in w.pages)
  {
    var body := SectionedBody(sections);
    PreparedIsCoherent(w, task.target, title, body);
    LineTaskIsFocused(task, sections, i);
    FocusedKeepsAll(task, body);
    PreservationCompletes(Prepared(w, task.target, title, body), task);
  }

  /** A replacement for A that brings along a section B: that section has to survive. */
  lemma {:induction false} BroughtAlong(target: string, a: string, b: string, x: string, y: string)
    requires Line(a) && Line(b) && Line(x) && Line(y)
    ensures var task := ReplaceTask(target, "A", x + BLANK_LINE + Replaced("B", y));
      var body := Replaced("A", a) + BLANK_LINE + Replaced("B", b);
      CanGenerate(task, body) && Replaced("B", y) in PreservedTexts(task, body)
  {
    var text, parts := x + BLANK_LINE + Replaced("B", y), ThreeSections(x, y, b);
    TwoSectionsEdit(a, b, text);
    assert Replaced("A", text) == Replaced("A", x) + BLANK_LINE + Replaced("B", y);
    ThreeSectionsJoin(parts[0], parts[1], parts[2]);
    ThreeSectionsSplit(x, y, b);
    SplitOfJoin(parts);
    InExcluding(parts, Marker("A"), parts[1]);
  }

  /** One such task: the section that came along was not there before, so that the task cannot pass. */
  lemma {:induction false} UnfocusedExample()
    ensures var task, body := ReplaceTask("p", "A", "x\n\n## B\ny"), "## A\na\n\n## B\nb";
      CanGenerate(task, body) && !AllThereBefore(task, body)
  {
    CapturedTexts();
    BroughtAlong("p", "a", "b", "x", "y");
    assert Replaced("B", "y")[|Replaced("B", "y")| - 1] == 'y';
    NotThereBefore(ReplaceTask("p", "A", "x\n\n## B\ny"), "## A\na\n\n## B\nb", Replaced("B", "y"), 'y');
  }

  lemma NotThereBefore(task: PreservationTask, body: string, text: string, c: char)
    requires CanGenerate(task, body) && text in PreservedTexts(task, body) && c in text && c !in body
    ensures !AllThereBefore(task, body)
  {
    var k :| 0 <= k < |PreservedTexts(task, body)| && PreservedTexts(task, body)[k] == text;
    if Contains(body, text) {
      ContainsChar(body, text, c);
    }
  }

  /** One such world: its only page is the target, and no preservation task on it can pass. */
  lemma OnePageExample()
    ensures var page: Page := PageRecord("p", "s", "t", "## A\na", 1, "u", map[]);
      var w := World(map[], map[], map["p" := page], map["p" := [page]], map[]);
      var task := AppendTask("p", "B", "b");
      var write := NO_CHANGES.(body := Some(FocusedBody(task, page.body)));
      Coherent(w) && !AllPassed(PreservationAssertions(w, Updated(w, "p", write, Some(1)).world, PreservationConfig(task, w)))
  {
    var page: Page := PageRecord("p", "s", "t", "## A\na", 1, "u", map[]);
    var w := World(map[], map[], map["p" := page], map["p" := [page]], map[]);
    assert CoherentPage("p", page, [page]);
    assert w.pages.Keys == {"p"};
    PreservationCompletes(w, AppendTask("p", "B", "b"));
  }
}
