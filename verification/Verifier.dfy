/**
 * The state-based verifier: assertion lists computed from an initial and a final world,
 * and exactly which final worlds each list accepts.
 */
module Verifier {
  import opened Options
  import opened Ordering
  import opened Text
  import opened Values
  import opened StateDiff
  import opened Store

  datatype Category = Required | Forbidden | Invariant

  datatype ConfigError =
    | InvalidPageIds | DuplicatePageIds | MissingFragment(page: string) | MissingFinalBody(page: string)
    | InvalidPreservedFragments | InvalidForbiddenPages | MissingConcurrency | MissingConcurrencyPage
    | ConcurrencyPageMismatch | MissingHumanEdit

  /** Assertion ids. The source writes them as strings whose prefixes tell these kinds apart. */
  datatype AssertionId =
    | Configuration(error: ConfigError)
    | BodyContains(page: string) | BodyExact(page: string) | BumpedByOne(page: string)
    | NoOtherPagesChanged | UsersUnchanged | SpacesUnchanged | PermissionsUnchanged
    | HistoryUnchanged(page: string) | HistoryFinalPage(page: string) | HistoryLength(page: string)
    | HistoryPriorEntries(page: string) | HistoryFinalEntry(page: string)
    | PreservedFragment(page: string, index: nat) | ForbiddenPage(page: string)
    | HumanEditPreserved | BumpedByTwo | DeniedTarget | NoAttemptPersisted

  datatype Assertion = Assertion(id: AssertionId, passed: bool, category: Category)

  // ---- Assembling a result ----

  datatype VerificationResult = VerificationResult(
    passed: bool, score: real, assertions: seq<Assertion>,
    requiredPassed: bool, forbiddenPassed: bool, invariantsPassed: bool)

  predicate AllPassed(assertions: seq<Assertion>) {
    forall i | 0 <= i < |assertions| :: assertions[i].passed
  }

  predicate CategoryPassed(assertions: seq<Assertion>, c: Category) {
    forall i | 0 <= i < |assertions| :: assertions[i].category == c ==> assertions[i].passed
  }

  function PassedCount(assertions: seq<Assertion>): nat {
    if assertions == [] then 0
    else PassedCount(assertions[..|assertions| - 1]) + if assertions[|assertions| - 1].passed then 1 else 0
  }

  /** `build_result`: no assertions pass vacuously but score zero. */
  function BuildResult(assertions: seq<Assertion>): VerificationResult {
    VerificationResult(
      AllPassed(assertions),
      if assertions == [] then 0.0 else PassedCount(assertions) as real / |assertions| as real,
      assertions,
      CategoryPassed(assertions, Required), CategoryPassed(assertions, Forbidden), CategoryPassed(assertions, Invariant))
  }

  lemma {:induction false} CountBounds(assertions: seq<Assertion>)
    ensures PassedCount(assertions) <= |assertions|
    ensures PassedCount(assertions) == |assertions| <==> AllPassed(assertions)
    ensures PassedCount(assertions) == 0 <==> forall i | 0 <= i < |assertions| :: !assertions[i].passed
  {
    if assertions != [] {
      var n := |assertions| - 1;
      CountBounds(assertions[..n]);
      assert forall i | 0 <= i < n :: assertions[..n][i] == assertions[i];
    }
  }

  lemma Quotient(n: real, total: real)
    requires 0.0 <= n <= total && total > 0.0
    ensures 0.0 <= n / total <= 1.0
    ensures n / total == 1.0 <==> n == total
    ensures n / total == 0.0 <==> n == 0.0
  {
    var q := n / total;
    assert q * total == n;
  }

  lemma CategoriesCover(assertions: seq<Assertion>)
    requires CategoryPassed(assertions, Required) && CategoryPassed(assertions, Forbidden)
    requires CategoryPassed(assertions, Invariant)
    ensures AllPassed(assertions)
  {
    forall i | 0 <= i < |assertions| ensures assertions[i].passed {
      match assertions[i].category
      case Required =>
      case Forbidden =>
      case Invariant =>
    }
  }

  /** The positions of the assertions that passed. */
  function PassedIndices(assertions: seq<Assertion>): set<nat> {
    set i: nat | i < |assertions| && assertions[i].passed
  }

  lemma {:induction false} CountIsCardinality(assertions: seq<Assertion>)
    ensures PassedCount(assertions) == |PassedIndices(assertions)|
  {
    if assertions != [] {
      var n := |assertions| - 1;
      CountIsCardinality(assertions[..n]);
      assert forall i: nat | i < n :: assertions[..n][i] == assertions[i];
      assert PassedIndices(assertions) == PassedIndices(assertions[..n]) + if assertions[n].passed then {n} else {};
    }
  }

  lemma Share(part: real, whole: real)
    requires whole != 0.0
    ensures part / whole * whole == part
  {
  }

  /**
   * What a result says of its assertions. The score is the share of the assertions that passed,
   * and zero without any; a result passes when all of them did; each flag holds exactly when every
   * assertion of its own category passed.
   */
  lemma ResultExact(assertions: seq<Assertion>)
    ensures var r := BuildResult(assertions);
      && r.assertions == assertions
      && r.score * |assertions| as real == |PassedIndices(assertions)| as real
      && (assertions == [] ==> r.score == 0.0)
      && (r.passed <==> forall a | a in assertions :: a.passed)
      && (r.requiredPassed <==> forall a | a in assertions && a.category == Required :: a.passed)
      && (r.forbiddenPassed <==> forall a | a in assertions && a.category == Forbidden :: a.passed)
      && (r.invariantsPassed <==> forall a | a in assertions && a.category == Invariant :: a.passed)
  {
    CountIsCardinality(assertions);
    if assertions != [] {
      Share(PassedCount(assertions) as real, |assertions| as real);
    }
  }

  /**
   * The verdict and the score agree: a result passes exactly when its three categories pass; a
   * full score means a pass with at least one assertion, and a zero score means nothing passed.
   */
  lemma ResultAgrees(assertions: seq<Assertion>)
    ensures var r := BuildResult(assertions);
      && (r.passed <==> r.requiredPassed && r.forbiddenPassed && r.invariantsPassed)
      && 0.0 <= r.score <= 1.0
      && (r.score == 1.0 <==> r.passed && assertions != [])
      && (r.score == 0.0 <==> forall i | 0 <= i < |assertions| :: !assertions[i].passed)
  {
    CountBounds(assertions);
    if assertions != [] {
      Quotient(PassedCount(assertions) as real, |assertions| as real);
    }
    var r := BuildResult(assertions);
    if r.requiredPassed && r.forbiddenPassed && r.invariantsPassed {
      CategoriesCover(assertions);
    }
  }

  // ---- Predicates over snapshots ----

  function AssertFieldContains(final: World, page: string, fragment: string, id: AssertionId): Assertion {
    Assertion(id, page in final.pages && Contains(final.pages[page].body, fragment), Required)
  }

  function AssertVersionBumpedBy(initial: World, final: World, page: string, delta: int, id: AssertionId): Assertion {
    Assertion(id, BumpedBy(initial, final, page, delta), Required)
  }

  predicate BumpedBy(initial: World, final: World, page: string, delta: int) {
    page in initial.pages && page in final.pages && final.pages[page].version == initial.pages[page].version + delta
  }

  function AssertUnchanged(initial: World, final: World, page: string, id: AssertionId): Assertion {
    Assertion(id, page in initial.pages && page in final.pages && initial.pages[page] == final.pages[page], Forbidden)
  }

  /** The pages as the diff sees them. */
  function PageCollection(w: World): map<string, Value> {
    map id | id in w.pages :: Obj(PageFields(w.pages[id]))
  }

  predicate PageChanged(initial: World, final: World, id: string) {
    Get(initial.pages, id) != Get(final.pages, id)
  }

  /** No page outside `allowed` was created, deleted or changed. */
  predicate OthersUnchanged(initial: World, final: World, allowed: set<string>) {
    forall id | id in initial.pages.Keys + final.pages.Keys :: id in allowed || !PageChanged(initial, final, id)
  }

  lemma PagesDiffer(initial: World, final: World, id: string)
    requires id in initial.pages && id in final.pages
    ensures id in UpdatedIds(PageCollection(initial), PageCollection(final)) <==> initial.pages[id] != final.pages[id]
  {
    if PageFields(initial.pages[id]) == PageFields(final.pages[id]) {
      PageFieldsInjective(initial.pages[id], final.pages[id]);
    }
  }

  /** The page diff reports exactly the pages that were created, deleted or changed. */
  lemma DiffReportsChanged(initial: World, final: World, id: string)
    ensures id in Reported(CompareKind(PageCollection(initial), PageCollection(final))) <==> PageChanged(initial, final, id)
  {
    var before, after := PageCollection(initial), PageCollection(final);
    assert before.Keys == initial.pages.Keys && after.Keys == final.pages.Keys;
    ReportedExact(before, after);
    if id in initial.pages && id in final.pages {
      PagesDiffer(initial, final, id);
    }
  }

  /** The diff of two collections that differ in one mapping. */
  lemma {:induction false} DiffOfOne(before: map<string, Value>, after: map<string, Value>, id: string)
    requires before.Keys == after.Keys && UpdatedIds(before, after) == {id}
    ensures CompareKind(before, after) == KindDiff([], [], [id], map[id := ChangeOf(before[id], after[id])])
  {
    OneSorted(id);
    assert before.Keys - after.Keys == {} && after.Keys - before.Keys == {};
    assert ResourceChanges(before, after) == map[id := ChangeOf(before[id], after[id])];
  }

  lemma {:induction false} WriteUpdatesOne(w: World, v: World, id: string)
    requires id in w.pages && id in v.pages && v.pages == w.pages[id := v.pages[id]] && v.pages[id] != w.pages[id]
    ensures PageCollection(w).Keys == PageCollection(v).Keys
    ensures UpdatedIds(PageCollection(w), PageCollection(v)) == {id}
  {
    assert v.pages.Keys == w.pages.Keys;
    forall other | other in w.pages
      ensures other in UpdatedIds(PageCollection(w), PageCollection(v)) <==> other == id
    {
      PagesDiffer(w, v, other);
    }
  }

  lemma {:induction false} DeltaOfPages(p: Page, q: Page)
    ensures VersionDelta(Obj(PageFields(p)), Obj(PageFields(q))) == Some(q.version as real - p.version as real)
  {
    DeltaExact(PageFields(p), PageFields(q), q.version as real - p.version as real);
    assert Get(PageFields(p), "version") == Some(Num(p.version as real));
    assert Get(PageFields(q), "version") == Some(Num(p.version as real + (q.version as real - p.version as real)));
  }

  /** What the diff says of one mapping that changed. */
  predicate ReportsChange(diff: KindDiff, id: string, before: map<string, Value>, after: map<string, Value>, f: string) {
    && id in diff.changes
    && (f in diff.changes[id].changedFields <==> Get(before, f) != Get(after, f))
    && (f in before && f in after && before[f] != after[f] ==>
          diff.changes[id].changedFields[f] == Change(before[f], after[f]))
  }

  lemma {:induction false} ChangeReported(diff: KindDiff, id: string, before: map<string, Value>, after: map<string, Value>, f: string)
    requires id in diff.changes && diff.changes[id].changedFields == FieldChanges(Obj(before), Obj(after))
    ensures ReportsChange(diff, id, before, after, f)
  {
    FieldChangesExact(before, after, f);
  }

  lemma {:induction false} DiffOfOnePage(w: World, v: World, id: string, f: string)
    requires id in w.pages && id in v.pages && v.pages == w.pages[id := v.pages[id]] && v.pages[id].version == w.pages[id].version + 1
    ensures var diff := CompareKind(PageCollection(w), PageCollection(v));
      && diff.created == [] && diff.deleted == [] && diff.updated == [id] && diff.changes.Keys == {id}
      && diff.changes[id].versionDelta == Some(1.0)
      && ReportsChange(diff, id, PageFields(w.pages[id]), PageFields(v.pages[id]), f)
  {
    var diff := CompareKind(PageCollection(w), PageCollection(v));
    WriteUpdatesOne(w, v, id);
    DiffOfOne(PageCollection(w), PageCollection(v), id);
    DeltaOfPages(w.pages[id], v.pages[id]);
    assert diff.changes == map[id := ChangeOf(Obj(PageFields(w.pages[id])), Obj(PageFields(v.pages[id])))];
    ChangeReported(diff, id, PageFields(w.pages[id]), PageFields(v.pages[id]), f);
  }

  /**
   * The diff of one store write: nothing new, nothing gone, exactly that page updated, its version
   * one higher, and for every field that differs the old value and the new one.
   */
  lemma {:induction false} DiffOfOneWrite(w: World, id: string, c: PageChanges, f: string)
    requires Coherent(w) && id in w.pages
    ensures var v := Updated(w, id, c, None).world;
      var diff := CompareKind(PageCollection(w), PageCollection(v));
      && v.pages.Keys == w.pages.Keys
      && diff.created == [] && diff.deleted == [] && diff.updated == [id] && diff.changes.Keys == {id}
      && diff.changes[id].versionDelta == Some(1.0)
      && ReportsChange(diff, id, PageFields(w.pages[id]), PageFields(v.pages[id]), f)
  {
    UpdateOnCoherent(w, id, c, None);
    DiffOfOnePage(w, Updated(w, id, c, None).world, id, f);
  }

  lemma OneSorted(id: string)
    ensures SortedIds({id}) == [id] && SortedIds({}) == []
  {
    SortedIdsSorted({id});
    SortedUnique(SortedIds({id}), [id]);
  }

  lemma OutsideIsEmpty(initial: World, final: World, changed: set<string>, allowed: set<string>)
    requires forall id :: id in changed <==> PageChanged(initial, final, id)
    ensures changed - allowed == {} <==> OthersUnchanged(initial, final, allowed)
  {
    if changed - allowed == {} {
      forall id | PageChanged(initial, final, id) ensures id in allowed {
        assert id in changed && id !in changed - allowed;
      }
    } else {
      var id :| id in changed - allowed;
      assert PageChanged(initial, final, id);
      assert id in initial.pages.Keys + final.pages.Keys;
    }
  }

  /** `assert_no_other_pages_changed`: collects the changed ids from the page diff and removes the allowed ones. */
  method AssertNoOtherPagesChanged(initial: World, final: World, allowed: set<string>) returns (a: Assertion)
    ensures a == Assertion(NoOtherPagesChanged, OthersUnchanged(initial, final, allowed), Forbidden)
  {
    var before, after := PageCollection(initial), PageCollection(final);
    var diff := ComputeKind(before, after);
    var changed := set id | id in diff.created;
    changed := changed + set id | id in diff.deleted;
    changed := changed + set id | id in diff.updated;
    assert changed == Reported(diff);
    forall id ensures id in changed <==> PageChanged(initial, final, id) {
      DiffReportsChanged(initial, final, id);
    }
    OutsideIsEmpty(initial, final, changed, allowed);
    a := Assertion(NoOtherPagesChanged, changed - allowed == {}, Forbidden);
  }

  // ---- Append-only history ----

  predicate PriorEntriesKept(initial: seq<Page>, final: seq<Page>) {
    var kept := if final == [] then 0 else |final| - 1;
    var overlap := if kept <= |initial| then kept else |initial|;
    forall i | 0 <= i < overlap :: final[i] == initial[i]
  }

  /** The history assertions on one page. */
  function HistoryAssertions(initial: World, final: World, id: string): seq<Assertion> {
    if !PageChanged(initial, final, id) then
      [Assertion(HistoryUnchanged(id), Get(initial.histories, id) == Get(final.histories, id), Invariant)]
    else if id !in final.pages then
      [Assertion(HistoryFinalPage(id), false, Invariant)]
    else
      var page, before, after := final.pages[id], HistoryOf(initial, id), HistoryOf(final, id);
      [Assertion(HistoryLength(id), id in final.histories && |after| == page.version, Invariant),
       Assertion(HistoryPriorEntries(id), PriorEntriesKept(before, after), Invariant),
       Assertion(HistoryFinalEntry(id), after != [] && after[|after| - 1] == page, Invariant)]
  }

  function HistoryChecks(initial: World, final: World): string -> seq<Assertion> {
    id => HistoryAssertions(initial, final, id)
  }

  function HistoryIds(initial: World, final: World): seq<string> {
    SortedIds(initial.pages.Keys + final.pages.Keys + initial.histories.Keys + final.histories.Keys)
  }

  /** `_page_history_invariants`: the loop over the sorted ids of all pages and histories. */
  method PageHistoryInvariants(initial: World, final: World) returns (assertions: seq<Assertion>)
    ensures assertions == FlatMap(HistoryChecks(initial, final), HistoryIds(initial, final))
  {
    assertions := [];
    var ids := HistoryIds(initial, final);
    ghost var checks := HistoryChecks(initial, final);
    for i := 0 to |ids|
      invariant assertions == FlatMap(checks, ids[..i])
    {
      FlatMapNext(checks, ids, i);
      var onPage := HistoryOnPage(initial, final, ids[i]);
      assertions := assertions + onPage;
    }
    FlatMapAll(checks, ids);
  }

  /** The body of that loop. */
  method HistoryOnPage(initial: World, final: World, id: string) returns (assertions: seq<Assertion>)
    ensures assertions == HistoryAssertions(initial, final, id)
  {
    if Get(initial.pages, id) == Get(final.pages, id) {
      var same := Get(initial.histories, id) == Get(final.histories, id);
      return [Assertion(HistoryUnchanged(id), same, Invariant)];
    }
    if id !in final.pages {
      return [Assertion(HistoryFinalPage(id), false, Invariant)];
    }
    var page, before, after := final.pages[id], HistoryOf(initial, id), HistoryOf(final, id);
    assertions := [Assertion(HistoryLength(id), id in final.histories && |after| == page.version, Invariant)];
    var kept := if after == [] then 0 else |after| - 1;
    var overlap := if kept <= |before| then kept else |before|;
    var prior := after[..overlap] == before[..overlap];
    assert prior <==> PriorEntriesKept(before, after) by {
      if PriorEntriesKept(before, after) {
        assert after[..overlap] == before[..overlap];
      } else {
        var i :| 0 <= i < overlap && after[i] != before[i];
        assert after[..overlap][i] != before[..overlap][i];
      }
      if prior {
        forall i | 0 <= i < overlap ensures after[i] == before[i] {
          assert after[..overlap][i] == before[..overlap][i];
        }
      }
    }
    assertions := assertions + [Assertion(HistoryPriorEntries(id), prior, Invariant)];
    var lastMatches := after != [] && after[|after| - 1] == page;
    assertions := assertions + [Assertion(HistoryFinalEntry(id), lastMatches, Invariant)];
  }

  function WorldInvariants(initial: World, final: World): seq<Assertion> {
    [Assertion(UsersUnchanged, initial.users == final.users, Invariant),
     Assertion(SpacesUnchanged, initial.spaces == final.spaces, Invariant),
     Assertion(PermissionsUnchanged, initial.permissions == final.permissions, Invariant)]
    + FlatMap(HistoryChecks(initial, final), HistoryIds(initial, final))
  }

  // ---- Task configuration ----

  datatype ExpectedBody = NoBody | OneBody(body: string) | BodyPerPage(bodies: map<string, string>)

  datatype HumanEditNote =
    | NoNote
    | PlainNote(note: string)
    | NoteFields(fragment: Option<string>, text: Option<string>, content: Option<string>, body: Option<string>)

  datatype Concurrency = Concurrency(pageId: Option<string>, humanEdit: HumanEditNote)

  /** The verifier configuration of a task; a list that is missing or of the wrong shape is empty. */
  datatype Config = Config(
    expectedPageIds: seq<string>, fragments: map<string, string>, expectedFinalBody: ExpectedBody,
    preservedFragments: Option<seq<string>>, forbiddenPageIds: seq<string>,
    preserveConcurrentFragment: Option<string>, concurrency: Option<Concurrency>)

  predicate Distinct(ids: seq<string>) {
    forall i, j | 0 <= i < j < |ids| :: ids[i] != ids[j]
  }

  /** `_page_id_collection`: a non-empty list of non-empty, distinct ids. */
  predicate ValidPageIds(ids: seq<string>) {
    ids != [] && "" !in ids && Distinct(ids)
  }

  function PageIdError(ids: seq<string>, invalid: ConfigError): Option<ConfigError> {
    if ids == [] || "" in ids then Some(invalid)
    else if !Distinct(ids) then Some(DuplicatePageIds)
    else None
  }

  function Failure(e: ConfigError): Assertion {
    Assertion(Configuration(e), false, Required)
  }

  function ExpectedBodyOf(config: Config, page: string): Option<string> {
    match config.expectedFinalBody
    case NoBody => None
    case OneBody(body) => Some(body)
    case BodyPerPage(bodies) => Get(bodies, page)
  }

  // ---- _verify_edit ----

  function FragmentAssertions(final: World, config: Config, exactBody: bool, page: string): seq<Assertion> {
    if page in config.fragments then [AssertFieldContains(final, page, config.fragments[page], BodyContains(page))]
    else if exactBody then []
    else [Failure(MissingFragment(page))]
  }

  function BodyAssertions(final: World, config: Config, exactBody: bool, page: string): seq<Assertion> {
    if !exactBody then []
    else if ExpectedBodyOf(config, page).None? then [Failure(MissingFinalBody(page))]
    else [Assertion(BodyExact(page), page in final.pages && Some(final.pages[page].body) == ExpectedBodyOf(config, page), Required)]
  }

  /** The assertions on one target that come before its version assertion. */
  function ContentAssertions(final: World, config: Config, exactBody: bool, page: string): seq<Assertion> {
    FragmentAssertions(final, config, exactBody, page) + BodyAssertions(final, config, exactBody, page)
  }

  function TargetAssertions(initial: World, final: World, config: Config, exactBody: bool): string -> seq<Assertion> {
    page => ContentAssertions(final, config, exactBody, page)
            + [AssertVersionBumpedBy(initial, final, page, 1, BumpedByOne(page))]
  }

  function Targets(config: Config): set<string> {
    set id | id in config.expectedPageIds
  }

  function CommonAssertions(initial: World, final: World, config: Config): seq<Assertion> {
    [Assertion(NoOtherPagesChanged, OthersUnchanged(initial, final, Targets(config)), Forbidden)]
    + WorldInvariants(initial, final)
  }

  function EditAssertions(initial: World, final: World, config: Config, exactBody: bool): seq<Assertion> {
    var error := PageIdError(config.expectedPageIds, InvalidPageIds);
    if error.Some? then [Failure(error.value)]
    else
      FlatMap(TargetAssertions(initial, final, config, exactBody), config.expectedPageIds)
      + CommonAssertions(initial, final, config)
  }

  method VerifyEdit(initial: World, final: World, config: Config, exactBody: bool) returns (assertions: seq<Assertion>)
    ensures assertions == EditAssertions(initial, final, config, exactBody)
  {
    var targets, error := config.expectedPageIds, PageIdError(config.expectedPageIds, InvalidPageIds);
    if error.Some? {
      return [Failure(error.value)];
    }
    assertions := [];
    ghost var checks := TargetAssertions(initial, final, config, exactBody);
    for i := 0 to |targets|
      invariant assertions == FlatMap(checks, targets[..i])
    {
      FlatMapNext(checks, targets, i);
      var content := VerifyContent(final, config, exactBody, targets[i]);
      var bumped := AssertVersionBumpedBy(initial, final, targets[i], 1, BumpedByOne(targets[i]));
      assertions := assertions + (content + [bumped]);
    }
    FlatMapAll(checks, targets);
    var common := VerifyCommon(initial, final, config);
    assertions := assertions + common;
  }

  /** The part of the loop over targets that looks at page content. */
  method VerifyContent(final: World, config: Config, exactBody: bool, page: string) returns (assertions: seq<Assertion>)
    ensures assertions == ContentAssertions(final, config, exactBody, page)
  {
    assertions := [];
    if page !in config.fragments && !exactBody {
      assertions := assertions + [Failure(MissingFragment(page))];
    } else if page in config.fragments {
      assertions := assertions + [AssertFieldContains(final, page, config.fragments[page], BodyContains(page))];
    }
    if exactBody {
      var expected := ExpectedBodyOf(config, page);
      if expected.None? {
        assertions := assertions + [Failure(MissingFinalBody(page))];
      } else {
        var exact := page in final.pages && Some(final.pages[page].body) == expected;
        assertions := assertions + [Assertion(BodyExact(page), exact, Required)];
      }
    }
  }

  method VerifyCommon(initial: World, final: World, config: Config) returns (assertions: seq<Assertion>)
    ensures assertions == CommonAssertions(initial, final, config)
  {
    var others := AssertNoOtherPagesChanged(initial, final, Targets(config));
    var history := PageHistoryInvariants(initial, final);
    assertions := [others]
      + ([Assertion(UsersUnchanged, initial.users == final.users, Invariant),
          Assertion(SpacesUnchanged, initial.spaces == final.spaces, Invariant),
          Assertion(PermissionsUnchanged, initial.permissions == final.permissions, Invariant)] + history);
  }

  // ---- _verify_preservation ----

  predicate IsConfiguration(a: Assertion) {
    a.id.Configuration?
  }

  predicate AnyConfiguration(assertions: seq<Assertion>) {
    exists i | 0 <= i < |assertions| :: IsConfiguration(assertions[i])
  }

  predicate FragmentPreserved(initial: World, final: World, page: string, fragment: string) {
    && page in initial.pages && page in final.pages
    && Contains(initial.pages[page].body, fragment) && Contains(final.pages[page].body, fragment)
  }

  function FragmentPreservation(initial: World, final: World, page: string, fragments: seq<string>): (r: seq<Assertion>)
    ensures |r| == |fragments|
    ensures forall i | 0 <= i < |fragments| ::
      r[i] == Assertion(PreservedFragment(page, i), FragmentPreserved(initial, final, page, fragments[i]), Forbidden)
  {
    seq(|fragments|, i requires 0 <= i < |fragments| =>
      Assertion(PreservedFragment(page, i), FragmentPreserved(initial, final, page, fragments[i]), Forbidden))
  }

  /** `_body_fragment_preservation_assertions`. */
  method FragmentPreservationLoop(initial: World, final: World, page: string, fragments: seq<string>)
    returns (assertions: seq<Assertion>)
    ensures assertions == FragmentPreservation(initial, final, page, fragments)
  {
    assertions := [];
    for i := 0 to |fragments|
      invariant assertions == FragmentPreservation(initial, final, page, fragments)[..i]
    {
      var passed := page in initial.pages && page in final.pages
        && Contains(initial.pages[page].body, fragments[i]) && Contains(final.pages[page].body, fragments[i]);
      assertions := assertions + [Assertion(PreservedFragment(page, i), passed, Forbidden)];
    }
  }

  function ForbiddenChecks(initial: World, final: World): string -> seq<Assertion> {
    page => [AssertUnchanged(initial, final, page, ForbiddenPage(page))]
  }

  /** What the preservation verifier adds to the edit assertions. */
  function PreservedAssertions(initial: World, final: World, config: Config): seq<Assertion>
    requires config.expectedPageIds != []
  {
    if config.preservedFragments.None? then [Failure(InvalidPreservedFragments)]
    else
      var preserved := FragmentPreservation(initial, final, config.expectedPageIds[0], config.preservedFragments.value);
      var error := PageIdError(config.forbiddenPageIds, InvalidForbiddenPages);
      preserved + (if error.Some? then [Failure(error.value)]
                   else FlatMap(ForbiddenChecks(initial, final), config.forbiddenPageIds))
  }

  function PreservationAssertions(initial: World, final: World, config: Config): seq<Assertion> {
    var edit := EditAssertions(initial, final, config, true);
    if AnyConfiguration(edit) || config.expectedPageIds == [] then edit
    else edit + PreservedAssertions(initial, final, config)
  }

  method VerifyPreservation(initial: World, final: World, config: Config) returns (assertions: seq<Assertion>)
    ensures assertions == PreservationAssertions(initial, final, config)
  {
    assertions := VerifyEdit(initial, final, config, true);
    if AnyConfiguration(assertions) || config.expectedPageIds == [] {
      return;
    }
    if config.preservedFragments.None? {
      return assertions + [Failure(InvalidPreservedFragments)];
    }
    var preserved := FragmentPreservationLoop(initial, final, config.expectedPageIds[0], config.preservedFragments.value);
    var error := PageIdError(config.forbiddenPageIds, InvalidForbiddenPages);
    if error.Some? {
      return assertions + (preserved + [Failure(error.value)]);
    }
    var forbidden := ForbiddenLoop(initial, final, config.forbiddenPageIds);
    assertions := assertions + (preserved + forbidden);
  }

  /** The loop over the pages that must not change. */
  method ForbiddenLoop(initial: World, final: World, pages: seq<string>) returns (assertions: seq<Assertion>)
    ensures assertions == FlatMap(ForbiddenChecks(initial, final), pages)
  {
    assertions := [];
    ghost var checks := ForbiddenChecks(initial, final);
    for i := 0 to |pages|
      invariant assertions == FlatMap(checks, pages[..i])
    {
      FlatMapNext(checks, pages, i);
      assertions := assertions + [AssertUnchanged(initial, final, pages[i], ForbiddenPage(pages[i]))];
    }
    FlatMapAll(checks, pages);
  }

  // ---- _verify_concurrent ----

  /** Characters that `str.strip` removes. */
  predicate IsSpace(c: char) {
    || '\t' <= c <= '\r' || '\U{1c}' <= c <= ' ' || c == '\U{85}' || c == '\U{a0}' || c == '\U{1680}'
    || '\U{2000}' <= c <= '\U{200a}' || c == '\U{2028}' || c == '\U{2029}' || c == '\U{202f}' || c == '\U{205f}'
    || c == '\U{3000}'
  }

  /** The same characters, one by one. */
  lemma SpacesListed(c: char)
    ensures IsSpace(c) <==> c in {
      '\t', '\n', '\U{b}', '\U{c}', '\r', '\U{1c}', '\U{1d}', '\U{1e}', '\U{1f}', ' ', '\U{85}', '\U{a0}', '\U{1680}',
      '\U{2000}', '\U{2001}', '\U{2002}', '\U{2003}', '\U{2004}', '\U{2005}', '\U{2006}', '\U{2007}', '\U{2008}', '\U{2009}',
      '\U{200a}', '\U{2028}', '\U{2029}', '\U{202f}', '\U{205f}', '\U{3000}'}
  {
    assert c as int < 0x2000 || c as int >= 0x2000;
  }

  function Strip(s: string): string
    decreases |s|
  {
    if s == "" then ""
    else if IsSpace(s[0]) then Strip(s[1..])
    else if IsSpace(s[|s| - 1]) then Strip(s[..|s| - 1])
    else s
  }

  function NonEmpty(s: Option<string>): Option<string> {
    if s == Some("") then None else s
  }

  /** `_human_edit_fragment`. */
  function HumanFragment(config: Config, initial: World, page: string): Option<string> {
    if NonEmpty(config.preserveConcurrentFragment).Some? then config.preserveConcurrentFragment
    else if config.concurrency.None? then None
    else match config.concurrency.value.humanEdit
      case NoNote => None
      case PlainNote(note) => NonEmpty(Some(note))
      case NoteFields(fragment, text, content, body) =>
        if NonEmpty(fragment).Some? then fragment
        else if NonEmpty(text).Some? then text
        else if NonEmpty(content).Some? then content
        else if NonEmpty(body).None? then None
        else if page in initial.pages && StartsWith(body.value, initial.pages[page].body)
                && Strip(body.value[|initial.pages[page].body|..]) != ""
        then Some(Strip(body.value[|initial.pages[page].body|..]))
        else body
  }

  predicate AllSpaces(s: string) {
    forall i | 0 <= i < |s| :: IsSpace(s[i])
  }

  /** Text that neither begins nor ends with a space, and is not empty. */
  predicate Stripped(s: string) {
    s != "" && !IsSpace(s[0]) && !IsSpace(s[|s| - 1])
  }

  /** Stripping takes away the spaces around a text, and nothing else. */
  lemma {:induction false} StripExact(before: string, text: string, behind: string)
    requires AllSpaces(before) && AllSpaces(behind) && (text == "" || Stripped(text))
    ensures Strip(before + text + behind) == text
    decreases |before| + |behind|
  {
    var s := before + text + behind;
    if before != "" {
      StripExact(before[1..], text, behind);
      assert s[1..] == before[1..] + text + behind;
    } else if behind != "" {
      var n := |behind| - 1;
      StripExact(before, text, behind[..n]);
      assert s[..|s| - 1] == before + text + behind[..n];
      if text == "" {
        StripExact("", "", behind[1..]);
        assert s[1..] == "" + "" + behind[1..];
      } else {
        assert s[0] == text[0] && s[|s| - 1] == behind[n];
      }
    } else {
      assert s == text;
    }
  }

  /** The human fragment is never empty, and is missing only when no text is given for it at all. */
  lemma HumanFragmentGiven(config: Config, initial: World, page: string)
    ensures var human := HumanFragment(config, initial, page);
      && human != Some("")
      && (human.None? <==>
            && config.preserveConcurrentFragment in {None, Some("")}
            && (config.concurrency.Some? ==>
                  match config.concurrency.value.humanEdit
                  case NoNote => true
                  case PlainNote(note) => note == ""
                  case NoteFields(fragment, text, content, body) =>
                    fragment in {None, Some("")} && text in {None, Some("")} && content in {None, Some("")} && body in {None, Some("")}))
  {
  }

  /** Which text is taken: the configured one, a plain note, or the first given of fragment, text and content. */
  lemma HumanFragmentOrder(config: Config, initial: World, page: string, text: string)
    requires text != ""
    ensures config.preserveConcurrentFragment == Some(text) ==> HumanFragment(config, initial, page) == Some(text)
    ensures config.preserveConcurrentFragment in {None, Some("")} && config.concurrency.Some? ==>
      var edit, human := config.concurrency.value.humanEdit, HumanFragment(config, initial, page);
      && (edit == PlainNote(text) ==> human == Some(text))
      && (edit.NoteFields? && edit.fragment == Some(text) ==> human == Some(text))
      && (edit.NoteFields? && edit.fragment in {None, Some("")} && edit.text == Some(text) ==> human == Some(text))
      && (edit.NoteFields? && edit.fragment in {None, Some("")} && edit.text in {None, Some("")} && edit.content == Some(text)
          ==> human == Some(text))
  {
  }

  /**
   * With nothing but the whole body of the human edit: what it adds behind the page's old body,
   * without the spaces around it; the whole body when it adds nothing or does not begin with the old one.
   */
  lemma {:induction false} HumanFragmentOfBody(
    config: Config, initial: World, page: string, body: string, before: string, text: string, behind: string)
    requires config.preserveConcurrentFragment in {None, Some("")} && config.concurrency.Some? && body != ""
    requires config.concurrency.value.humanEdit == NoteFields(None, None, None, Some(body))
    requires AllSpaces(before) && AllSpaces(behind) && (text == "" || Stripped(text))
    ensures var human := HumanFragment(config, initial, page);
      && (page in initial.pages && body == initial.pages[page].body + (before + text + behind) ==>
            human == Some(if text == "" then body else text))
      && (page !in initial.pages || !StartsWith(body, initial.pages[page].body) ==> human == Some(body))
  {
    StripExact(before, text, behind);
    if page in initial.pages && body == initial.pages[page].body + (before + text + behind) {
      var base := initial.pages[page].body;
      assert body[|base|..] == before + text + behind && body[..|base|] == base;
    }
  }

  function ConcurrencyAssertions(initial: World, final: World, config: Config, target: string): seq<Assertion>
    requires config.concurrency.Some?
  {
    var page := config.concurrency.value.pageId;
    var human := HumanFragment(config, initial, target);
    (if page.None? then [Failure(MissingConcurrencyPage)]
     else if page.value != target then [Failure(ConcurrencyPageMismatch)]
     else [])
    + [if human.None? then Failure(MissingHumanEdit) else AssertFieldContains(final, target, human.value, HumanEditPreserved)]
  }

  function IndexOf(assertions: seq<Assertion>, id: AssertionId): (r: nat)
    ensures r <= |assertions|
    ensures r < |assertions| ==> assertions[r].id == id
    ensures forall k | 0 <= k < r :: assertions[k].id != id
  {
    if assertions == [] || assertions[0].id == id then 0 else 1 + IndexOf(assertions[1..], id)
  }

  lemma IndexOfFirst(assertions: seq<Assertion>, id: AssertionId, i: nat)
    requires i < |assertions| && assertions[i].id == id
    requires forall k | 0 <= k < i :: assertions[k].id != id
    ensures IndexOf(assertions, id) == i
  {
  }

  /** Overwrites the first assertion with the given id, or appends when there is none. */
  function WithReplaced(assertions: seq<Assertion>, id: AssertionId, a: Assertion): seq<Assertion> {
    var i := IndexOf(assertions, id);
    if i < |assertions| then assertions[i := a] else assertions + [a]
  }

  /** `_replace_version_assertion`. */
  method ReplaceVersionAssertion(
      assertions: seq<Assertion>, page: string, initial: World, final: World, delta: int)
    returns (replaced: seq<Assertion>)
    ensures replaced == WithReplaced(assertions, BumpedByOne(page),
                                     AssertVersionBumpedBy(initial, final, page, delta, BumpedByTwo))
  {
    replaced := assertions;
    for i := 0 to |replaced|
      invariant replaced == assertions
      invariant forall k | 0 <= k < i :: replaced[k].id != BumpedByOne(page)
    {
      if replaced[i].id == BumpedByOne(page) {
        IndexOfFirst(assertions, BumpedByOne(page), i);
        replaced := replaced[i := AssertVersionBumpedBy(initial, final, page, delta, BumpedByTwo)];
        return;
      }
    }
    replaced := replaced + [AssertVersionBumpedBy(initial, final, page, delta, BumpedByTwo)];
  }

  function ConcurrentAssertions(initial: World, final: World, config: Config): seq<Assertion> {
    var edit := EditAssertions(initial, final, config, true);
    if AnyConfiguration(edit) || config.expectedPageIds == [] then edit
    else if config.concurrency.None? then edit + [Failure(MissingConcurrency)]
    else
      var target := config.expectedPageIds[0];
      WithReplaced(edit + ConcurrencyAssertions(initial, final, config, target), BumpedByOne(target),
                   AssertVersionBumpedBy(initial, final, target, 2, BumpedByTwo))
  }

  method VerifyConcurrent(initial: World, final: World, config: Config) returns (assertions: seq<Assertion>)
    ensures assertions == ConcurrentAssertions(initial, final, config)
  {
    assertions := VerifyEdit(initial, final, config, true);
    if AnyConfiguration(assertions) || config.expectedPageIds == [] {
      return;
    }
    if config.concurrency.None? {
      return assertions + [Failure(MissingConcurrency)];
    }
    var target := config.expectedPageIds[0];
    var page, edit := config.concurrency.value.pageId, assertions;
    var checks: seq<Assertion> := [];
    if page.None? {
      checks := [Failure(MissingConcurrencyPage)];
    } else if page.value != target {
      checks := [Failure(ConcurrencyPageMismatch)];
    }
    var human := HumanFragment(config, initial, target);
    if human.None? {
      checks := checks + [Failure(MissingHumanEdit)];
    } else {
      checks := checks + [AssertFieldContains(final, target, human.value, HumanEditPreserved)];
    }
    assert checks == ConcurrencyAssertions(initial, final, config, target);
    assertions := ReplaceVersionAssertion(edit + checks, target, initial, final, 2);
  }

  // ---- _verify_denied_write ----

  function DeniedWriteAssertions(initial: World, final: World, config: Config): seq<Assertion> {
    var error := PageIdError(config.expectedPageIds, InvalidPageIds);
    if error.Some? then [Failure(error.value)]
    else
      var target := config.expectedPageIds[0];
      [AssertUnchanged(initial, final, target, DeniedTarget),
       Assertion(NoOtherPagesChanged, OthersUnchanged(initial, final, {target}), Forbidden),
       Assertion(NoAttemptPersisted, initial == final, Invariant)]
  }
}
