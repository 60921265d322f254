/** Which final worlds each verifier accepts: exact conditions on the two snapshots. */
module Verdicts {
  import opened Options
  import opened Text
  import opened Values
  import opened Store
  import opened Verifier

  lemma PassedConcat(a: seq<Assertion>, b: seq<Assertion>)
    ensures AllPassed(a + b) <==> AllPassed(a) && AllPassed(b)
  {
    if AllPassed(a + b) {
      assert forall i | 0 <= i < |a| :: a[i] == (a + b)[i];
      assert forall i | 0 <= i < |b| :: b[i] == (a + b)[|a| + i];
    }
  }

  lemma {:induction false} PassedFlatMap<A>(f: A -> seq<Assertion>, xs: seq<A>)
    ensures AllPassed(FlatMap(f, xs)) <==> forall i | 0 <= i < |xs| :: AllPassed(f(xs[i]))
  {
    if xs != [] {
      var n := |xs| - 1;
      PassedFlatMap(f, xs[..n]);
      PassedConcat(FlatMap(f, xs[..n]), f(xs[n]));
      assert forall i | 0 <= i < n :: xs[..n][i] == xs[i];
    }
  }

  lemma {:induction false} FlatMapFront<A, B>(f: A -> seq<B>, xs: seq<A>)
    requires xs != []
    ensures FlatMap(f, xs) == f(xs[0]) + FlatMap(f, xs[1..])
  {
    var n := |xs| - 1;
    if n > 0 {
      FlatMapFront(f, xs[..n]);
      assert xs[..n][1..] == xs[1..][..n - 1];
    }
  }

  // ---- Histories and everything else ----

  /** `after` extends `before` by `delta` entries, of which the last is the page itself. */
  predicate HistoryGrew(before: seq<Page>, after: seq<Page>, page: Page, delta: nat) {
    delta > 0 && |after| == |before| + delta && before <= after && after[|after| - 1] == page
  }

  lemma HistoryOnBumped(initial: World, final: World, id: string, delta: nat)
    requires Coherent(initial) && delta > 0 && BumpedBy(initial, final, id, delta)
    ensures AllPassed(HistoryAssertions(initial, final, id))
      <==> id in final.histories && HistoryGrew(HistoryOf(initial, id), HistoryOf(final, id), final.pages[id], delta)
  {
    assert CoherentPage(id, initial.pages[id], initial.histories[id]);
    var before, after, list := HistoryOf(initial, id), HistoryOf(final, id), HistoryAssertions(initial, final, id);
    assert PageChanged(initial, final, id);
    assert |list| == 3;
    if AllPassed(list) {
      assert list[0].passed && list[1].passed && list[2].passed;
      assert forall i | 0 <= i < |before| :: after[i] == before[i];
    }
  }

  /** Everything outside the allowed pages is as it was. */
  ghost predicate RestUnchanged(initial: World, final: World, allowed: set<string>) {
    && initial.users == final.users && initial.spaces == final.spaces && initial.permissions == final.permissions
    && forall id | id !in allowed ::
         Get(initial.pages, id) == Get(final.pages, id) && Get(initial.histories, id) == Get(final.histories, id)
  }

  predicate Grew(initial: World, final: World, id: string, delta: nat) {
    id in final.pages && id in final.histories && HistoryGrew(HistoryOf(initial, id), HistoryOf(final, id), final.pages[id], delta)
  }

  type Deltas = string -> nat

  /** What the history assertions on one page amount to. */
  lemma HistoryMeaning(initial: World, final: World, targets: set<string>, delta: Deltas, id: string)
    requires Coherent(initial)
    requires id in targets ==> delta(id) > 0 && BumpedBy(initial, final, id, delta(id))
    requires id !in targets ==> !PageChanged(initial, final, id)
    ensures AllPassed(HistoryChecks(initial, final)(id))
      <==> if id in targets then Grew(initial, final, id, delta(id))
           else Get(initial.histories, id) == Get(final.histories, id)
  {
    if id in targets {
      HistoryOnBumped(initial, final, id, delta(id));
    } else {
      var list := HistoryAssertions(initial, final, id);
      assert AllPassed(list) <==> list[0].passed;
    }
  }

  lemma HistoryIdsCover(initial: World, final: World, id: string)
    ensures id !in HistoryIds(initial, final) ==>
      id !in initial.pages && id !in final.pages && Get(initial.histories, id) == Get(final.histories, id)
  {
  }

  lemma HistoriesVerdict(initial: World, final: World, targets: set<string>, delta: Deltas)
    requires Coherent(initial) && OthersUnchanged(initial, final, targets)
    requires forall t | t in targets :: delta(t) > 0 && BumpedBy(initial, final, t, delta(t))
    ensures AllPassed(FlatMap(HistoryChecks(initial, final), HistoryIds(initial, final)))
      <==> (forall id | id !in targets :: Get(initial.histories, id) == Get(final.histories, id))
           && (forall t | t in targets :: Grew(initial, final, t, delta(t)))
  {
    var ids, checks := HistoryIds(initial, final), HistoryChecks(initial, final);
    PassedFlatMap(checks, ids);
    forall id
      ensures id !in ids ==> id !in targets && Get(initial.histories, id) == Get(final.histories, id)
      ensures AllPassed(checks(id))
        <==> if id in targets then Grew(initial, final, id, delta(id))
             else Get(initial.histories, id) == Get(final.histories, id)
    {
      HistoryIdsCover(initial, final, id);
      HistoryMeaning(initial, final, targets, delta, id);
    }
    assert (forall i | 0 <= i < |ids| :: AllPassed(checks(ids[i]))) <==> forall id | id in ids :: AllPassed(checks(id));
  }

  /** The assertions that do not depend on the expected content, given that every target's version rose as it should. */
  lemma CommonVerdict(initial: World, final: World, config: Config, delta: Deltas)
    requires Coherent(initial)
    requires forall t | t in Targets(config) :: delta(t) > 0 && BumpedBy(initial, final, t, delta(t))
    ensures AllPassed(CommonAssertions(initial, final, config))
      <==> RestUnchanged(initial, final, Targets(config))
           && forall t | t in Targets(config) :: Grew(initial, final, t, delta(t))
  {
    var targets := Targets(config);
    var history := FlatMap(HistoryChecks(initial, final), HistoryIds(initial, final));
    var others := [Assertion(NoOtherPagesChanged, OthersUnchanged(initial, final, targets), Forbidden)];
    var kinds := [Assertion(UsersUnchanged, initial.users == final.users, Invariant),
                  Assertion(SpacesUnchanged, initial.spaces == final.spaces, Invariant),
                  Assertion(PermissionsUnchanged, initial.permissions == final.permissions, Invariant)];
    PassedConcat(others, kinds + history);
    PassedConcat(kinds, history);
    assert AllPassed(others) <==> others[0].passed;
    assert AllPassed(kinds) <==> kinds[0].passed && kinds[1].passed && kinds[2].passed;
    OthersMeaning(initial, final, targets);
    if OthersUnchanged(initial, final, targets) {
      HistoriesVerdict(initial, final, targets, delta);
    }
  }

  lemma OthersMeaning(initial: World, final: World, targets: set<string>)
    ensures OthersUnchanged(initial, final, targets)
      <==> forall id | id !in targets :: Get(initial.pages, id) == Get(final.pages, id)
  {
    if OthersUnchanged(initial, final, targets) {
      forall id | id !in targets ensures Get(initial.pages, id) == Get(final.pages, id) {
        if id in initial.pages.Keys + final.pages.Keys {
          assert !PageChanged(initial, final, id);
        }
      }
    }
  }

  // ---- _verify_edit ----

  predicate ContentOk(final: World, config: Config, exactBody: bool, page: string) {
    && (page in config.fragments ==> page in final.pages && Contains(final.pages[page].body, config.fragments[page]))
    && (!exactBody ==> page in config.fragments)
    && (exactBody ==> page in final.pages && ExpectedBodyOf(config, page) == Some(final.pages[page].body))
  }

  lemma ContentVerdict(final: World, config: Config, exactBody: bool, page: string)
    ensures AllPassed(ContentAssertions(final, config, exactBody, page)) <==> ContentOk(final, config, exactBody, page)
  {
    var a, b := FragmentAssertions(final, config, exactBody, page), BodyAssertions(final, config, exactBody, page);
    PassedConcat(a, b);
    assert a == [] || AllPassed(a) == a[0].passed;
    assert b == [] || AllPassed(b) == b[0].passed;
  }

  /** The final world is the initial one with each target edited as asked, `delta` versions on. */
  ghost predicate Edited(initial: World, final: World, config: Config, exactBody: bool, delta: Deltas) {
    && RestUnchanged(initial, final, Targets(config))
    && forall t | t in Targets(config) ::
         && ContentOk(final, config, exactBody, t)
         && BumpedBy(initial, final, t, delta(t))
         && Grew(initial, final, t, delta(t))
  }

  function One(): Deltas {
    _ => 1
  }

  lemma TargetVerdict(initial: World, final: World, config: Config, exactBody: bool, page: string)
    ensures AllPassed(TargetAssertions(initial, final, config, exactBody)(page))
      <==> ContentOk(final, config, exactBody, page) && BumpedBy(initial, final, page, 1)
  {
    var bumped := [AssertVersionBumpedBy(initial, final, page, 1, BumpedByOne(page))];
    PassedConcat(ContentAssertions(final, config, exactBody, page), bumped);
    ContentVerdict(final, config, exactBody, page);
    assert AllPassed(bumped) == bumped[0].passed;
  }

  lemma TargetsVerdict(initial: World, final: World, config: Config, exactBody: bool, pages: seq<string>)
    ensures AllPassed(FlatMap(TargetAssertions(initial, final, config, exactBody), pages))
      <==> forall t | t in pages :: ContentOk(final, config, exactBody, t) && BumpedBy(initial, final, t, 1)
  {
    PassedFlatMap(TargetAssertions(initial, final, config, exactBody), pages);
    forall t | t in pages
      ensures AllPassed(TargetAssertions(initial, final, config, exactBody)(t))
        <==> ContentOk(final, config, exactBody, t) && BumpedBy(initial, final, t, 1)
    {
      TargetVerdict(initial, final, config, exactBody, t);
    }
  }

  /**
   * The edit verifier is exact. From a coherent initial world it passes if and only if the target
   * list is valid and: users, spaces, permissions, every other page and every other history are
   * equal; and each target has the content asked for, one version more, and a history that is the
   * old one followed by exactly the final page.
   */
  lemma EditVerdict(initial: World, final: World, config: Config, exactBody: bool)
    requires Coherent(initial)
    ensures AllPassed(EditAssertions(initial, final, config, exactBody))
      <==> ValidPageIds(config.expectedPageIds) && Edited(initial, final, config, exactBody, One())
  {
    var assertions := EditAssertions(initial, final, config, exactBody);
    if !ValidPageIds(config.expectedPageIds) {
      assert !assertions[0].passed;
    } else {
      var pages := FlatMap(TargetAssertions(initial, final, config, exactBody), config.expectedPageIds);
      PassedConcat(pages, CommonAssertions(initial, final, config));
      TargetsVerdict(initial, final, config, exactBody, config.expectedPageIds);
      if forall t | t in Targets(config) :: BumpedBy(initial, final, t, 1) {
        CommonVerdict(initial, final, config, One());
      }
    }
  }

  /** The final world is one store write to `page` away, a write that sets the body to `expected`. */
  ghost predicate OneStoreWrite(initial: World, final: World, page: string, expected: string) {
    exists c: PageChanges :: c.body == Some(expected) && page in initial.pages && Updated(initial, page, c, None).world == final
  }

  /** What the verifier leaves open about the target: its title, space, owner and extra fields may have changed freely. */
  predicate WritableFrom(before: Page, after: Page) {
    after.id == before.id && before.extra.Keys <= after.extra.Keys
  }

  lemma WriteReaches(initial: World, page: string, c: PageChanges, after: Page)
    requires Coherent(initial) && page in initial.pages
    requires ApplyChanges(initial.pages[page], c).(version := initial.pages[page].version + 1) == after
    ensures Updated(initial, page, c, None).world
      == initial.(pages := initial.pages[page := after],
                  histories := initial.histories[page := initial.histories[page] + [after]])
  {
    UpdateOnCoherent(initial, page, c, None);
  }

  lemma EditIsWrite(initial: World, final: World, config: Config, page: string, expected: string)
    requires Coherent(initial) && config.expectedPageIds == [page] && ExpectedBodyOf(config, page) == Some(expected)
    requires Edited(initial, final, config, true, One())
    requires page in initial.pages && page in final.pages && WritableFrom(initial.pages[page], final.pages[page])
    ensures OneStoreWrite(initial, final, page, expected)
  {
    var before, after := initial.pages[page], final.pages[page];
    assert page in Targets(config);
    var c: PageChanges := Changes(Some(after.spaceId), Some(after.title), Some(expected), Some(after.ownerId), after.extra);
    assert Targets(config) == {page};
    assert before.extra + after.extra == after.extra;
    assert ApplyChanges(before, c).(version := before.version + 1) == after;
    assert HistoryOf(final, page) == initial.histories[page] + [after];
    UpdatedOutside(initial.pages, final.pages, page, after);
    UpdatedOutside(initial.histories, final.histories, page, initial.histories[page] + [after]);
    WriteReaches(initial, page, c, after);
  }

  lemma WriteIsEdit(initial: World, final: World, config: Config, page: string, expected: string)
    requires Coherent(initial) && config.expectedPageIds == [page] && ExpectedBodyOf(config, page) == Some(expected)
    requires page in config.fragments ==> Contains(expected, config.fragments[page])
    requires OneStoreWrite(initial, final, page, expected)
    ensures Edited(initial, final, config, true, One())
    ensures page in initial.pages && page in final.pages && WritableFrom(initial.pages[page], final.pages[page])
  {
    var c: PageChanges :| c.body == Some(expected) && page in initial.pages && Updated(initial, page, c, None).world == final;
    var after := ApplyChanges(initial.pages[page], c).(version := initial.pages[page].version + 1);
    WriteReaches(initial, page, c, after);
    assert Targets(config) == {page};
    assert HistoryOf(final, page) == HistoryOf(initial, page) + [after];
    assert Grew(initial, final, page, 1);
  }

  /**
   * The edit verifier against the store: for one target whose required fragment lies in the
   * expected body, a final world is one store write away exactly when the verifier passes and the
   * target kept its id and its extra field names, which the verifier does not look at.
   */
  lemma PassesIffOneWrite(initial: World, final: World, config: Config, page: string, expected: string)
    requires Coherent(initial) && page != ""
    requires config.expectedPageIds == [page] && ExpectedBodyOf(config, page) == Some(expected)
    requires page in config.fragments ==> Contains(expected, config.fragments[page])
    ensures OneStoreWrite(initial, final, page, expected)
      <==> AllPassed(EditAssertions(initial, final, config, true))
           && page in initial.pages && page in final.pages && WritableFrom(initial.pages[page], final.pages[page])
  {
    EditVerdict(initial, final, config, true);
    if OneStoreWrite(initial, final, page, expected) {
      WriteIsEdit(initial, final, config, page, expected);
      assert page in Targets(config);
    } else if AllPassed(EditAssertions(initial, final, config, true))
              && page in initial.pages && page in final.pages && WritableFrom(initial.pages[page], final.pages[page]) {
      EditIsWrite(initial, final, config, page, expected);
    }
  }

  // ---- _verify_preservation ----

  predicate NoConfiguration(assertions: seq<Assertion>) {
    forall i | 0 <= i < |assertions| :: !IsConfiguration(assertions[i])
  }

  lemma NoConfigurationConcat(a: seq<Assertion>, b: seq<Assertion>)
    ensures NoConfiguration(a + b) <==> NoConfiguration(a) && NoConfiguration(b)
  {
    if NoConfiguration(a + b) {
      assert forall i | 0 <= i < |a| :: a[i] == (a + b)[i];
      assert forall i | 0 <= i < |b| :: b[i] == (a + b)[|a| + i];
    }
  }

  lemma {:induction false} NoConfigurationFlatMap<A>(f: A -> seq<Assertion>, xs: seq<A>)
    ensures NoConfiguration(FlatMap(f, xs)) <==> forall i | 0 <= i < |xs| :: NoConfiguration(f(xs[i]))
  {
    if xs != [] {
      var n := |xs| - 1;
      NoConfigurationFlatMap(f, xs[..n]);
      NoConfigurationConcat(FlatMap(f, xs[..n]), f(xs[n]));
      assert forall i | 0 <= i < n :: xs[..n][i] == xs[i];
    }
  }

  lemma TargetConfiguration(initial: World, final: World, config: Config, page: string)
    ensures NoConfiguration(TargetAssertions(initial, final, config, true)(page)) <==> ExpectedBodyOf(config, page).Some?
  {
    var a, b := FragmentAssertions(final, config, true, page), BodyAssertions(final, config, true, page);
    NoConfigurationConcat(a, b);
    NoConfigurationConcat(a + b, [AssertVersionBumpedBy(initial, final, page, 1, BumpedByOne(page))]);
    assert |b| == 1 && (NoConfiguration(b) <==> !IsConfiguration(b[0]));
  }

  lemma HistoryConfiguration(initial: World, final: World, id: string)
    ensures NoConfiguration(HistoryAssertions(initial, final, id))
  {
  }

  lemma {:induction false} CommonConfiguration(initial: World, final: World, config: Config)
    ensures NoConfiguration(CommonAssertions(initial, final, config))
  {
    var checks, ids := HistoryChecks(initial, final), HistoryIds(initial, final);
    NoConfigurationFlatMap(checks, ids);
    forall i | 0 <= i < |ids| ensures NoConfiguration(checks(ids[i])) {
      HistoryConfiguration(initial, final, ids[i]);
    }
    NoConfigurationConcat(WorldInvariants(initial, final)[..3], FlatMap(checks, ids));
    assert WorldInvariants(initial, final)[..3] + FlatMap(checks, ids) == WorldInvariants(initial, final);
    NoConfigurationConcat(CommonAssertions(initial, final, config)[..1], WorldInvariants(initial, final));
    assert CommonAssertions(initial, final, config)[..1] + WorldInvariants(initial, final)
      == CommonAssertions(initial, final, config);
  }

  /** An exact edit meets a configuration failure exactly when its targets are invalid or an expected body is missing. */
  lemma ConfigurationExact(initial: World, final: World, config: Config)
    ensures AnyConfiguration(EditAssertions(initial, final, config, true))
      <==> !ValidPageIds(config.expectedPageIds) || exists t | t in config.expectedPageIds :: ExpectedBodyOf(config, t).None?
  {
    var edit := EditAssertions(initial, final, config, true);
    assert AnyConfiguration(edit) <==> !NoConfiguration(edit);
    if !ValidPageIds(config.expectedPageIds) {
      assert IsConfiguration(edit[0]);
    } else {
      var checks := TargetAssertions(initial, final, config, true);
      NoConfigurationConcat(FlatMap(checks, config.expectedPageIds), CommonAssertions(initial, final, config));
      NoConfigurationFlatMap(checks, config.expectedPageIds);
      CommonConfiguration(initial, final, config);
      forall i | 0 <= i < |config.expectedPageIds|
        ensures NoConfiguration(checks(config.expectedPageIds[i])) <==> ExpectedBodyOf(config, config.expectedPageIds[i]).Some?
      {
        TargetConfiguration(initial, final, config, config.expectedPageIds[i]);
      }
    }
  }

  /** No edit with a configuration failure passes, whatever its deltas. */
  lemma ConfigurationNeverEdited(initial: World, final: World, config: Config, delta: Deltas)
    requires AnyConfiguration(EditAssertions(initial, final, config, true))
    ensures !(ValidPageIds(config.expectedPageIds) && Edited(initial, final, config, true, delta))
  {
    ConfigurationExact(initial, final, config);
    if ValidPageIds(config.expectedPageIds) {
      var t :| t in config.expectedPageIds && ExpectedBodyOf(config, t).None?;
      assert t in Targets(config) && !ContentOk(final, config, true, t);
    }
  }

  ghost predicate Preserved(initial: World, final: World, config: Config)
    requires config.expectedPageIds != []
  {
    && config.preservedFragments.Some?
    && (forall i | 0 <= i < |config.preservedFragments.value| ::
          FragmentPreserved(initial, final, config.expectedPageIds[0], config.preservedFragments.value[i]))
    && ValidPageIds(config.forbiddenPageIds)
    && (forall page | page in config.forbiddenPageIds ::
          page in initial.pages && page in final.pages && initial.pages[page] == final.pages[page])
  }

  lemma ForbiddenVerdict(initial: World, final: World, pages: seq<string>)
    ensures AllPassed(FlatMap(ForbiddenChecks(initial, final), pages))
      <==> forall page | page in pages ::
             page in initial.pages && page in final.pages && initial.pages[page] == final.pages[page]
  {
    PassedFlatMap(ForbiddenChecks(initial, final), pages);
    forall page ensures AllPassed(ForbiddenChecks(initial, final)(page)) <==>
      page in initial.pages && page in final.pages && initial.pages[page] == final.pages[page]
    {
      assert AllPassed(ForbiddenChecks(initial, final)(page)) == ForbiddenChecks(initial, final)(page)[0].passed;
    }
  }

  /**
   * The preservation verifier is exact: it passes if and only if the edit verifier does, every
   * preserved fragment is in the target's body before and after, and the forbidden list is valid
   * and names only pages that exist unchanged.
   */
  lemma PreservationVerdict(initial: World, final: World, config: Config)
    requires Coherent(initial)
    ensures AllPassed(PreservationAssertions(initial, final, config))
      <==> ValidPageIds(config.expectedPageIds) && Edited(initial, final, config, true, One())
           && Preserved(initial, final, config)
  {
    var edit := EditAssertions(initial, final, config, true);
    EditVerdict(initial, final, config, true);
    ConfigurationExact(initial, final, config);
    if AnyConfiguration(edit) {
      ConfigurationNeverEdited(initial, final, config, One());
    } else {
      PassedConcat(edit, PreservedAssertions(initial, final, config));
      PreservedVerdict(initial, final, config);
    }
  }

  lemma PreservedVerdict(initial: World, final: World, config: Config)
    requires config.expectedPageIds != []
    ensures AllPassed(PreservedAssertions(initial, final, config)) <==> Preserved(initial, final, config)
  {
    if config.preservedFragments.None? {
      FailureNeverPasses([], InvalidPreservedFragments);
    } else {
      var fragments := FragmentPreservation(initial, final, config.expectedPageIds[0], config.preservedFragments.value);
      var error := PageIdError(config.forbiddenPageIds, InvalidForbiddenPages);
      if error.Some? {
        FailureNeverPasses(fragments, error.value);
      } else {
        PassedConcat(fragments, FlatMap(ForbiddenChecks(initial, final), config.forbiddenPageIds));
        ForbiddenVerdict(initial, final, config.forbiddenPageIds);
      }
    }
  }

  lemma FailureNeverPasses(assertions: seq<Assertion>, error: ConfigError)
    ensures !AllPassed(assertions + [Failure(error)])
  {
    assert !(assertions + [Failure(error)])[|assertions|].passed;
  }

  // ---- _verify_concurrent ----

  /** The target rises by two versions, any other page asked for by one. */
  function TwoFor(target: string): Deltas {
    id => if id == target then 2 else 1
  }

  ghost predicate ConcurrencyOk(initial: World, final: World, config: Config)
    requires config.expectedPageIds != []
  {
    var target := config.expectedPageIds[0];
    var human := HumanFragment(config, initial, target);
    && config.concurrency.Some? && config.concurrency.value.pageId == Some(target)
    && human.Some? && target in final.pages && Contains(final.pages[target].body, human.value)
  }

  lemma ConcurrencyVerdict(initial: World, final: World, config: Config)
    requires config.expectedPageIds != [] && config.concurrency.Some?
    ensures AllPassed(ConcurrencyAssertions(initial, final, config, config.expectedPageIds[0]))
      <==> ConcurrencyOk(initial, final, config)
  {
    var list := ConcurrencyAssertions(initial, final, config, config.expectedPageIds[0]);
    assert |list| == 1 || |list| == 2;
    assert AllPassed(list) <==> list[0].passed && list[|list| - 1].passed;
  }

  lemma ReplacedAt(before: seq<Assertion>, stale: Assertion, rest: seq<Assertion>, a: Assertion)
    requires forall k | 0 <= k < |before| :: before[k].id != stale.id
    ensures WithReplaced(before + ([stale] + rest), stale.id, a) == before + ([a] + rest)
  {
    var all := before + ([stale] + rest);
    IndexOfFirst(all, stale.id, |before|);
    assert all[|before| := a] == before + ([a] + rest);
  }

  /** What the verifier checks after the version assertion of the first target. */
  function AfterFirst(initial: World, final: World, config: Config): seq<Assertion>
    requires config.expectedPageIds != [] && config.concurrency.Some?
  {
    FlatMap(TargetAssertions(initial, final, config, true), config.expectedPageIds[1..])
    + (CommonAssertions(initial, final, config)
       + ConcurrencyAssertions(initial, final, config, config.expectedPageIds[0]))
  }

  lemma RegroupFive<T>(a: seq<T>, b: seq<T>, c: seq<T>, d: seq<T>, e: seq<T>)
    ensures (((a + b) + c) + d) + e == a + (b + (c + (d + e)))
  {
  }

  lemma EditShape(initial: World, final: World, config: Config)
    requires ValidPageIds(config.expectedPageIds) && config.concurrency.Some?
    ensures var target := config.expectedPageIds[0];
      EditAssertions(initial, final, config, true) + ConcurrencyAssertions(initial, final, config, target)
      == ContentAssertions(final, config, true, target)
         + ([AssertVersionBumpedBy(initial, final, target, 1, BumpedByOne(target))] + AfterFirst(initial, final, config))
  {
    var targets := config.expectedPageIds;
    var checks := TargetAssertions(initial, final, config, true);
    FlatMapFront(checks, targets);
    RegroupFive(ContentAssertions(final, config, true, targets[0]),
            [AssertVersionBumpedBy(initial, final, targets[0], 1, BumpedByOne(targets[0]))],
            FlatMap(checks, targets[1..]), CommonAssertions(initial, final, config),
            ConcurrencyAssertions(initial, final, config, targets[0]));
  }

  /** Replacing the version assertion overwrites exactly the one on the first target. */
  lemma ReplacedShape(initial: World, final: World, config: Config, a: Assertion)
    requires ValidPageIds(config.expectedPageIds) && config.concurrency.Some?
    ensures var target := config.expectedPageIds[0];
      WithReplaced(
        EditAssertions(initial, final, config, true) + ConcurrencyAssertions(initial, final, config, target),
        BumpedByOne(target), a)
      == ContentAssertions(final, config, true, target) + ([a] + AfterFirst(initial, final, config))
  {
    var target := config.expectedPageIds[0];
    EditShape(initial, final, config);
    ReplacedAt(ContentAssertions(final, config, true, target),
               AssertVersionBumpedBy(initial, final, target, 1, BumpedByOne(target)),
               AfterFirst(initial, final, config), a);
  }

  /**
   * The concurrency verifier is exact: it passes if and only if the target list is valid, the
   * concurrency record names the first target, the human fragment is known and in the final body,
   * and the world was edited as asked with the first target two versions on. The entry between
   * the old history and the final page is not constrained at all.
   */
  lemma ConcurrentVerdict(initial: World, final: World, config: Config)
    requires Coherent(initial)
    ensures AllPassed(ConcurrentAssertions(initial, final, config))
      <==> ValidPageIds(config.expectedPageIds) && ConcurrencyOk(initial, final, config)
           && Edited(initial, final, config, true, TwoFor(config.expectedPageIds[0]))
  {
    var edit := EditAssertions(initial, final, config, true);
    if AnyConfiguration(edit) {
      ConfigurationExact(initial, final, config);
      EditVerdict(initial, final, config, true);
      ConfigurationNeverEdited(initial, final, config, One());
      if config.expectedPageIds != [] {
        ConfigurationNeverEdited(initial, final, config, TwoFor(config.expectedPageIds[0]));
      }
    } else {
      ConfigurationExact(initial, final, config);
      if config.concurrency.None? {
        FailureNeverPasses(edit, MissingConcurrency);
      } else {
        ReplacedVerdict(initial, final, config);
      }
    }
  }

  lemma AfterFirstVerdict(initial: World, final: World, config: Config)
    requires ValidPageIds(config.expectedPageIds) && config.concurrency.Some?
    ensures AllPassed(AfterFirst(initial, final, config))
      <==> (forall t | t in config.expectedPageIds[1..] :: ContentOk(final, config, true, t) && BumpedBy(initial, final, t, 1))
           && AllPassed(CommonAssertions(initial, final, config))
           && ConcurrencyOk(initial, final, config)
  {
    var conc := ConcurrencyAssertions(initial, final, config, config.expectedPageIds[0]);
    var rest := config.expectedPageIds[1..];
    PassedConcat(FlatMap(TargetAssertions(initial, final, config, true), rest), CommonAssertions(initial, final, config) + conc);
    PassedConcat(CommonAssertions(initial, final, config), conc);
    TargetsVerdict(initial, final, config, true, rest);
    ConcurrencyVerdict(initial, final, config);
  }

  lemma ReplacedListVerdict(initial: World, final: World, config: Config)
    requires Coherent(initial) && ValidPageIds(config.expectedPageIds) && config.concurrency.Some?
    ensures var target := config.expectedPageIds[0];
      var a := AssertVersionBumpedBy(initial, final, target, 2, BumpedByTwo);
      AllPassed(ContentAssertions(final, config, true, target) + ([a] + AfterFirst(initial, final, config)))
      <==> ConcurrencyOk(initial, final, config) && Edited(initial, final, config, true, TwoFor(target))
  {
    var target := config.expectedPageIds[0];
    var a, after := AssertVersionBumpedBy(initial, final, target, 2, BumpedByTwo), AfterFirst(initial, final, config);
    PassedConcat(ContentAssertions(final, config, true, target), [a] + after);
    PassedConcat([a], after);
    assert AllPassed([a]) <==> [a][0].passed;
    ContentVerdict(final, config, true, target);
    AfterFirstVerdict(initial, final, config);
    EditedByTwo(initial, final, config);
  }

  lemma ReplacedVerdict(initial: World, final: World, config: Config)
    requires Coherent(initial) && ValidPageIds(config.expectedPageIds) && config.concurrency.Some?
    requires !AnyConfiguration(EditAssertions(initial, final, config, true))
    ensures AllPassed(ConcurrentAssertions(initial, final, config))
      <==> ConcurrencyOk(initial, final, config)
           && Edited(initial, final, config, true, TwoFor(config.expectedPageIds[0]))
  {
    ReplacedShape(initial, final, config,
                  AssertVersionBumpedBy(initial, final, config.expectedPageIds[0], 2, BumpedByTwo));
    ReplacedListVerdict(initial, final, config);
  }

  /** What it means to be edited with the first target two versions on, in terms of the checks that remain. */
  lemma EditedByTwo(initial: World, final: World, config: Config)
    requires Coherent(initial) && ValidPageIds(config.expectedPageIds)
    ensures var target := config.expectedPageIds[0];
      Edited(initial, final, config, true, TwoFor(target))
      <==> ContentOk(final, config, true, target) && BumpedBy(initial, final, target, 2)
           && (forall t | t in config.expectedPageIds[1..] :: ContentOk(final, config, true, t) && BumpedBy(initial, final, t, 1))
           && AllPassed(CommonAssertions(initial, final, config))
  {
    var target, rest, delta := config.expectedPageIds[0], config.expectedPageIds[1..], TwoFor(config.expectedPageIds[0]);
    assert target !in rest && delta(target) == 2 && forall t | t in rest :: delta(t) == 1;
    assert forall t :: t in Targets(config) <==> t == target || t in rest;
    if BumpedBy(initial, final, target, 2) && forall t | t in rest :: BumpedBy(initial, final, t, 1) {
      CommonVerdict(initial, final, config, delta);
    }
  }

  /** A world like `final` but with another entry between the target's old history and its last entry. */
  function WithMiddle(final: World, target: string, index: nat, entry: Page): World {
    if index < |HistoryOf(final, target)|
    then final.(histories := final.histories[target := HistoryOf(final, target)[index := entry]])
    else final
  }

  lemma MiddleKeepsEdited(initial: World, final: World, config: Config, target: string, entry: Page)
    requires target in Targets(config) && Edited(initial, final, config, true, TwoFor(target))
    ensures Edited(initial, WithMiddle(final, target, |HistoryOf(initial, target)|, entry), config, true, TwoFor(target))
  {
    var other := WithMiddle(final, target, |HistoryOf(initial, target)|, entry);
    assert Grew(initial, final, target, 2);
    assert Grew(initial, other, target, 2);
    forall t | t in Targets(config) ensures Grew(initial, other, t, TwoFor(target)(t)) {
      assert Grew(initial, final, t, TwoFor(target)(t));
    }
  }

  /** The concurrency verifier does not see who wrote the entry in between: whatever stands there, it passes all the same. */
  lemma MiddleEntryIsFree(initial: World, final: World, config: Config, entry: Page)
    requires Coherent(initial) && config.expectedPageIds != []
    requires AllPassed(ConcurrentAssertions(initial, final, config))
    ensures var target := config.expectedPageIds[0];
      var middle := |HistoryOf(initial, target)|;
      var other := WithMiddle(final, target, middle, entry);
      && |HistoryOf(other, target)| == middle + 2 && HistoryOf(other, target)[middle] == entry
      && AllPassed(ConcurrentAssertions(initial, other, config))
  {
    var target := config.expectedPageIds[0];
    ConcurrentVerdict(initial, final, config);
    assert target in Targets(config);
    MiddleKeepsEdited(initial, final, config, target, entry);
    ConcurrentVerdict(initial, WithMiddle(final, target, |HistoryOf(initial, target)|, entry), config);
  }

  // ---- _verify_denied_write ----

  /** The denied-write verifier is exact: it passes if and only if the target exists and nothing at all changed. */
  lemma DeniedWriteVerdict(initial: World, final: World, config: Config)
    ensures AllPassed(DeniedWriteAssertions(initial, final, config))
      <==> ValidPageIds(config.expectedPageIds) && initial == final && config.expectedPageIds[0] in initial.pages
  {
    var list := DeniedWriteAssertions(initial, final, config);
    if !ValidPageIds(config.expectedPageIds) {
      assert !list[0].passed;
    } else {
      assert |list| == 3;
      assert AllPassed(list) <==> list[0].passed && list[1].passed && list[2].passed;
    }
  }
}
