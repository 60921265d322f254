/** What each assertion of a verifier says, and what the three category flags of its result mean. */
module Flags {
  import opened Options
  import opened Text
  import opened Values
  import opened Store
  import opened Verifier
  import opened Verdicts

  // ---- Categories over lists ----

  lemma CategoryConcat(a: seq<Assertion>, b: seq<Assertion>, c: Category)
    ensures CategoryPassed(a + b, c) <==> CategoryPassed(a, c) && CategoryPassed(b, c)
  {
    if CategoryPassed(a + b, c) {
      assert forall i | 0 <= i < |a| :: a[i] == (a + b)[i];
      assert forall i | 0 <= i < |b| :: b[i] == (a + b)[|a| + i];
    }
  }

  lemma {:induction false} CategoryFlatMap<A>(f: A -> seq<Assertion>, xs: seq<A>, c: Category)
    ensures CategoryPassed(FlatMap(f, xs), c) <==> forall i | 0 <= i < |xs| :: CategoryPassed(f(xs[i]), c)
  {
    if xs != [] {
      var n := |xs| - 1;
      CategoryFlatMap(f, xs[..n], c);
      CategoryConcat(FlatMap(f, xs[..n]), f(xs[n]), c);
      assert forall i | 0 <= i < n :: xs[..n][i] == xs[i];
    }
  }

  lemma CategoryOne(a: Assertion, c: Category)
    ensures CategoryPassed([a], c) <==> (a.category == c ==> a.passed)
  {
    assert [a][0] == a;
  }

  // ---- The edit verifier ----

  /** What the history assertions ask of one page: nothing new for a page that stayed, append-only for one that changed. */
  predicate HistoryKept(initial: World, final: World, id: string) {
    if Get(initial.pages, id) == Get(final.pages, id) then Get(initial.histories, id) == Get(final.histories, id)
    else
      && id in final.pages && id in final.histories
      && var before, after := HistoryOf(initial, id), final.histories[id];
         && after != [] && after[|after| - 1] == final.pages[id] && |after| == final.pages[id].version
         && var shared := if |after| - 1 <= |before| then |after| - 1 else |before|;
            after[..shared] == before[..shared]
  }

  lemma PriorKeptExact(before: seq<Page>, after: seq<Page>)
    requires after != []
    ensures var shared := if |after| - 1 <= |before| then |after| - 1 else |before|;
      PriorEntriesKept(before, after) <==> after[..shared] == before[..shared]
  {
    var shared := if |after| - 1 <= |before| then |after| - 1 else |before|;
    if after[..shared] == before[..shared] {
      assert forall i | 0 <= i < shared :: after[i] == after[..shared][i] == before[..shared][i];
    }
  }

  lemma HistoryFlags(initial: World, final: World, id: string)
    ensures var list := HistoryChecks(initial, final)(id);
      && CategoryPassed(list, Required) && CategoryPassed(list, Forbidden)
      && (CategoryPassed(list, Invariant) <==> HistoryKept(initial, final, id))
  {
    var list := HistoryAssertions(initial, final, id);
    assert forall i | 0 <= i < |list| :: list[i].category == Invariant;
    if PageChanged(initial, final, id) && id in final.pages {
      if HistoryOf(final, id) != [] {
        PriorKeptExact(HistoryOf(initial, id), HistoryOf(final, id));
      }
      assert CategoryPassed(list, Invariant) <==> list[0].passed && list[1].passed && list[2].passed;
    } else {
      assert CategoryPassed(list, Invariant) <==> list[0].passed;
    }
  }

  lemma {:induction false} EachOf(checks: string -> seq<Assertion>, ids: seq<string>, c: Category)
    ensures (forall i | 0 <= i < |ids| :: CategoryPassed(checks(ids[i]), c)) <==> forall id | id in ids :: CategoryPassed(checks(id), c)
  {
  }

  lemma {:induction false} HistoriesFlags(initial: World, final: World)
    ensures var list := FlatMap(HistoryChecks(initial, final), HistoryIds(initial, final));
      && CategoryPassed(list, Required) && CategoryPassed(list, Forbidden)
      && (CategoryPassed(list, Invariant) <==> forall id :: HistoryKept(initial, final, id))
  {
    var checks, ids := HistoryChecks(initial, final), HistoryIds(initial, final);
    forall id
      ensures CategoryPassed(checks(id), Required) && CategoryPassed(checks(id), Forbidden)
      ensures CategoryPassed(checks(id), Invariant) <==> HistoryKept(initial, final, id)
      ensures id !in ids ==> HistoryKept(initial, final, id)
    {
      HistoryFlags(initial, final, id);
      HistoryIdsCover(initial, final, id);
    }
    forall c: Category ensures CategoryPassed(FlatMap(checks, ids), c) <==> forall i | 0 <= i < |ids| :: CategoryPassed(checks(ids[i]), c) {
      CategoryFlatMap(checks, ids, c);
    }
    EachOf(checks, ids, Invariant);
  }

  /** Users, spaces, permissions and every history are as the invariants ask. */
  ghost predicate InvariantsKept(initial: World, final: World) {
    && initial.users == final.users && initial.spaces == final.spaces && initial.permissions == final.permissions
    && forall id :: HistoryKept(initial, final, id)
  }

  ghost predicate OtherPagesKept(initial: World, final: World, allowed: set<string>) {
    forall id | id !in allowed :: Get(initial.pages, id) == Get(final.pages, id)
  }

  lemma KindsFlags(initial: World, final: World)
    ensures var kinds := WorldInvariants(initial, final)[..3];
      && CategoryPassed(kinds, Required) && CategoryPassed(kinds, Forbidden)
      && (CategoryPassed(kinds, Invariant) <==>
            initial.users == final.users && initial.spaces == final.spaces && initial.permissions == final.permissions)
  {
    var kinds := WorldInvariants(initial, final)[..3];
    assert CategoryPassed(kinds, Invariant) <==> kinds[0].passed && kinds[1].passed && kinds[2].passed;
  }

  lemma {:induction false} WorldFlags(initial: World, final: World)
    ensures var list := WorldInvariants(initial, final);
      && CategoryPassed(list, Required) && CategoryPassed(list, Forbidden)
      && (CategoryPassed(list, Invariant) <==> InvariantsKept(initial, final))
  {
    var kinds := WorldInvariants(initial, final)[..3];
    var history := FlatMap(HistoryChecks(initial, final), HistoryIds(initial, final));
    HistoriesFlags(initial, final);
    assert WorldInvariants(initial, final) == kinds + history;
    CategoryConcat(kinds, history, Required);
    CategoryConcat(kinds, history, Forbidden);
    CategoryConcat(kinds, history, Invariant);
    KindsFlags(initial, final);
  }

  lemma {:induction false} CommonFlags(initial: World, final: World, config: Config)
    ensures var list := CommonAssertions(initial, final, config);
      && CategoryPassed(list, Required)
      && (CategoryPassed(list, Forbidden) <==> OtherPagesKept(initial, final, Targets(config)))
      && (CategoryPassed(list, Invariant) <==> InvariantsKept(initial, final))
  {
    var others := Assertion(NoOtherPagesChanged, OthersUnchanged(initial, final, Targets(config)), Forbidden);
    var behind := WorldInvariants(initial, final);
    WorldFlags(initial, final);
    OthersMeaning(initial, final, Targets(config));
    forall c: Category ensures CategoryPassed([others] + behind, c) <==> (others.category == c ==> others.passed) && CategoryPassed(behind, c) {
      CategoryConcat([others], behind, c);
      CategoryOne(others, c);
    }
  }

  lemma {:induction false} TargetFlags(initial: World, final: World, config: Config, exactBody: bool, page: string)
    ensures var list := TargetAssertions(initial, final, config, exactBody)(page);
      && (CategoryPassed(list, Required) <==> ContentOk(final, config, exactBody, page) && BumpedBy(initial, final, page, 1))
      && CategoryPassed(list, Forbidden) && CategoryPassed(list, Invariant)
  {
    var list := TargetAssertions(initial, final, config, exactBody)(page);
    TargetVerdict(initial, final, config, exactBody, page);
    ContentRequired(final, config, exactBody, page);
    assert forall i | 0 <= i < |list| :: list[i].category == Required;
  }

  lemma ContentRequired(final: World, config: Config, exactBody: bool, page: string)
    ensures var list := ContentAssertions(final, config, exactBody, page); forall i | 0 <= i < |list| :: list[i].category == Required
  {
  }

  lemma {:induction false} TargetsFlags(initial: World, final: World, config: Config, exactBody: bool, pages: seq<string>)
    ensures var list := FlatMap(TargetAssertions(initial, final, config, exactBody), pages);
      && (CategoryPassed(list, Required)
          <==> forall t | t in pages :: ContentOk(final, config, exactBody, t) && BumpedBy(initial, final, t, 1))
      && CategoryPassed(list, Forbidden) && CategoryPassed(list, Invariant)
  {
    var checks := TargetAssertions(initial, final, config, exactBody);
    forall t
      ensures CategoryPassed(checks(t), Required) <==> ContentOk(final, config, exactBody, t) && BumpedBy(initial, final, t, 1)
      ensures CategoryPassed(checks(t), Forbidden) && CategoryPassed(checks(t), Invariant)
    {
      TargetFlags(initial, final, config, exactBody, t);
    }
    forall c: Category ensures CategoryPassed(FlatMap(checks, pages), c) <==> forall i | 0 <= i < |pages| :: CategoryPassed(checks(pages[i]), c) {
      CategoryFlatMap(checks, pages, c);
    }
    assert (forall i | 0 <= i < |pages| :: CategoryPassed(checks(pages[i]), Required))
      <==> forall t | t in pages :: CategoryPassed(checks(t), Required);
  }

  lemma FailureFlags(e: ConfigError)
    ensures !CategoryPassed([Failure(e)], Required)
    ensures CategoryPassed([Failure(e)], Forbidden) && CategoryPassed([Failure(e)], Invariant)
  {
    CategoryOne(Failure(e), Required);
  }

  /**
   * What the flags of the edit verifier mean. Required changes: every target has the content asked
   * for, one version on. Forbidden changes: every other page is as it was. Invariants: users,
   * spaces and permissions are as they were, and histories only grew. An invalid target list
   * fails the required changes and nothing else.
   */
  lemma {:induction false} EditFlags(initial: World, final: World, config: Config, exactBody: bool)
    ensures var r := BuildResult(EditAssertions(initial, final, config, exactBody));
      if ValidPageIds(config.expectedPageIds) then
        && (r.requiredPassed <==>
              forall t | t in config.expectedPageIds :: ContentOk(final, config, exactBody, t) && BumpedBy(initial, final, t, 1))
        && (r.forbiddenPassed <==> OtherPagesKept(initial, final, Targets(config)))
        && (r.invariantsPassed <==> InvariantsKept(initial, final))
      else !r.requiredPassed && r.forbiddenPassed && r.invariantsPassed
  {
    if ValidPageIds(config.expectedPageIds) {
      var pages := FlatMap(TargetAssertions(initial, final, config, exactBody), config.expectedPageIds);
      TargetsFlags(initial, final, config, exactBody, config.expectedPageIds);
      CommonFlags(initial, final, config);
      forall c: Category
        ensures CategoryPassed(EditAssertions(initial, final, config, exactBody), c)
          <==> CategoryPassed(pages, c) && CategoryPassed(CommonAssertions(initial, final, config), c)
      {
        CategoryConcat(pages, CommonAssertions(initial, final, config), c);
      }
    } else {
      FailureFlags(PageIdError(config.expectedPageIds, InvalidPageIds).value);
    }
  }

  // ---- The preservation verifier ----

  lemma {:induction false} ForbiddenFlags(initial: World, final: World, pages: seq<string>)
    ensures var list := FlatMap(ForbiddenChecks(initial, final), pages);
      && CategoryPassed(list, Required) && CategoryPassed(list, Invariant)
      && (CategoryPassed(list, Forbidden) <==> forall page | page in pages ::
            page in initial.pages && page in final.pages && initial.pages[page] == final.pages[page])
  {
    var checks := ForbiddenChecks(initial, final);
    forall page
      ensures CategoryPassed(checks(page), Required) && CategoryPassed(checks(page), Invariant)
      ensures CategoryPassed(checks(page), Forbidden)
        <==> page in initial.pages && page in final.pages && initial.pages[page] == final.pages[page]
    {
      CategoryOne(AssertUnchanged(initial, final, page, ForbiddenPage(page)), Forbidden);
    }
    forall c: Category ensures CategoryPassed(FlatMap(checks, pages), c) <==> forall i | 0 <= i < |pages| :: CategoryPassed(checks(pages[i]), c) {
      CategoryFlatMap(checks, pages, c);
    }
    assert (forall i | 0 <= i < |pages| :: CategoryPassed(checks(pages[i]), Forbidden))
      <==> forall page | page in pages :: CategoryPassed(checks(page), Forbidden);
  }

  lemma {:induction false} PreservedFlags(initial: World, final: World, config: Config)
    requires config.expectedPageIds != []
    ensures var list := PreservedAssertions(initial, final, config);
      && (CategoryPassed(list, Required) <==> config.preservedFragments.Some? && ValidPageIds(config.forbiddenPageIds))
      && (CategoryPassed(list, Forbidden) <==> ForbiddenKept(initial, final, config))
      && CategoryPassed(list, Invariant)
  {
    if config.preservedFragments.None? {
      FailureFlags(InvalidPreservedFragments);
    } else {
      var fragments := FragmentPreservation(initial, final, config.expectedPageIds[0], config.preservedFragments.value);
      var behind := if ValidPageIds(config.forbiddenPageIds) then FlatMap(ForbiddenChecks(initial, final), config.forbiddenPageIds)
                    else [Failure(PageIdError(config.forbiddenPageIds, InvalidForbiddenPages).value)];
      if ValidPageIds(config.forbiddenPageIds) {
        ForbiddenFlags(initial, final, config.forbiddenPageIds);
      } else {
        FailureFlags(PageIdError(config.forbiddenPageIds, InvalidForbiddenPages).value);
      }
      forall c: Category ensures CategoryPassed(fragments + behind, c) <==> CategoryPassed(fragments, c) && CategoryPassed(behind, c) {
        CategoryConcat(fragments, behind, c);
      }
      assert PreservedAssertions(initial, final, config) == fragments + behind;
    }
  }

  /** Every preserved fragment is in the target before and after, and every page on a valid forbidden list is as it was. */
  ghost predicate ForbiddenKept(initial: World, final: World, config: Config)
    requires config.expectedPageIds != []
  {
    config.preservedFragments.Some? ==>
      && (forall fragment | fragment in config.preservedFragments.value ::
            FragmentPreserved(initial, final, config.expectedPageIds[0], fragment))
      && (ValidPageIds(config.forbiddenPageIds) ==> forall page | page in config.forbiddenPageIds ::
            page in initial.pages && page in final.pages && initial.pages[page] == final.pages[page])
  }

  /**
   * What the preservation verifier adds to the flags of the edit verifier: fragments and forbidden
   * pages count among the forbidden changes, and a list that is missing or invalid among the required ones.
   */
  lemma {:induction false} PreservationFlags(initial: World, final: World, config: Config)
    requires ValidPageIds(config.expectedPageIds) && forall t | t in config.expectedPageIds :: ExpectedBodyOf(config, t).Some?
    ensures var r, edit := BuildResult(PreservationAssertions(initial, final, config)), BuildResult(EditAssertions(initial, final, config, true));
      && (r.requiredPassed <==>
            edit.requiredPassed && config.preservedFragments.Some? && ValidPageIds(config.forbiddenPageIds))
      && (r.forbiddenPassed <==> edit.forbiddenPassed && ForbiddenKept(initial, final, config))
      && (r.invariantsPassed <==> edit.invariantsPassed)
  {
    var edit := EditAssertions(initial, final, config, true);
    ConfigurationExact(initial, final, config);
    PreservedFlags(initial, final, config);
    forall c: Category
      ensures CategoryPassed(PreservationAssertions(initial, final, config), c)
        <==> CategoryPassed(edit, c) && CategoryPassed(PreservedAssertions(initial, final, config), c)
    {
      CategoryConcat(edit, PreservedAssertions(initial, final, config), c);
    }
  }

  // ---- The concurrency verifier ----

  lemma ConcurrencyFlags(initial: World, final: World, config: Config)
    requires config.expectedPageIds != [] && config.concurrency.Some?
    ensures var list := ConcurrencyAssertions(initial, final, config, config.expectedPageIds[0]);
      && (CategoryPassed(list, Required) <==> ConcurrencyOk(initial, final, config))
      && CategoryPassed(list, Forbidden) && CategoryPassed(list, Invariant)
  {
    var list := ConcurrencyAssertions(initial, final, config, config.expectedPageIds[0]);
    ConcurrencyVerdict(initial, final, config);
    assert forall i | 0 <= i < |list| :: list[i].category == Required;
  }

  lemma {:induction false} ReplacedFlags(initial: World, final: World, config: Config, c: Category)
    requires ValidPageIds(config.expectedPageIds) && config.concurrency.Some?
    requires !AnyConfiguration(EditAssertions(initial, final, config, true))
    ensures var target := config.expectedPageIds[0];
      CategoryPassed(ConcurrentAssertions(initial, final, config), c)
      <==> && CategoryPassed(ContentAssertions(final, config, true, target), c)
           && CategoryPassed([AssertVersionBumpedBy(initial, final, target, 2, BumpedByTwo)], c)
           && CategoryPassed(FlatMap(TargetAssertions(initial, final, config, true), config.expectedPageIds[1..]), c)
           && CategoryPassed(CommonAssertions(initial, final, config), c)
           && CategoryPassed(ConcurrencyAssertions(initial, final, config, target), c)
  {
    var target := config.expectedPageIds[0];
    var a, content := AssertVersionBumpedBy(initial, final, target, 2, BumpedByTwo), ContentAssertions(final, config, true, target);
    var rest := FlatMap(TargetAssertions(initial, final, config, true), config.expectedPageIds[1..]);
    var common, checks := CommonAssertions(initial, final, config), ConcurrencyAssertions(initial, final, config, target);
    ReplacedShape(initial, final, config, a);
    assert AfterFirst(initial, final, config) == rest + (common + checks);
    CategoryConcat(content, [a] + (rest + (common + checks)), c);
    CategoryConcat([a], rest + (common + checks), c);
    CategoryConcat(rest, common + checks, c);
    CategoryConcat(common, checks, c);
  }

  /** Without a concurrency record. */
  lemma {:induction false} MissingFlags(initial: World, final: World, config: Config)
    requires ValidPageIds(config.expectedPageIds) && config.concurrency.None?
    requires !AnyConfiguration(EditAssertions(initial, final, config, true))
    ensures var list := ConcurrentAssertions(initial, final, config);
      && !CategoryPassed(list, Required)
      && (CategoryPassed(list, Forbidden) <==> OtherPagesKept(initial, final, Targets(config)))
      && (CategoryPassed(list, Invariant) <==> InvariantsKept(initial, final))
  {
    var edit := EditAssertions(initial, final, config, true);
    EditFlags(initial, final, config, true);
    FailureFlags(MissingConcurrency);
    CategoryConcat(edit, [Failure(MissingConcurrency)], Required);
    CategoryConcat(edit, [Failure(MissingConcurrency)], Forbidden);
    CategoryConcat(edit, [Failure(MissingConcurrency)], Invariant);
  }

  /** With one. */
  lemma {:induction false} GivenFlags(initial: World, final: World, config: Config)
    requires ValidPageIds(config.expectedPageIds) && config.concurrency.Some?
    requires !AnyConfiguration(EditAssertions(initial, final, config, true))
    ensures var list := ConcurrentAssertions(initial, final, config);
      var delta := TwoFor(config.expectedPageIds[0]);
      && (CategoryPassed(list, Required) <==>
            && ConcurrencyOk(initial, final, config)
            && forall t | t in config.expectedPageIds :: ContentOk(final, config, true, t) && BumpedBy(initial, final, t, delta(t)))
      && (CategoryPassed(list, Forbidden) <==> OtherPagesKept(initial, final, Targets(config)))
      && (CategoryPassed(list, Invariant) <==> InvariantsKept(initial, final))
  {
    ReplacedFlags(initial, final, config, Required);
    ReplacedFlags(initial, final, config, Forbidden);
    ReplacedFlags(initial, final, config, Invariant);
    FirstFlags(initial, final, config);
    TargetsFlags(initial, final, config, true, config.expectedPageIds[1..]);
    CommonFlags(initial, final, config);
    ConcurrencyFlags(initial, final, config);
    TargetsByTwo(initial, final, config);
  }

  lemma TargetsByTwo(initial: World, final: World, config: Config)
    requires ValidPageIds(config.expectedPageIds)
    ensures var target, rest := config.expectedPageIds[0], config.expectedPageIds[1..];
      var delta := TwoFor(target);
      (forall t | t in config.expectedPageIds :: ContentOk(final, config, true, t) && BumpedBy(initial, final, t, delta(t)))
      <==> ContentOk(final, config, true, target) && BumpedBy(initial, final, target, 2)
           && forall t | t in rest :: ContentOk(final, config, true, t) && BumpedBy(initial, final, t, 1)
  {
    var target, rest, delta := config.expectedPageIds[0], config.expectedPageIds[1..], TwoFor(config.expectedPageIds[0]);
    assert target !in rest && delta(target) == 2 && forall t | t in rest :: delta(t) == 1;
    assert forall t :: t in config.expectedPageIds <==> t == target || t in rest;
    if ContentOk(final, config, true, target) && BumpedBy(initial, final, target, 2)
       && forall t | t in rest :: ContentOk(final, config, true, t) && BumpedBy(initial, final, t, 1) {
      forall t | t in config.expectedPageIds ensures ContentOk(final, config, true, t) && BumpedBy(initial, final, t, delta(t)) {}
    }
  }

  lemma {:induction false} FirstFlags(initial: World, final: World, config: Config)
    requires config.expectedPageIds != []
    ensures var target := config.expectedPageIds[0];
      var content, a := ContentAssertions(final, config, true, target), AssertVersionBumpedBy(initial, final, target, 2, BumpedByTwo);
      && (CategoryPassed(content, Required) && CategoryPassed([a], Required)
          <==> ContentOk(final, config, true, target) && BumpedBy(initial, final, target, 2))
      && CategoryPassed(content, Forbidden) && CategoryPassed([a], Forbidden)
      && CategoryPassed(content, Invariant) && CategoryPassed([a], Invariant)
  {
    var target := config.expectedPageIds[0];
    ContentVerdict(final, config, true, target);
    ContentRequired(final, config, true, target);
    CategoryOne(AssertVersionBumpedBy(initial, final, target, 2, BumpedByTwo), Required);
  }

  /**
   * What the flags of the concurrency verifier mean. Required changes: the first target has its
   * content two versions on, any other one version on, and the human fragment is known and in the
   * final body. The other two flags are those of the edit verifier.
   */
  lemma {:induction false} ConcurrentFlags(initial: World, final: World, config: Config)
    requires ValidPageIds(config.expectedPageIds) && forall t | t in config.expectedPageIds :: ExpectedBodyOf(config, t).Some?
    ensures var r := BuildResult(ConcurrentAssertions(initial, final, config));
      var delta := TwoFor(config.expectedPageIds[0]);
      && (r.requiredPassed <==>
            && ConcurrencyOk(initial, final, config)
            && forall t | t in config.expectedPageIds :: ContentOk(final, config, true, t) && BumpedBy(initial, final, t, delta(t)))
      && (r.forbiddenPassed <==> OtherPagesKept(initial, final, Targets(config)))
      && (r.invariantsPassed <==> InvariantsKept(initial, final))
  {
    ConfigurationExact(initial, final, config);
    if config.concurrency.None? {
      MissingFlags(initial, final, config);
    } else {
      GivenFlags(initial, final, config);
    }
  }

  // ---- The denied-write verifier ----

  /** Nothing is required of a denied write; the target and the other pages must not change, and nothing else may either. */
  lemma {:induction false} DeniedFlags(initial: World, final: World, config: Config)
    requires ValidPageIds(config.expectedPageIds)
    ensures var r, target := BuildResult(DeniedWriteAssertions(initial, final, config)), config.expectedPageIds[0];
      && r.requiredPassed
      && (r.forbiddenPassed <==> target in initial.pages && initial.pages == final.pages)
      && (r.invariantsPassed <==> initial == final)
  {
    var list, target := DeniedWriteAssertions(initial, final, config), config.expectedPageIds[0];
    assert |list| == 3;
    OthersMeaning(initial, final, {target});
    assert CategoryPassed(list, Forbidden) <==> list[0].passed && list[1].passed;
    assert CategoryPassed(list, Invariant) <==> list[2].passed;
    if list[0].passed && list[1].passed {
      forall id ensures Get(initial.pages, id) == Get(final.pages, id) {}
      SamePages(initial.pages, final.pages);
    }
  }

  lemma SamePages(a: map<string, Page>, b: map<string, Page>)
    requires forall id :: Get(a, id) == Get(b, id)
    ensures a == b
  {
    forall id ensures id in a <==> id in b {
      assert Get(a, id) == Get(b, id);
    }
    forall id | id in a ensures a[id] == b[id] {
      assert Get(a, id) == Get(b, id);
    }
  }

  // ---- What each assertion says ----

  /** What a verifier looks at; `allowed` are the pages that may change. */
  datatype Scene = Scene(initial: World, final: World, config: Config, allowed: set<string>)

  predicate PageStayed(s: Scene, page: string) {
    page in s.initial.pages && page in s.final.pages && s.initial.pages[page] == s.final.pages[page]
  }

  /** The category that belongs to an id, and when an assertion with that id passes. */
  ghost predicate Says(s: Scene, a: Assertion) {
    match a.id
    case Configuration(_) => a.category == Required && !a.passed
    case BodyContains(page) =>
      && a.category == Required && page in s.config.fragments
      && (a.passed <==> page in s.final.pages && Contains(s.final.pages[page].body, s.config.fragments[page]))
    case BodyExact(page) =>
      && a.category == Required
      && (a.passed <==> page in s.final.pages && ExpectedBodyOf(s.config, page) == Some(s.final.pages[page].body))
    case BumpedByOne(page) =>
      && a.category == Required
      && (a.passed <==> page in s.initial.pages && page in s.final.pages
                        && s.final.pages[page].version == s.initial.pages[page].version + 1)
    case BumpedByTwo =>
      && a.category == Required && s.config.expectedPageIds != []
      && var page := s.config.expectedPageIds[0];
         (a.passed <==> page in s.initial.pages && page in s.final.pages
                        && s.final.pages[page].version == s.initial.pages[page].version + 2)
    case HumanEditPreserved =>
      && a.category == Required && s.config.expectedPageIds != []
      && var page := s.config.expectedPageIds[0];
         && HumanFragment(s.config, s.initial, page).Some?
         && (a.passed <==> page in s.final.pages
                           && Contains(s.final.pages[page].body, HumanFragment(s.config, s.initial, page).value))
    case NoOtherPagesChanged => a.category == Forbidden && (a.passed <==> OtherPagesKept(s.initial, s.final, s.allowed))
    case PreservedFragment(page, index) =>
      && a.category == Forbidden && s.config.expectedPageIds != [] && page == s.config.expectedPageIds[0]
      && s.config.preservedFragments.Some? && index < |s.config.preservedFragments.value|
      && var fragment := s.config.preservedFragments.value[index];
         (a.passed <==> page in s.initial.pages && page in s.final.pages
                        && Contains(s.initial.pages[page].body, fragment) && Contains(s.final.pages[page].body, fragment))
    case ForbiddenPage(page) => a.category == Forbidden && (a.passed <==> PageStayed(s, page))
    case DeniedTarget =>
      a.category == Forbidden && s.config.expectedPageIds != [] && (a.passed <==> PageStayed(s, s.config.expectedPageIds[0]))
    case UsersUnchanged => a.category == Invariant && (a.passed <==> s.initial.users == s.final.users)
    case SpacesUnchanged => a.category == Invariant && (a.passed <==> s.initial.spaces == s.final.spaces)
    case PermissionsUnchanged => a.category == Invariant && (a.passed <==> s.initial.permissions == s.final.permissions)
    case NoAttemptPersisted => a.category == Invariant && (a.passed <==> s.initial == s.final)
    case HistoryUnchanged(page) =>
      && a.category == Invariant && Get(s.initial.pages, page) == Get(s.final.pages, page)
      && (a.passed <==> Get(s.initial.histories, page) == Get(s.final.histories, page))
    case HistoryFinalPage(page) => a.category == Invariant && page in s.initial.pages && page !in s.final.pages && !a.passed
    case HistoryLength(page) =>
      && a.category == Invariant && page in s.final.pages
      && (a.passed <==> page in s.final.histories && |s.final.histories[page]| == s.final.pages[page].version)
    case HistoryPriorEntries(page) =>
      && a.category == Invariant && page in s.final.pages
      && (HistoryOf(s.final, page) != [] ==> (a.passed <==> PriorEntriesKept(HistoryOf(s.initial, page), HistoryOf(s.final, page))))
    case HistoryFinalEntry(page) =>
      && a.category == Invariant && page in s.final.pages
      && var history := HistoryOf(s.final, page);
         (a.passed <==> history != [] && history[|history| - 1] == s.final.pages[page])
  }

  ghost predicate AllSay(s: Scene, list: seq<Assertion>) {
    forall i | 0 <= i < |list| :: Says(s, list[i])
  }

  lemma AllSayConcat(s: Scene, a: seq<Assertion>, b: seq<Assertion>)
    requires AllSay(s, a) && AllSay(s, b)
    ensures AllSay(s, a + b)
  {
  }

  lemma {:induction false} AllSayFlatMap<A>(s: Scene, f: A -> seq<Assertion>, xs: seq<A>)
    requires forall i | 0 <= i < |xs| :: AllSay(s, f(xs[i]))
    ensures AllSay(s, FlatMap(f, xs))
  {
    if xs != [] {
      var n := |xs| - 1;
      assert forall i | 0 <= i < n :: xs[..n][i] == xs[i];
      AllSayFlatMap(s, f, xs[..n]);
      AllSayConcat(s, FlatMap(f, xs[..n]), f(xs[n]));
    }
  }

  lemma {:induction false} HistoriesSay(s: Scene)
    ensures AllSay(s, FlatMap(HistoryChecks(s.initial, s.final), HistoryIds(s.initial, s.final)))
  {
    var checks, ids := HistoryChecks(s.initial, s.final), HistoryIds(s.initial, s.final);
    forall i | 0 <= i < |ids| ensures AllSay(s, checks(ids[i])) {
      HistorySay(s, ids[i]);
    }
    AllSayFlatMap(s, checks, ids);
  }

  lemma KindsSay(s: Scene)
    ensures AllSay(s, [Assertion(UsersUnchanged, s.initial.users == s.final.users, Invariant),
                       Assertion(SpacesUnchanged, s.initial.spaces == s.final.spaces, Invariant),
                       Assertion(PermissionsUnchanged, s.initial.permissions == s.final.permissions, Invariant)])
  {
  }

  lemma {:induction false} OthersSay(s: Scene)
    ensures AllSay(s, [Assertion(NoOtherPagesChanged, OthersUnchanged(s.initial, s.final, s.allowed), Forbidden)])
  {
    OthersMeaning(s.initial, s.final, s.allowed);
  }

  lemma {:induction false} CommonSay(s: Scene)
    requires s.allowed == Targets(s.config)
    ensures AllSay(s, CommonAssertions(s.initial, s.final, s.config))
  {
    var kinds := [Assertion(UsersUnchanged, s.initial.users == s.final.users, Invariant),
                  Assertion(SpacesUnchanged, s.initial.spaces == s.final.spaces, Invariant),
                  Assertion(PermissionsUnchanged, s.initial.permissions == s.final.permissions, Invariant)];
    var others := [Assertion(NoOtherPagesChanged, OthersUnchanged(s.initial, s.final, s.allowed), Forbidden)];
    var history := FlatMap(HistoryChecks(s.initial, s.final), HistoryIds(s.initial, s.final));
    HistoriesSay(s);
    KindsSay(s);
    OthersSay(s);
    AllSayConcat(s, kinds, history);
    AllSayConcat(s, others, kinds + history);
    assert CommonAssertions(s.initial, s.final, s.config) == others + (kinds + history);
  }

  lemma HistorySay(s: Scene, id: string)
    ensures AllSay(s, HistoryAssertions(s.initial, s.final, id))
  {
  }

  lemma TargetSay(s: Scene, exactBody: bool, page: string)
    ensures AllSay(s, TargetAssertions(s.initial, s.final, s.config, exactBody)(page))
  {
    AllSayConcat(s, FragmentAssertions(s.final, s.config, exactBody, page), BodyAssertions(s.final, s.config, exactBody, page));
  }

  /** Each assertion of the edit verifier passes exactly when what its id names is the case, and has the category of its id. */
  lemma {:induction false} EditSays(s: Scene, exactBody: bool)
    requires s.allowed == Targets(s.config)
    ensures AllSay(s, EditAssertions(s.initial, s.final, s.config, exactBody))
  {
    if ValidPageIds(s.config.expectedPageIds) {
      var checks, pages := TargetAssertions(s.initial, s.final, s.config, exactBody), s.config.expectedPageIds;
      forall i | 0 <= i < |pages| ensures AllSay(s, checks(pages[i])) {
        TargetSay(s, exactBody, pages[i]);
      }
      AllSayFlatMap(s, checks, pages);
      CommonSay(s);
      AllSayConcat(s, FlatMap(checks, pages), CommonAssertions(s.initial, s.final, s.config));
    }
  }

  lemma {:induction false} PreservedSay(s: Scene)
    requires s.config.expectedPageIds != []
    ensures AllSay(s, PreservedAssertions(s.initial, s.final, s.config))
  {
    if s.config.preservedFragments.Some? {
      var fragments := FragmentPreservation(s.initial, s.final, s.config.expectedPageIds[0], s.config.preservedFragments.value);
      var error := PageIdError(s.config.forbiddenPageIds, InvalidForbiddenPages);
      var behind := if error.Some? then [Failure(error.value)]
                    else FlatMap(ForbiddenChecks(s.initial, s.final), s.config.forbiddenPageIds);
      FragmentsSay(s, s.config.expectedPageIds[0], s.config.preservedFragments.value);
      if error.None? {
        ForbiddenSay(s, s.config.forbiddenPageIds);
      }
      AllSayConcat(s, fragments, behind);
    }
  }

  lemma FragmentsSay(s: Scene, page: string, fragments: seq<string>)
    requires s.config.preservedFragments == Some(fragments)
    requires s.config.expectedPageIds != [] && page == s.config.expectedPageIds[0]
    ensures AllSay(s, FragmentPreservation(s.initial, s.final, page, fragments))
  {
  }

  lemma {:induction false} ForbiddenSay(s: Scene, pages: seq<string>)
    ensures AllSay(s, FlatMap(ForbiddenChecks(s.initial, s.final), pages))
  {
    AllSayFlatMap(s, ForbiddenChecks(s.initial, s.final), pages);
  }

  /** The same for the preservation verifier. */
  lemma {:induction false} PreservationSays(s: Scene)
    requires s.allowed == Targets(s.config)
    ensures AllSay(s, PreservationAssertions(s.initial, s.final, s.config))
  {
    EditSays(s, true);
    if s.config.expectedPageIds != [] {
      PreservedSay(s);
      AllSayConcat(s, EditAssertions(s.initial, s.final, s.config, true), PreservedAssertions(s.initial, s.final, s.config));
    }
  }

  lemma ReplacedSay(s: Scene, list: seq<Assertion>, id: AssertionId, a: Assertion)
    requires AllSay(s, list) && Says(s, a)
    ensures AllSay(s, WithReplaced(list, id, a))
  {
  }

  lemma ConcurrencySay(s: Scene)
    requires s.config.expectedPageIds != [] && s.config.concurrency.Some?
    ensures AllSay(s, ConcurrencyAssertions(s.initial, s.final, s.config, s.config.expectedPageIds[0]))
  {
  }

  /** The same for the concurrency verifier. */
  lemma {:induction false} ConcurrentSays(s: Scene)
    requires s.allowed == Targets(s.config)
    ensures AllSay(s, ConcurrentAssertions(s.initial, s.final, s.config))
  {
    var edit := EditAssertions(s.initial, s.final, s.config, true);
    EditSays(s, true);
    if s.config.expectedPageIds != [] && s.config.concurrency.None? {
      AllSayConcat(s, edit, [Failure(MissingConcurrency)]);
    } else if s.config.expectedPageIds != [] {
      var target := s.config.expectedPageIds[0];
      ConcurrencySay(s);
      AllSayConcat(s, edit, ConcurrencyAssertions(s.initial, s.final, s.config, target));
      ReplacedSay(s, edit + ConcurrencyAssertions(s.initial, s.final, s.config, target), BumpedByOne(target),
                  AssertVersionBumpedBy(s.initial, s.final, target, 2, BumpedByTwo));
    }
  }

  /** The same for the denied-write verifier. */
  lemma DeniedSays(s: Scene)
    requires s.config.expectedPageIds != [] ==> s.allowed == {s.config.expectedPageIds[0]}
    ensures AllSay(s, DeniedWriteAssertions(s.initial, s.final, s.config))
  {
    OthersMeaning(s.initial, s.final, s.allowed);
  }
}
