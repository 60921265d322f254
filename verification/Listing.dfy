/** Listing, searching and paging through the pages an actor may read. */
module Listing {
  import opened Options
  import opened Ordering
  import opened Text
  import opened Values
  import opened Permissions
  import opened Protocol

  function Haystack(page: Page): string {
    page.id + " " + page.spaceId + " " + page.title + " " + page.body
  }

  predicate Matches(page: Page, query: Option<string>, fold: Folding) {
    query.None? || Contains(fold(Haystack(page)), fold(query.value))
  }

  predicate Listed(w: World, fold: Folding, actor: Actor, query: Option<string>, id: string) {
    id in w.pages && CanAccess(w, w.pages[id], actor, ReadPage, fold) && Matches(w.pages[id], query, fold)
  }

  /** Folding works character by character, as `str.casefold` does, and leaves spaces alone. */
  ghost predicate Charwise(fold: Folding) {
    fold(" ") == " " && forall a, b :: fold(a + b) == fold(a) + fold(b)
  }

  lemma OccursInJoin(a: string, b: string, needle: string, i: int)
    requires needle != "" && OccursAt(a + " " + b, needle, i)
    ensures Contains(a, needle) || Contains(b, needle) || ' ' in needle
  {
    var s, n := a + " " + b, |needle|;
    if i + n <= |a| {
      assert s[i..i + n] == a[i..i + n];
      assert OccursAt(a, needle, i);
    } else if i > |a| {
      assert s[i..i + n] == b[i - |a| - 1..i - |a| - 1 + n];
      assert OccursAt(b, needle, i - |a| - 1);
    } else {
      assert s[|a|] == ' ' && needle[|a| - i] == s[i..i + n][|a| - i];
    }
  }

  lemma {:induction false} ContainsInJoin(a: string, b: string, needle: string)
    ensures Contains(a, needle) || Contains(b, needle) ==> Contains(a + " " + b, needle)
    ensures ' ' !in needle ==> (Contains(a + " " + b, needle) <==> Contains(a, needle) || Contains(b, needle))
  {
    ContainsMiddle("", a, " " + b);
    ContainsMiddle(a + " ", b, "");
    assert "" + a + (" " + b) == a + " " + b && a + " " + b + "" == a + " " + b;
    if needle == "" {
      assert OccursAt(a, needle, 0) && OccursAt(a + " " + b, needle, 0);
    } else if Contains(a, needle) {
      ContainsTransitive(a + " " + b, a, needle);
    } else if Contains(b, needle) {
      ContainsTransitive(a + " " + b, b, needle);
    } else if ' ' !in needle && Contains(a + " " + b, needle) {
      var i :| 0 <= i <= |a + " " + b| && OccursAt(a + " " + b, needle, i);
      OccursInJoin(a, b, needle, i);
    }
  }

  /**
   * What a search finds: every page with the query in its id, its space, its title or its body,
   * whatever the case; and for a query without a space, no other page.
   */
  lemma {:induction false} SearchFinds(page: Page, query: string, fold: Folding)
    requires Charwise(fold)
    ensures var q := fold(query);
      var found := Contains(fold(page.id), q) || Contains(fold(page.spaceId), q) || Contains(fold(page.title), q) || Contains(fold(page.body), q);
      && (found ==> Matches(page, Some(query), fold))
      && (' ' !in q ==> (Matches(page, Some(query), fold) <==> found))
  {
    var q := fold(query);
    var a, b, c := page.id + " " + page.spaceId, page.id + " " + page.spaceId + " " + page.title, Haystack(page);
    assert fold(a) == fold(page.id) + " " + fold(page.spaceId);
    assert b == a + " " + page.title && fold(b) == fold(a) + " " + fold(page.title);
    assert c == b + " " + page.body && fold(c) == fold(b) + " " + fold(page.body);
    ContainsInJoin(fold(page.id), fold(page.spaceId), q);
    ContainsInJoin(fold(a), fold(page.title), q);
    ContainsInJoin(fold(b), fold(page.body), q);
  }

  function ListedIds(w: World, fold: Folding, actor: Actor, query: Option<string>): seq<string> {
    SortedIds(set id | id in w.pages && Listed(w, fold, actor, query, id))
  }

  /** `_visible_pages`, on worlds that key each page by its id: the readable, matching pages sorted by id. */
  function VisiblePages(w: World, fold: Folding, actor: Actor, query: Option<string>): seq<Page> {
    var ids := ListedIds(w, fold, actor, query);
    seq(|ids|, i requires 0 <= i < |ids| => assert ids[i] in ids; w.pages[ids[i]])
  }

  /**
   * The loop of `_visible_pages` over the pages in whatever order the store holds them, and the sort
   * after it: the listing does not depend on that order.
   */
  method CollectVisible(
      w: World, fold: Folding, actor: Actor, query: Option<string>, order: seq<string>)
    returns (pages: seq<Page>)
    requires forall id :: id in order <==> id in w.pages
    ensures pages == VisiblePages(w, fold, actor, query)
  {
    var visible: set<string> := {};
    for i := 0 to |order|
      invariant forall id :: id in visible <==> id in order[..i] && Listed(w, fold, actor, query, id)
    {
      assert order[..i + 1] == order[..i] + [order[i]];
      var shown := IsVisible(w, fold, actor, query, w.pages[order[i]]);
      assert shown == Listed(w, fold, actor, query, order[i]);
      if shown {
        visible := visible + {order[i]};
      }
    }
    assert order[..|order|] == order;
    assert visible == set id | id in w.pages && Listed(w, fold, actor, query, id);
    var ids := SortedIds(visible);
    pages := seq(|ids|, i requires 0 <= i < |ids| => assert ids[i] in ids; w.pages[ids[i]]);
  }

  /** The body of that loop: first the permission, then the query. */
  method IsVisible(w: World, fold: Folding, actor: Actor, query: Option<string>, page: Page) returns (visible: bool)
    ensures visible == (CanAccess(w, page, actor, ReadPage, fold) && Matches(page, query, fold))
  {
    if !CanAccess(w, page, actor, ReadPage, fold) {
      return false;
    }
    visible := query.None? || Contains(fold(Haystack(page)), fold(query.value));
  }

  /** A Python slice `items[offset : offset + limit]`. */
  function Slice<T>(items: seq<T>, limit: nat, offset: nat): seq<T> {
    var end := if offset + limit <= |items| then offset + limit else |items|;
    if offset <= end then items[offset..end] else []
  }

  /** A client that asks for offset 0, limit, 2 * limit, ... until the offset reaches the total it was told. */
  function Walk<T>(items: seq<T>, limit: nat, offset: nat): seq<seq<T>>
    requires limit > 0
    decreases |items| - offset
  {
    if offset >= |items| then [] else [Slice(items, limit, offset)] + Walk(items, limit, offset + limit)
  }

  function Flatten<T>(parts: seq<seq<T>>): seq<T> {
    if parts == [] then [] else parts[0] + Flatten(parts[1..])
  }

  /** Walking the pages covers the whole listing, in order and once. */
  lemma {:induction false} WalkCovers<T>(items: seq<T>, limit: nat, offset: nat)
    requires limit > 0 && offset <= |items|
    ensures Flatten(Walk(items, limit, offset)) == items[offset..]
    decreases |items| - offset
  {
    if offset < |items| {
      var next := offset + limit;
      if next <= |items| {
        WalkCovers(items, limit, next);
        assert items[offset..] == items[offset..next] + items[next..];
      } else {
        assert Flatten(Walk(items, limit, next)) == [];
        assert Slice(items, limit, offset) == items[offset..];
      }
    }
  }

  lemma MulNext(n: int, limit: int)
    ensures (n + 1) * limit == n * limit + limit
  {
  }

  /** The walk takes exactly as many requests as it needs: ceil(|items| / limit). */
  lemma {:induction false} WalkLength<T>(items: seq<T>, limit: nat, offset: nat)
    requires limit > 0 && offset <= |items|
    ensures var n := |Walk(items, limit, offset)|;
      && |items| - offset <= n * limit
      && (n > 0 ==> (n - 1) * limit < |items| - offset)
    decreases |items| - offset
  {
    if offset < |items| {
      var n := |Walk(items, limit, offset + limit)|;
      if offset + limit <= |items| {
        WalkLength(items, limit, offset + limit);
        MulNext(n, limit);
        MulNext(n - 1, limit);
      }
    }
  }

  /** A page that exists is listed for an actor at one moment if and only if it is at every later moment. */
  lemma ListedStays(ws: seq<World>, trace: seq<Event>, j: nat, k: nat, fold: Folding, actor: Actor, id: string)
    requires Execution(ws, trace) && j <= k < |ws| && id in ws[j].pages
    ensures id in ListedIds(ws[j], fold, actor, None) <==> id in ListedIds(ws[k], fold, actor, None)
  {
    AccessStays(ws, trace, j, k, id, actor, ReadPage, fold);
  }

  lemma NoNewPages(ws: seq<World>, trace: seq<Event>, k: nat)
    requires Execution(ws, trace) && k < |ws|
    requires forall i | 0 <= i < |trace| :: !trace[i].Made?
    ensures ws[k].pages.Keys == ws[0].pages.Keys
  {
    if k > 0 {
      NoNewPages(ws, trace, k - 1);
      assert HappensAt(ws, trace, k - 1) && !trace[k - 1].Made?;
    }
  }

  /** Executions without creations leave an actor's unfiltered listing the same list of ids. */
  lemma WritesKeepListing(ws: seq<World>, trace: seq<Event>, k: nat, fold: Folding, actor: Actor)
    requires Execution(ws, trace) && k < |ws|
    requires forall i | 0 <= i < |trace| :: !trace[i].Made?
    ensures ListedIds(ws[k], fold, actor, None) == ListedIds(ws[0], fold, actor, None)
  {
    NoNewPages(ws, trace, k);
    forall id ensures id in ListedIds(ws[0], fold, actor, None) <==> id in ListedIds(ws[k], fold, actor, None) {
      if id in ws[0].pages {
        ListedStays(ws, trace, 0, k, fold, actor, id);
      }
    }
    SortedIdsSorted(set id | id in ws[0].pages && Listed(ws[0], fold, actor, None, id));
    SortedIdsSorted(set id | id in ws[k].pages && Listed(ws[k], fold, actor, None, id));
    SortedUnique(ListedIds(ws[0], fold, actor, None), ListedIds(ws[k], fold, actor, None));
  }

  /** A walk whose request `i` meets the listing `lists[i]`. */
  function WalkOver(lists: seq<seq<string>>, limit: nat, offset: nat): seq<string>
    decreases |lists|
  {
    if lists == [] then [] else Slice(lists[0], limit, offset) + WalkOver(lists[1..], limit, offset + limit)
  }

  lemma {:induction false} WalkOverSame(lists: seq<seq<string>>, ids: seq<string>, limit: nat, offset: nat)
    requires forall i | 0 <= i < |lists| :: lists[i] == ids
    requires |ids| <= offset + |lists| * limit
    ensures WalkOver(lists, limit, offset) == if offset <= |ids| then ids[offset..] else []
    decreases |lists|
  {
    if lists != [] {
      MulNext(|lists[1..]|, limit);
      WalkOverSame(lists[1..], ids, limit, offset + limit);
      if offset + limit <= |ids| {
        assert ids[offset..] == ids[offset..offset + limit] + ids[offset + limit..];
      }
    }
  }

  /**
   * A walk whose requests fall between any writes at all (request `i` meets the world of moment
   * `times[i]`) still sees every readable page exactly once, in order.
   */
  lemma WalkUnderWrites(
    ws: seq<World>, trace: seq<Event>, times: seq<nat>, fold: Folding, actor: Actor, limit: nat)
    requires Execution(ws, trace)
    requires forall i | 0 <= i < |trace| :: !trace[i].Made?
    requires forall i | 0 <= i < |times| :: times[i] < |ws|
    requires |ListedIds(ws[0], fold, actor, None)| <= |times| * limit
    ensures var lists := seq(|times|, i requires 0 <= i < |times| => ListedIds(ws[times[i]], fold, actor, None));
      WalkOver(lists, limit, 0) == ListedIds(ws[0], fold, actor, None)
  {
    var ids := ListedIds(ws[0], fold, actor, None);
    var lists := seq(|times|, i requires 0 <= i < |times| => ListedIds(ws[times[i]], fold, actor, None));
    forall i | 0 <= i < |times| ensures lists[i] == ids {
      WritesKeepListing(ws, trace, times[i], fold, actor);
    }
    WalkOverSame(lists, ids, limit, 0);
  }

  // ---- Walking while pages are created ----

  predicate Within(a: seq<string>, b: seq<string>) {
    forall x | x in a :: x in b
  }

  /** In a larger sorted list an element stands no earlier. */
  lemma {:induction false} PositionGrows(a: seq<string>, b: seq<string>, i: nat, j: nat)
    requires StrictlySorted(a) && StrictlySorted(b) && Within(a, b)
    requires i < |a| && j < |b| && a[i] == b[j]
    ensures i <= j
    decreases i
  {
    if i > 0 {
      assert a[i - 1] in b;
      var m :| 0 <= m < |b| && b[m] == a[i - 1];
      PositionGrows(a, b, i - 1, m);
      if m >= j {
        LeReflexive(a[i]);
        LeAntisymmetric(a[i - 1], a[i]);
      }
    }
  }

  /** Sorted lists of which each holds all of the one before. */
  ghost predicate Growing(lists: seq<seq<string>>) {
    && (forall i | 0 <= i < |lists| :: StrictlySorted(lists[i]))
    && (forall i | 0 <= i < |lists| - 1 :: Within(lists[i], lists[i + 1]))
  }

  lemma SliceHas(items: seq<string>, limit: nat, offset: nat, j: nat)
    requires offset <= j < |items| && j < offset + limit
    ensures items[j] in Slice(items, limit, offset)
  {
    assert Slice(items, limit, offset)[j - offset] == items[j];
  }

  /** A walk over growing listings that goes on to the end of the last one meets everything it has not passed. */
  lemma {:induction false} GrowingWalkSees(lists: seq<seq<string>>, limit: nat, offset: nat, x: string, j: nat)
    requires lists != [] && Growing(lists) && offset <= j < |lists[0]| && lists[0][j] == x
    requires |lists[|lists| - 1]| <= offset + |lists| * limit
    ensures x in WalkOver(lists, limit, offset)
    decreases |lists|
  {
    var rest := lists[1..];
    MulNext(|rest|, limit);
    if j < offset + limit {
      SliceHas(lists[0], limit, offset, j);
    } else if rest != [] {
      assert x in lists[0] && x in lists[1];
      var m :| 0 <= m < |lists[1]| && lists[1][m] == x;
      PositionGrows(lists[0], lists[1], j, m);
      assert forall i | 0 <= i < |rest| :: rest[i] == lists[i + 1];
      GrowingWalkSees(rest, limit, offset + limit, x, m);
    }
  }

  function ListingsAt(ws: seq<World>, times: seq<nat>, fold: Folding, actor: Actor): (lists: seq<seq<string>>)
    requires forall i | 0 <= i < |times| :: times[i] < |ws|
    ensures |lists| == |times| && forall i | 0 <= i < |times| :: lists[i] == ListedIds(ws[times[i]], fold, actor, None)
  {
    seq(|times|, i requires 0 <= i < |times| => ListedIds(ws[times[i]], fold, actor, None))
  }

  lemma ListingsGrow(ws: seq<World>, trace: seq<Event>, times: seq<nat>, fold: Folding, actor: Actor)
    requires Execution(ws, trace)
    requires forall i | 0 <= i < |times| :: times[i] < |ws|
    requires forall i | 0 <= i < |times| - 1 :: times[i] <= times[i + 1]
    ensures Growing(ListingsAt(ws, times, fold, actor))
  {
    var lists := ListingsAt(ws, times, fold, actor);
    forall i | 0 <= i < |lists| ensures StrictlySorted(lists[i]) {
      SortedIdsSorted(set x | x in ws[times[i]].pages && Listed(ws[times[i]], fold, actor, None, x));
    }
    forall i | 0 <= i < |lists| - 1 ensures Within(lists[i], lists[i + 1]) {
      forall x | x in lists[i] ensures x in lists[i + 1] {
        ListedStays(ws, trace, times[i], times[i + 1], fold, actor, x);
      }
    }
  }

  /**
   * With creations between the requests as well, a walk that goes on to the end loses no page: it
   * sees every page that the actor could read when it began. It may see a page twice, when a new one
   * pushes it over the boundary of two requests.
   */
  lemma WalkUnderCreations(
    ws: seq<World>, trace: seq<Event>, times: seq<nat>, fold: Folding, actor: Actor, limit: nat, id: string)
    requires Execution(ws, trace) && times != []
    requires forall i | 0 <= i < |times| :: times[i] < |ws|
    requires forall i | 0 <= i < |times| - 1 :: times[i] <= times[i + 1]
    requires |ListedIds(ws[times[|times| - 1]], fold, actor, None)| <= |times| * limit
    requires id in ListedIds(ws[times[0]], fold, actor, None)
    ensures id in WalkOver(ListingsAt(ws, times, fold, actor), limit, 0)
  {
    var lists := ListingsAt(ws, times, fold, actor);
    ListingsGrow(ws, trace, times, fold, actor);
    var j :| 0 <= j < |lists[0]| && lists[0][j] == id;
    GrowingWalkSees(lists, limit, 0, id, j);
  }
}
