/**
 * Optimistic concurrency over whole executions: what holds of any sequence of reads, creations
 * and guarded writes on a coherent world, whoever makes them and however they interleave.
 */
module Protocol {
  import opened Options
  import opened Values
  import opened Store
  import opened Permissions

  /** What one request turned out to be. `replaced` is the page that was live when the write happened. */
  datatype Event =
    | Read(id: string, page: Page)
    | Wrote(id: string, replaced: Page, written: Page)
    | Made(id: string, page: Page)
    | Refused(status: int)

  /** `v` is `w` after one write of `written` to the page `id`, which keeps everything but title, body and version. */
  predicate OneWrite(w: World, v: World, id: string, written: Page) {
    && id in w.pages && id in w.histories
    && v == w.(pages := w.pages[id := written], histories := w.histories[id := w.histories[id] + [written]])
    && written.version == w.pages[id].version + 1
    && SameIdentity(w.pages[id], written)
  }

  /** What an event says about the world before and after it. */
  predicate Happens(w: World, e: Event, v: World) {
    match e
    case Refused(_) => v == w
    case Read(id, page) => v == w && id in w.pages && page == w.pages[id]
    case Wrote(id, replaced, written) => id in w.pages && replaced == w.pages[id] && OneWrite(w, v, id, written)
    case Made(id, page) =>
      && id !in w.pages && page.id == id && page.version == 1
      && v == w.(pages := w.pages[id := page], histories := w.histories[id := [page]])
  }

  /** The worlds between the events of one execution. */
  predicate Execution(ws: seq<World>, trace: seq<Event>) {
    && |ws| == |trace| + 1
    && Coherent(ws[0])
    && forall k | 0 <= k < |trace| :: HappensAt(ws, trace, k)
  }

  predicate HappensAt(ws: seq<World>, trace: seq<Event>, k: nat)
    requires |ws| == |trace| + 1 && k < |trace|
  {
    Happens(ws[k], trace[k], ws[k + 1])
  }

  /** The history entries that events account for on one page. */
  function Entries(e: Event, id: string): seq<Page> {
    match e
    case Wrote(i, _, written) => if i == id then [written] else []
    case Made(i, page) => if i == id then [page] else []
    case _ => []
  }

  /** The entries that the first `k` events account for on one page, in order. */
  function EntriesUpTo(trace: seq<Event>, k: nat, id: string): seq<Page>
    requires k <= |trace|
  {
    if k == 0 then [] else EntriesUpTo(trace, k - 1, id) + Entries(trace[k - 1], id)
  }

  lemma StepKeepsCoherence(w: World, e: Event, v: World)
    requires Coherent(w) && Happens(w, e, v)
    ensures Coherent(v)
  {
    if e.Wrote? || e.Made? {
      forall id | id in v.pages ensures CoherentPage(id, v.pages[id], v.histories[id]) {
        if id in w.pages {
          assert CoherentPage(id, w.pages[id], w.histories[id]);
        }
      }
    }
  }

  lemma StepExtendsHistory(w: World, e: Event, v: World, id: string)
    requires Coherent(w) && Happens(w, e, v)
    ensures HistoryOf(v, id) == HistoryOf(w, id) + Entries(e, id)
  {
  }

  lemma {:induction false} AllCoherent(ws: seq<World>, trace: seq<Event>, k: nat)
    requires Execution(ws, trace) && k < |ws|
    ensures Coherent(ws[k])
  {
    if k > 0 {
      AllCoherent(ws, trace, k - 1);
      assert HappensAt(ws, trace, k - 1);
      StepKeepsCoherence(ws[k - 1], trace[k - 1], ws[k]);
    }
  }

  lemma HistoryNext(ws: seq<World>, trace: seq<Event>, k: nat, id: string)
    requires Execution(ws, trace) && 0 < k < |ws|
    ensures HistoryOf(ws[k], id) == HistoryOf(ws[k - 1], id) + Entries(trace[k - 1], id)
  {
    AllCoherent(ws, trace, k - 1);
    assert HappensAt(ws, trace, k - 1);
    StepExtendsHistory(ws[k - 1], trace[k - 1], ws[k], id);
  }

  /**
   * Nothing is lost and nothing is invented: at every moment a page's history is its first
   * history followed by exactly the successful writes so far, in order.
   */
  lemma {:induction false} HistoryIsTheWrites(ws: seq<World>, trace: seq<Event>, k: nat, id: string)
    requires Execution(ws, trace) && k < |ws|
    ensures HistoryOf(ws[k], id) == HistoryOf(ws[0], id) + EntriesUpTo(trace, k, id)
    decreases k
  {
    if k > 0 {
      HistoryIsTheWrites(ws, trace, k - 1, id);
      HistoryNext(ws, trace, k, id);
      var first, before, last := HistoryOf(ws[0], id), EntriesUpTo(trace, k - 1, id), Entries(trace[k - 1], id);
      Regroup(first, before, last);
      assert EntriesUpTo(trace, k, id) == before + last;
      assert HistoryOf(ws[k], id) == (first + before) + last;
    }
  }

  /** The page an event showed to a client. */
  function Shown(e: Event): Page
    requires !e.Refused?
  {
    match e
    case Read(_, page) => page
    case Wrote(_, _, written) => written
    case Made(_, page) => page
  }

  /** `page` is the entry that the history of `id` keeps for its version. */
  predicate Kept(w: World, id: string, page: Page) {
    1 <= page.version <= |HistoryOf(w, id)| && HistoryOf(w, id)[page.version - 1] == page
  }

  lemma LivePageIsKept(w: World, id: string)
    requires Coherent(w) && id in w.pages
    ensures Kept(w, id, w.pages[id]) && w.pages[id].version == |HistoryOf(w, id)|
  {
    assert CoherentPage(id, w.pages[id], w.histories[id]);
  }

  /** A page once shown stays on record at its version, whatever happens later. */
  lemma {:induction false} ShownStaysKept(ws: seq<World>, trace: seq<Event>, j: nat, k: nat)
    requires Execution(ws, trace) && j < k <= |trace| && !trace[j].Refused?
    ensures Kept(ws[k], trace[j].id, Shown(trace[j]))
    decreases k
  {
    AllCoherent(ws, trace, k - 1);
    AllCoherent(ws, trace, k);
    assert HappensAt(ws, trace, k - 1);
    if k == j + 1 {
      LivePageIsKept(ws[k], trace[j].id);
    } else {
      ShownStaysKept(ws, trace, j, k - 1);
      StepExtendsHistory(ws[k - 1], trace[k - 1], ws[k], trace[j].id);
    }
  }

  /**
   * No lost update. In every execution, a write never replaces anything older than a version
   * already shown for that page; and a write against the version a client was shown replaces
   * exactly the page that client saw.
   */
  lemma NoLostUpdate(ws: seq<World>, trace: seq<Event>, j: nat, k: nat)
    requires Execution(ws, trace) && j < k < |trace|
    requires !trace[j].Refused? && trace[k].Wrote? && trace[k].id == trace[j].id
    ensures trace[k].replaced.version >= Shown(trace[j]).version
    ensures trace[k].replaced.version == Shown(trace[j]).version ==> trace[k].replaced == Shown(trace[j])
  {
    ShownStaysKept(ws, trace, j, k);
    AllCoherent(ws, trace, k);
    assert HappensAt(ws, trace, k);
    LivePageIsKept(ws[k], trace[k].id);
  }

  /** A page that is not written between two moments is the same page at both. */
  lemma {:induction false} PageStays(ws: seq<World>, trace: seq<Event>, j: nat, k: nat, id: string)
    requires Execution(ws, trace) && j <= k < |ws| && id in ws[j].pages
    requires forall m | j <= m < k :: !(trace[m].Wrote? && trace[m].id == id)
    ensures id in ws[k].pages && ws[k].pages[id] == ws[j].pages[id]
    decreases k
  {
    if j < k {
      PageStays(ws, trace, j, k - 1, id);
      assert HappensAt(ws, trace, k - 1);
      assert !(trace[k - 1].Wrote? && trace[k - 1].id == id);
    }
  }

  /**
   * At most one write succeeds per expected version: each write makes exactly the next version,
   * later writes replace later versions, and the write that follows another on the same page
   * replaces exactly the page that one wrote.
   */
  lemma OneWritePerVersion(ws: seq<World>, trace: seq<Event>, j: nat, k: nat)
    requires Execution(ws, trace) && j < k < |trace|
    requires trace[j].Wrote? && trace[k].Wrote? && trace[k].id == trace[j].id
    ensures trace[j].written.version == trace[j].replaced.version + 1
    ensures trace[j].written.version <= trace[k].replaced.version
    ensures (forall m | j < m < k :: !(trace[m].Wrote? && trace[m].id == trace[j].id))
      <==> trace[k].replaced == trace[j].written
  {
    NoLostUpdate(ws, trace, j, k);
    assert HappensAt(ws, trace, j) && HappensAt(ws, trace, k);
    if forall m | j < m < k :: !(trace[m].Wrote? && trace[m].id == trace[j].id) {
      PageStays(ws, trace, j + 1, k, trace[j].id);
    } else {
      var m :| j < m < k && trace[m].Wrote? && trace[m].id == trace[j].id;
      NoLostUpdate(ws, trace, j, m);
      NoLostUpdate(ws, trace, m, k);
      assert HappensAt(ws, trace, m);
    }
  }

  /** Nobody's permissions on a page ever change, whatever is written and whatever other pages are made. */
  lemma {:induction false} PermissionsStay(ws: seq<World>, trace: seq<Event>, j: nat, k: nat)
    requires Execution(ws, trace) && j <= k < |ws|
    ensures KeepsPermissions(ws[j], ws[k])
    decreases k
  {
    if j < k {
      PermissionsStay(ws, trace, j, k - 1);
      assert HappensAt(ws, trace, k - 1);
      var w, u, v := ws[j], ws[k - 1], ws[k];
      forall id | id in w.pages ensures id in v.pages && SameIdentity(w.pages[id], v.pages[id]) {
        assert SameIdentity(w.pages[id], u.pages[id]);
      }
    }
  }

  /** In every execution an actor may do with a page, at any later moment, exactly what that actor could do before. */
  lemma AccessStays(
    ws: seq<World>, trace: seq<Event>, j: nat, k: nat, id: string, actor: Actor, op: Operation, fold: Folding)
    requires Execution(ws, trace) && j <= k < |ws| && id in ws[j].pages
    ensures id in ws[k].pages
    ensures CanAccess(ws[j], ws[j].pages[id], actor, op, fold) == CanAccess(ws[k], ws[k].pages[id], actor, op, fold)
  {
    PermissionsStay(ws, trace, j, k);
    AllCoherent(ws, trace, j);
    assert CoherentPage(id, ws[j].pages[id], ws[j].histories[id]);
    assert SameIdentity(ws[j].pages[id], ws[k].pages[id]);
    AccessUnaffected(ws[j], ws[k], ws[j].pages[id], ws[k].pages[id], actor, op, fold);
  }
}
