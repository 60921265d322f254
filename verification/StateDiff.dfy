/** Diffs between two snapshots of resource collections. */
module StateDiff {
  import opened Options
  import opened Ordering
  import opened Values

  datatype Change = Change(was: Value, becomes: Value)

  datatype ResourceChange = ResourceChange(changedFields: map<string, Change>, versionDelta: Option<real>)

  datatype KindDiff = KindDiff(
    created: seq<string>, deleted: seq<string>, updated: seq<string>,
    changes: map<string, ResourceChange>)

  /** A missing field is reported as a null. */
  function OrNull(v: Option<Value>): Value {
    if v.Some? then v.value else Null
  }

  function FieldChanges(initial: Value, final: Value): map<string, Change> {
    if !initial.Obj? || !final.Obj? then
      map["value" := Change(initial, final)]
    else
      map f | f in initial.fields.Keys + final.fields.Keys && Get(initial.fields, f) != Get(final.fields, f)
        :: Change(OrNull(Get(initial.fields, f)), OrNull(Get(final.fields, f)))
  }

  /** The loop over the sorted union of field names computes the field changes. */
  method ComputeFieldChanges(initial: Value, final: Value) returns (changes: map<string, Change>)
    ensures changes == FieldChanges(initial, final)
  {
    if !initial.Obj? || !final.Obj? {
      return map["value" := Change(initial, final)];
    }
    changes := map[];
    ghost var all := FieldChanges(initial, final);
    var names := SortedIds(initial.fields.Keys + final.fields.Keys);
    for i := 0 to |names|
      invariant changes == Restrict(all, names[..i])
    {
      RestrictNext(all, names, i);
      var was, becomes := Get(initial.fields, names[i]), Get(final.fields, names[i]);
      if was != becomes {
        changes := changes[names[i] := Change(OrNull(was), OrNull(becomes))];
      }
    }
    RestrictAll(all, names);
  }

  function VersionDelta(initial: Value, final: Value): Option<real> {
    if initial.Obj? && final.Obj?
       && "version" in initial.fields && initial.fields["version"].Num?
       && "version" in final.fields && final.fields["version"].Num?
    then Some(final.fields["version"].n - initial.fields["version"].n)
    else None
  }

  /** What being updated means: the two values differ, or one of them is not a mapping. */
  predicate Differs(initial: Value, final: Value) {
    !initial.Obj? || !final.Obj? || initial != final
  }

  function UpdatedIds(initial: map<string, Value>, final: map<string, Value>): set<string> {
    set id | id in initial.Keys * final.Keys && Differs(initial[id], final[id])
  }

  /** Mappings have no field changes exactly when they are equal; anything else always reports a change. */
  lemma NoFieldChanges(initial: Value, final: Value)
    ensures FieldChanges(initial, final) == map[] <==> !Differs(initial, final)
  {
    var changes := FieldChanges(initial, final);
    if !initial.Obj? || !final.Obj? {
      assert "value" in changes;
    } else if changes == map[] {
      forall f ensures Get(initial.fields, f) == Get(final.fields, f) {
        assert f !in changes;
      }
      assert initial.fields.Keys == final.fields.Keys by {
        forall f ensures f in initial.fields <==> f in final.fields {
          assert Get(initial.fields, f) == Get(final.fields, f);
        }
      }
      assert forall f | f in initial.fields :: Get(initial.fields, f) == Get(final.fields, f);
      assert initial.fields == final.fields;
    }
  }

  function ResourceChanges(initial: map<string, Value>, final: map<string, Value>): map<string, ResourceChange> {
    map id | id in UpdatedIds(initial, final) :: ChangeOf(initial[id], final[id])
  }

  function ChangeOf(initial: Value, final: Value): ResourceChange {
    ResourceChange(FieldChanges(initial, final), VersionDelta(initial, final))
  }

  function CompareKind(initial: map<string, Value>, final: map<string, Value>): KindDiff {
    KindDiff(
      SortedIds(final.Keys - initial.Keys),
      SortedIds(initial.Keys - final.Keys),
      SortedIds(UpdatedIds(initial, final)),
      ResourceChanges(initial, final))
  }

  /** `_collection`: a kind that is missing or not a mapping counts as empty. */
  function Collection(resources: map<string, Value>, kind: string): map<string, Value> {
    if kind in resources && resources[kind].Obj? then resources[kind].fields else map[]
  }

  function Compare(initial: map<string, Value>, final: map<string, Value>): map<string, KindDiff> {
    map kind | kind in initial.Keys + final.Keys ::
      CompareKind(Collection(initial, kind), Collection(final, kind))
  }

  function IfUpdated(initial: map<string, Value>, final: map<string, Value>): string -> seq<string> {
    id => if id in UpdatedIds(initial, final) then [id] else []
  }

  /** Keeping some identifiers of a sorted list keeps the order. */
  lemma {:induction false} UpdatedInOrder(initial: map<string, Value>, final: map<string, Value>, ids: seq<string>)
    requires StrictlySorted(ids)
    ensures var kept := FlatMap(IfUpdated(initial, final), ids);
      StrictlySorted(kept) && forall id :: id in kept <==> id in ids && id in UpdatedIds(initial, final)
  {
    if ids != [] {
      var n := |ids| - 1;
      UpdatedInOrder(initial, final, ids[..n]);
      SortedExtend(FlatMap(IfUpdated(initial, final), ids[..n]), ids, n);
      assert ids == ids[..n] + [ids[n]];
    }
  }

  lemma UpdatedIsSorted(initial: map<string, Value>, final: map<string, Value>)
    ensures FlatMap(IfUpdated(initial, final), SortedIds(initial.Keys * final.Keys)) == SortedIds(UpdatedIds(initial, final))
  {
    SortedIdsSorted(initial.Keys * final.Keys);
    SortedIdsSorted(UpdatedIds(initial, final));
    UpdatedInOrder(initial, final, SortedIds(initial.Keys * final.Keys));
    SortedUnique(FlatMap(IfUpdated(initial, final), SortedIds(initial.Keys * final.Keys)), SortedIds(UpdatedIds(initial, final)));
  }

  /** The inner loop of the comparison: filling `updated` and `changes` for the common resources. */
  method ComputeUpdates(initial: map<string, Value>, final: map<string, Value>)
    returns (updated: seq<string>, changes: map<string, ResourceChange>)
    ensures updated == SortedIds(UpdatedIds(initial, final))
    ensures changes == ResourceChanges(initial, final)
  {
    updated, changes := [], map[];
    ghost var all, kept := ResourceChanges(initial, final), IfUpdated(initial, final);
    var common := SortedIds(initial.Keys * final.Keys);
    for i := 0 to |common|
      invariant changes == Restrict(all, common[..i])
      invariant updated == FlatMap(kept, common[..i])
    {
      RestrictNext(all, common, i);
      FlatMapNext(kept, common, i);
      var id := common[i];
      assert id in common;
      var changed := ComputeFieldChanges(initial[id], final[id]);
      NoFieldChanges(initial[id], final[id]);
      if changed != map[] {
        updated := updated + [id];
        changes := changes[id := ResourceChange(changed, VersionDelta(initial[id], final[id]))];
      }
    }
    RestrictAll(all, common);
    FlatMapAll(kept, common);
    UpdatedIsSorted(initial, final);
  }

  method ComputeKind(initial: map<string, Value>, final: map<string, Value>) returns (d: KindDiff)
    ensures d == CompareKind(initial, final)
  {
    var updated, changes := ComputeUpdates(initial, final);
    d := KindDiff(SortedIds(final.Keys - initial.Keys), SortedIds(initial.Keys - final.Keys), updated, changes);
  }

  method ComputeCompare(initial: map<string, Value>, final: map<string, Value>) returns (diff: map<string, KindDiff>)
    ensures diff == Compare(initial, final)
  {
    diff := map[];
    ghost var all := Compare(initial, final);
    var kinds := SortedIds(initial.Keys + final.Keys);
    for i := 0 to |kinds|
      invariant diff == Restrict(all, kinds[..i])
    {
      RestrictNext(all, kinds, i);
      var d := ComputeKind(Collection(initial, kinds[i]), Collection(final, kinds[i]));
      diff := diff[kinds[i] := d];
    }
    RestrictAll(all, kinds);
  }

  /** Created, deleted and updated are disjoint and exact; an equal non-mapping still counts as updated. */
  lemma DiffExact(initial: map<string, Value>, final: map<string, Value>, id: string)
    ensures var d := CompareKind(initial, final);
      && (id in d.created <==> id in final && id !in initial)
      && (id in d.deleted <==> id in initial && id !in final)
      && (id in d.updated <==>
            id in initial && id in final
            && (initial[id].Obj? && final[id].Obj? ==> initial[id] != final[id]))
  {
  }

  /** All ids that a diff reports in its three lists. */
  function Reported(d: KindDiff): set<string> {
    (set id | id in d.created) + (set id | id in d.deleted) + (set id | id in d.updated)
  }

  lemma ReportedExact(initial: map<string, Value>, final: map<string, Value>)
    ensures Reported(CompareKind(initial, final))
      == (final.Keys - initial.Keys) + (initial.Keys - final.Keys) + UpdatedIds(initial, final)
  {
    var d := CompareKind(initial, final);
    assert (set id | id in d.created) == final.Keys - initial.Keys;
    assert (set id | id in d.deleted) == initial.Keys - final.Keys;
    assert (set id | id in d.updated) == UpdatedIds(initial, final);
  }

  function SwapFields(changes: map<string, Change>): map<string, Change> {
    map f | f in changes :: Change(changes[f].becomes, changes[f].was)
  }

  function SwapResource(c: ResourceChange): ResourceChange {
    ResourceChange(SwapFields(c.changedFields), if c.versionDelta.Some? then Some(-c.versionDelta.value) else None)
  }

  function SwapResources(changes: map<string, ResourceChange>): map<string, ResourceChange> {
    map id | id in changes :: SwapResource(changes[id])
  }

  function SwapDiff(d: KindDiff): KindDiff {
    KindDiff(d.deleted, d.created, d.updated, SwapResources(d.changes))
  }

  lemma FieldChangesSwap(initial: Value, final: Value)
    ensures FieldChanges(final, initial) == SwapFields(FieldChanges(initial, final))
  {
  }

  lemma ChangeSwap(initial: Value, final: Value)
    ensures ChangeOf(final, initial) == SwapResource(ChangeOf(initial, final))
  {
    FieldChangesSwap(initial, final);
  }

  lemma ResourceChangesSwap(initial: map<string, Value>, final: map<string, Value>)
    ensures ResourceChanges(final, initial) == SwapResources(ResourceChanges(initial, final))
  {
    assert UpdatedIds(final, initial) == UpdatedIds(initial, final);
    var there, back := ResourceChanges(initial, final), ResourceChanges(final, initial);
    assert back.Keys == there.Keys == SwapResources(there).Keys;
    forall id | id in there ensures back[id] == SwapResources(there)[id] {
      ChangeSwap(initial[id], final[id]);
      assert back[id] == ChangeOf(final[id], initial[id]) && there[id] == ChangeOf(initial[id], final[id]);
    }
  }

  /** Comparing in the other direction swaps created with deleted and old with new, and negates each version delta. */
  lemma DiffSwap(initial: map<string, Value>, final: map<string, Value>)
    ensures CompareKind(final, initial) == SwapDiff(CompareKind(initial, final))
  {
    assert UpdatedIds(final, initial) == UpdatedIds(initial, final);
    ResourceChangesSwap(initial, final);
  }

  /** Replays recorded field changes: a null new value can only be read as "the field is gone". */
  function Replay(fields: map<string, Value>, changes: map<string, Change>): map<string, Value> {
    map f | f in fields.Keys + changes.Keys && (f in changes ==> changes[f].becomes != Null)
      :: if f in changes then changes[f].becomes else fields[f]
  }

  /**
   * Replaying the changes rebuilds the final resource exactly when no field became null,
   * because a diff writes a removed field and a field set to null alike.
   */
  lemma ReplayExact(initial: Value, final: Value)
    requires initial.Obj? && final.Obj?
    ensures Replay(initial.fields, FieldChanges(initial, final)) == final.fields
      <==> (forall f | f in final.fields :: final.fields[f] == Null ==> Get(initial.fields, f) == Some(Null))
  {
    var changes := FieldChanges(initial, final);
    var rebuilt := Replay(initial.fields, changes);
    forall f ensures f in changes <==> Get(initial.fields, f) != Get(final.fields, f) {}
    if forall f | f in final.fields :: final.fields[f] == Null ==> Get(initial.fields, f) == Some(Null) {
      forall f ensures Get(rebuilt, f) == Get(final.fields, f) {
        assert f in changes <==> Get(initial.fields, f) != Get(final.fields, f);
      }
      assert rebuilt.Keys == final.fields.Keys by {
        forall f ensures f in rebuilt <==> f in final.fields {
          assert Get(rebuilt, f) == Get(final.fields, f);
        }
      }
      assert forall f | f in rebuilt :: Get(rebuilt, f) == Get(final.fields, f);
    } else {
      var f :| f in final.fields && final.fields[f] == Null && Get(initial.fields, f) != Some(Null);
      assert f !in rebuilt;
    }
  }

  /** One such pair: a field appears with the value null, and the replayed changes leave it out. */
  lemma ReplayExample()
    ensures var initial, final := Obj(map[]), Obj(map["note" := Null]);
      Replay(initial.fields, FieldChanges(initial, final)) != final.fields
  {
    var initial, final := Obj(map[]), Obj(map["note" := Null]);
    assert "note" in final.fields && Get(initial.fields, "note") != Some(Null);
    ReplayExact(initial, final);
  }

  /** Which fields a change names, and what it says of each: the old value, then the new one, null for none. */
  lemma FieldChangesExact(initial: map<string, Value>, final: map<string, Value>, f: string)
    ensures var changes := FieldChanges(Obj(initial), Obj(final));
      && (f in changes <==> (f in initial && f in final && initial[f] != final[f]) || (f in initial) != (f in final))
      && (f in changes ==>
            && changes[f].was == (if f in initial then initial[f] else Null)
            && changes[f].becomes == (if f in final then final[f] else Null))
  {
  }

  /** Values that are not both mappings are reported as a whole: the old one, then the new one. */
  lemma WholeValueChange(initial: Value, final: Value)
    requires !initial.Obj? || !final.Obj?
    ensures var changes := FieldChanges(initial, final);
      changes.Keys == {"value"} && changes["value"].was == initial && changes["value"].becomes == final
  {
  }

  /** A comparison looks at every kind of either snapshot, and tells for each what is new, gone and changed. */
  lemma {:induction false} CompareExact(initial: map<string, Value>, final: map<string, Value>, kind: string, id: string)
    requires kind in initial || kind in final
    ensures var diff := Compare(initial, final);
      var before := if kind in initial && initial[kind].Obj? then initial[kind].fields else map[];
      var after := if kind in final && final[kind].Obj? then final[kind].fields else map[];
      && diff.Keys == initial.Keys + final.Keys
      && (id in diff[kind].created <==> id in after && id !in before)
      && (id in diff[kind].deleted <==> id in before && id !in after)
      && (id in diff[kind].updated <==>
            id in before && id in after && (before[id].Obj? && after[id].Obj? ==> before[id] != after[id]))
      && diff[kind].changes.Keys == (set x | x in diff[kind].updated)
      && (id in diff[kind].changes ==> diff[kind].changes[id].changedFields == FieldChanges(before[id], after[id]))
  {
    DiffExact(Collection(initial, kind), Collection(final, kind), id);
  }

  /** Comparing in the other direction swaps the sides of every kind. */
  lemma {:induction false} CompareSwap(initial: map<string, Value>, final: map<string, Value>, kind: string)
    requires kind in initial || kind in final
    ensures kind in Compare(initial, final) && kind in Compare(final, initial)
    ensures Compare(final, initial)[kind] == SwapDiff(Compare(initial, final)[kind])
  {
    DiffSwap(Collection(initial, kind), Collection(final, kind));
  }

  /** The version delta is the new version minus the old one, where both sides have a number. */
  lemma DeltaExact(initial: map<string, Value>, final: map<string, Value>, delta: real)
    ensures VersionDelta(Obj(initial), Obj(final)) == Some(delta) <==>
      exists was: real :: Get(initial, "version") == Some(Num(was)) && Get(final, "version") == Some(Num(was + delta))
  {
    if VersionDelta(Obj(initial), Obj(final)) == Some(delta) {
      var was := initial["version"].n;
      assert Get(final, "version") == Some(Num(was + delta));
    }
  }
}
