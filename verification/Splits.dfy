/** Split manifests: which seeds an entry contributes, and when a manifest is accepted. */
module Splits {
  import opened Options

  datatype SplitEntry = SplitEntry(scenario: string, count: int, seedRange: Option<seq<int>>, seeds: Option<seq<int>>)

  predicate DistinctSeeds(seeds: seq<int>) {
    forall i, j | 0 <= i < j < |seeds| :: seeds[i] != seeds[j]
  }

  /** `validate_seed_source`, with the positive count that the field demands. */
  predicate ValidEntry(e: SplitEntry) {
    && e.count > 0
    && e.seedRange.None? != e.seeds.None?
    && (e.seeds.Some? ==> |e.seeds.value| == e.count && DistinctSeeds(e.seeds.value))
    && (e.seedRange.Some? ==>
          && |e.seedRange.value| == 2
          && e.seedRange.value[0] <= e.seedRange.value[1]
          && e.count <= e.seedRange.value[1] - e.seedRange.value[0] + 1)
  }

  /** `resolved_seeds`: a valid entry contributes exactly `count` distinct seeds, from its range when it has one. */
  function ResolvedSeeds(e: SplitEntry): (seeds: seq<int>)
    requires ValidEntry(e)
    ensures |seeds| == e.count && DistinctSeeds(seeds)
    ensures e.seedRange.Some? ==> forall s | s in seeds :: e.seedRange.value[0] <= s <= e.seedRange.value[1]
  {
    if e.seeds.Some? then e.seeds.value
    else seq(e.count, i requires 0 <= i => e.seedRange.value[0] + i)
  }

  datatype Allocation = Allocation(scenario: string, seed: int)

  function Allocations(e: SplitEntry): (pairs: seq<Allocation>)
    requires ValidEntry(e)
    ensures |pairs| == e.count
  {
    seq(e.count, i requires 0 <= i < e.count => Allocation(e.scenario, ResolvedSeeds(e)[i]))
  }

  predicate ValidEntries(entries: seq<SplitEntry>) {
    forall i | 0 <= i < |entries| :: ValidEntry(entries[i])
  }

  /** `iter_seeded`: all pairs in manifest order. */
  function IterSeeded(entries: seq<SplitEntry>): seq<Allocation>
    requires ValidEntries(entries)
  {
    if entries == [] then [] else IterSeeded(entries[..|entries| - 1]) + Allocations(entries[|entries| - 1])
  }

  function TotalCount(entries: seq<SplitEntry>): int {
    if entries == [] then 0 else TotalCount(entries[..|entries| - 1]) + entries[|entries| - 1].count
  }

  lemma {:induction false} TotalIsLength(entries: seq<SplitEntry>)
    requires ValidEntries(entries)
    ensures |IterSeeded(entries)| == TotalCount(entries)
  {
    if entries != [] {
      TotalIsLength(entries[..|entries| - 1]);
    }
  }

  predicate DistinctPairs(pairs: seq<Allocation>) {
    forall i, j | 0 <= i < j < |pairs| :: pairs[i] != pairs[j]
  }

  /** `validate_unique_allocations`: two sets grow over the entries; accepted exactly when no pair of the expansion repeats. */
  method ValidateUnique(entries: seq<SplitEntry>) returns (ok: bool)
    requires ValidEntries(entries)
    ensures ok <==> DistinctPairs(IterSeeded(entries))
  {
    var seen: set<Allocation>, duplicates: set<Allocation> := {}, {};
    for i := 0 to |entries|
      invariant seen == set p | p in IterSeeded(entries[..i])
      invariant duplicates == {} <==> DistinctPairs(IterSeeded(entries[..i]))
    {
      assert entries[..i + 1][..i] == entries[..i];
      ghost var before := IterSeeded(entries[..i]);
      var pairs := Allocations(entries[i]);
      assert before + pairs[..0] == before;
      for k := 0 to |pairs|
        invariant seen == set p | p in before + pairs[..k]
        invariant duplicates == {} <==> DistinctPairs(before + pairs[..k])
      {
        DistinctNext(before + pairs[..k], pairs[k]);
        assert before + pairs[..k + 1] == before + pairs[..k] + [pairs[k]];
        if pairs[k] in seen {
          duplicates := duplicates + {pairs[k]};
          assert pairs[k] in duplicates;
        }
        seen := seen + {pairs[k]};
      }
      assert pairs[..|pairs|] == pairs;
    }
    assert entries[..|entries|] == entries;
    ok := duplicates == {};
  }

  lemma DistinctNext(pairs: seq<Allocation>, p: Allocation)
    ensures DistinctPairs(pairs + [p]) <==> DistinctPairs(pairs) && p !in pairs
  {
    var longer := pairs + [p];
    if DistinctPairs(longer) {
      forall i | 0 <= i < |pairs| ensures pairs[i] != p {
        assert longer[i] != longer[|pairs|];
      }
      forall i, j | 0 <= i < j < |pairs| ensures pairs[i] != pairs[j] {
        assert longer[i] != longer[j];
      }
    }
  }

  /** Which seeds those are: the listed ones, or the first ones of the range, in rising order. */
  lemma SeedsExact(e: SplitEntry)
    requires ValidEntry(e)
    ensures e.seeds.Some? ==> ResolvedSeeds(e) == e.seeds.value
    ensures e.seedRange.Some? ==>
      var start, seeds := e.seedRange.value[0], ResolvedSeeds(e);
      && (forall s :: s in seeds <==> start <= s < start + e.count)
      && (forall i, j | 0 <= i < j < |seeds| :: seeds[i] < seeds[j])
  {
    if e.seedRange.Some? {
      var start, seeds := e.seedRange.value[0], ResolvedSeeds(e);
      forall s | start <= s < start + e.count ensures s in seeds {
        assert seeds[s - start] == s;
      }
    }
  }

  /** The expansion in manifest order: behind the pairs of all earlier entries, one pair for each seed of this one. */
  lemma {:induction false} ExpansionExact(entries: seq<SplitEntry>, i: nat, k: nat)
    requires ValidEntries(entries) && i < |entries| && k < |ResolvedSeeds(entries[i])|
    ensures var at := TotalCount(entries[..i]) + k;
      0 <= at < |IterSeeded(entries)| && IterSeeded(entries)[at] == Allocation(entries[i].scenario, ResolvedSeeds(entries[i])[k])
  {
    var n := |entries| - 1;
    TotalIsLength(entries[..i]);
    TotalIsLength(entries[..n]);
    if i < n {
      ExpansionExact(entries[..n], i, k);
      assert entries[..n][..i] == entries[..i];
    }
  }

  /** Which entries are valid: explicit seeds, one for each count and all distinct, or a range with room for the count. */
  lemma ValidExact(scenario: string, count: int, seeds: seq<int>, start: int, end: int)
    ensures ValidEntry(SplitEntry(scenario, count, None, Some(seeds))) <==>
      seeds != [] && count == |seeds| && forall i, j | 0 <= i < |seeds| && 0 <= j < |seeds| && i != j :: seeds[i] != seeds[j]
    ensures ValidEntry(SplitEntry(scenario, count, Some([start, end]), None)) <==> 1 <= count <= end - start + 1
    ensures ValidEntry(SplitEntry(scenario, count, Some(seeds), None)) ==> |seeds| == 2
    ensures !ValidEntry(SplitEntry(scenario, count, None, None))
    ensures !ValidEntry(SplitEntry(scenario, count, Some([start, end]), Some(seeds)))
  {
  }
}
