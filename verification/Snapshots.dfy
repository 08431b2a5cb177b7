/** Frozen run inputs: a context manifest is stored in one canonical order. */
module Snapshots {
  import opened Prelude
  import opened Vocabulary

  predicate DistinctOrdinals(items: seq<ContextItem>) {
    DistinctBy(items, OrdinalOf)
  }

  predicate Increasing(items: seq<ContextItem>) {
    forall i, j :: 0 <= i < j < |items| ==> items[i].ordinal < items[j].ordinal
  }

  /** `sorted(items, key=ordinal)`. */
  function SortItems(items: seq<ContextItem>): seq<ContextItem> {
    SortBy(items, OrdinalOf)
  }

  function OrdinalOf(item: ContextItem): int {
    item.ordinal
  }

  /** `put_context`. */
  function PutContext(manifest: ContextManifest): Result<Artifact> {
    if !DistinctOrdinals(SortItems(manifest.items)) then Err(ValueError)
    else Ok(ContextArtifact(manifest.(items := SortItems(manifest.items))))
  }

  /** The items frozen into a Run's context. */
  function ItemsOf(context: Option<Artifact>): seq<ContextItem> {
    if context.Some? && context.value.ContextArtifact? then context.value.manifest.items else []
  }

  /** `max((item.ordinal for item in items), default=0)`. */
  function MaxOrdinal(items: seq<ContextItem>): int {
    if items == [] then 0
    else if |items| == 1 then items[0].ordinal
    else
      var earlier := MaxOrdinal(items[..|items| - 1]);
      var last := items[|items| - 1].ordinal;
      if last > earlier then last else earlier
  }

  lemma {:induction false} MaxOrdinalBounds(items: seq<ContextItem>, i: nat)
    requires i < |items|
    ensures items[i].ordinal <= MaxOrdinal(items)
    decreases |items|
  {
    if |items| > 1 && i < |items| - 1 {
      MaxOrdinalBounds(items[..|items| - 1], i);
    }
  }

  lemma DropSameLast(a: seq<ContextItem>, b: seq<ContextItem>)
    requires multiset(a) == multiset(b) && a != [] && b != [] && a[|a| - 1] == b[|b| - 1]
    ensures multiset(a[..|a| - 1]) == multiset(b[..|b| - 1])
  {
    assert a == a[..|a| - 1] + [a[|a| - 1]] && b == b[..|b| - 1] + [b[|b| - 1]];
    assert multiset(a[..|a| - 1]) == multiset(a) - multiset{a[|a| - 1]};
    assert multiset(b[..|b| - 1]) == multiset(b) - multiset{b[|b| - 1]};
  }

  /** Two increasing lists of the same items are the same list. */
  lemma {:induction false} OneIncreasingOrder(a: seq<ContextItem>, b: seq<ContextItem>)
    requires multiset(a) == multiset(b) && Increasing(a) && Increasing(b)
    ensures a == b
    decreases |a|
  {
    SameLength(a, b);
    if a != [] {
      assert a[|a| - 1] == b[|b| - 1] by {
        assert multiset(a) == multiset(b) && Increasing(a) && Increasing(b) && a != [] && b != [];
        assert a[|a| - 1] in multiset(b) && b[|b| - 1] in multiset(a);
        var k :| 0 <= k < |b| && b[k] == a[|a| - 1];
        var l :| 0 <= l < |a| && a[l] == b[|b| - 1];
      }
      DropSameLast(a, b);
      IncreasingPrefix(b);
      OneIncreasingOrder(a[..|a| - 1], b[..|b| - 1]);
      assert a == a[..|a| - 1] + [a[|a| - 1]] && b == b[..|b| - 1] + [b[|b| - 1]];
    }
  }

  lemma IncreasingPrefix(a: seq<ContextItem>)
    requires Increasing(a) && a != []
    ensures Increasing(a[..|a| - 1])
  {
  }

  lemma DistinctInOrderIncreases(items: seq<ContextItem>)
    requires DistinctOrdinals(items) && InOrder(items, OrdinalOf)
    ensures Increasing(items)
  {
    forall i, j | 0 <= i < j < |items|
      ensures items[i].ordinal < items[j].ordinal
    {
      assert OrdinalOf(items[i]) <= OrdinalOf(items[j]) && OrdinalOf(items[i]) != OrdinalOf(items[j]);
    }
  }

  /** The stored manifest does not depend on the order its items were given in. */
  lemma PutContextCanonical(manifest: ContextManifest, items: seq<ContextItem>)
    requires multiset(items) == multiset(manifest.items)
    ensures PutContext(manifest.(items := items)) == PutContext(manifest)
  {
    hide DistinctBy, InOrder, Increasing, SortBy;
    var a, b := SortItems(items), SortItems(manifest.items);
    SortIsSort(items, OrdinalOf);
    SortIsSort(manifest.items, OrdinalOf);
    if DistinctOrdinals(a) {
      DistinctAcross(a, b, OrdinalOf);
      DistinctInOrderIncreases(a);
      DistinctInOrderIncreases(b);
      OneIncreasingOrder(a, b);
    } else if DistinctOrdinals(b) {
      DistinctAcross(b, a, OrdinalOf);
    }
  }

  /** Exactly the manifests with a repeated ordinal are refused; the others keep every item. */
  lemma PutContextIff(manifest: ContextManifest)
    ensures PutContext(manifest).Ok? <==> DistinctOrdinals(manifest.items)
    ensures PutContext(manifest).Ok? ==>
      var stored := ItemsOf(Some(PutContext(manifest).value));
      Increasing(stored) && multiset(stored) == multiset(manifest.items)
  {
    SortIsSort(manifest.items, OrdinalOf);
    if DistinctOrdinals(manifest.items) {
      DistinctAcross(manifest.items, SortItems(manifest.items), OrdinalOf);
      DistinctInOrderIncreases(SortItems(manifest.items));
    } else if DistinctOrdinals(SortItems(manifest.items)) {
      DistinctAcross(SortItems(manifest.items), manifest.items, OrdinalOf);
    }
  }

  lemma {:induction false} SortLeavesIncreasing(items: seq<ContextItem>)
    requires Increasing(items)
    ensures SortItems(items) == items
    decreases |items|
  {
    if items != [] {
      var n := |items| - 1;
      var prefix := items[..n];
      assert n > 0 ==> prefix[n - 1].ordinal < items[n].ordinal;
      hide Increasing;
      SortLeavesIncreasing(prefix);
      assert Place(prefix, items[n], OrdinalOf) == prefix + [items[n]];
      assert items == prefix + [items[n]];
    }
  }

  /** Storing increasing items with one more behind them appends exactly that item. */
  lemma PutContextAppends(manifest: ContextManifest, earlier: seq<ContextItem>, item: ContextItem)
    requires Increasing(earlier) && manifest.items == earlier + [item]
    requires item.ordinal == MaxOrdinal(earlier) + 1
    ensures PutContext(manifest) == Ok(ContextArtifact(manifest))
    ensures Increasing(manifest.items)
  {
    hide SortItems;

    SortLeavesIncreasing(manifest.items);
  }
}
