/**
 Label maps and the label merge the controller performs on an existing
 ServiceAccount.

 Go reads a missing key of a `map[string]string` as the empty string, and the
 controller compares `existing.Labels[key] != value`; `Lookup` models that
 read, so a missing key whose desired value is "" counts as already correct.
 */
module Labels {

  type LabelMap = map<string, string>

  /** Go's `m[k]` on a `map[string]string`: a missing key reads as "". */
  function Lookup(m: LabelMap, k: string): (v: string)
    ensures k in m ==> v == m[k]
    ensures v != "" ==> k in m
  {
    if k in m then m[k] else ""
  }

  /** `order` lists keys of `desired`, each at most once. */
  predicate ValidOrder(desired: LabelMap, order: seq<string>)
  {
    && (forall k | k in order :: k in desired)
    && (forall i, j | 0 <= i < j < |order| :: order[i] != order[j])
  }

  /** `order` is one complete iteration order of `desired` (a `range` over the map). */
  predicate Enumerates(desired: LabelMap, order: seq<string>)
  {
    ValidOrder(desired, order) && forall k | k in desired :: k in order
  }

  datatype MergeResult = MergeResult(labels: LabelMap, updated: bool)

  /**
   The `for key, value := range desired` loop: every key whose current value
   (as Go reads it) differs is overwritten, and `updated` records whether any
   key was.
   */
  function MergeLoop(current: LabelMap, desired: LabelMap, order: seq<string>): (r: MergeResult)
    requires ValidOrder(desired, order)
    ensures r.updated <==> exists k | k in order :: Lookup(current, k) != desired[k]
    ensures forall k | k in order :: (k in r.labels <==> k in current || desired[k] != "")
    ensures forall k | k in order && k in r.labels :: r.labels[k] == desired[k]
    ensures forall k | k !in order :: (k in r.labels <==> k in current)
    ensures forall k | k !in order && k in current :: r.labels[k] == current[k]
    ensures !r.updated ==> r.labels == current
    decreases |order|
  {
    if order == [] then MergeResult(current, false)
    else
      var k := order[0];
      var differs := Lookup(current, k) != desired[k];
      var next := if differs then current[k := desired[k]] else current;
      assert forall j | 0 < j < |order| :: order[j] != k;
      var rest := MergeLoop(next, desired, order[1..]);
      assert forall k' | k' in order[1..] :: Lookup(next, k') == Lookup(current, k');
      assert forall k' | k' in order :: k' == k || k' in order[1..];
      MergeResult(rest.labels, differs || rest.updated)
  }

  /**
   Reference definition of the merge: the desired value wins on every desired
   key Go would see as different, every other label is kept as it was.
   */
  function Merged(current: LabelMap, desired: LabelMap): (m: LabelMap)
    // no label is removed
    ensures current.Keys <= m.Keys
    // no foreign key is introduced
    ensures m.Keys <= current.Keys + desired.Keys
    // every desired key reads (as Go reads it) as its desired value
    ensures forall k | k in desired :: Lookup(m, k) == desired[k]
    // a desired key with a non-empty value is present with that value
    ensures forall k | k in desired && desired[k] != "" :: k in m && m[k] == desired[k]
    // labels outside the desired set keep their value
    ensures forall k | k in current && k !in desired :: m[k] == current[k]
  {
    map k | k in current.Keys + desired.Keys && (k in current || desired[k] != "")
      :: if k in desired then desired[k] else current[k]
  }

  /** The merge loop computes the reference merge, whatever the iteration order. */
  lemma MergeLoopComputesMerged(current: LabelMap, desired: LabelMap, order: seq<string>)
    requires Enumerates(desired, order)
    ensures MergeLoop(current, desired, order).labels == Merged(current, desired)
    ensures MergeLoop(current, desired, order).updated
            <==> exists k | k in desired :: Lookup(current, k) != desired[k]
  {
  }

  /** Go's map iteration order is unspecified; the merge does not depend on it. */
  lemma MergeOrderIrrelevant(current: LabelMap, desired: LabelMap, o1: seq<string>, o2: seq<string>)
    requires Enumerates(desired, o1) && Enumerates(desired, o2)
    ensures MergeLoop(current, desired, o1) == MergeLoop(current, desired, o2)
  {
    MergeLoopComputesMerged(current, desired, o1);
    MergeLoopComputesMerged(current, desired, o2);
  }

  /** Merging twice changes nothing more: the second loop finds no difference. */
  lemma MergeIdempotent(current: LabelMap, desired: LabelMap, order: seq<string>)
    requires Enumerates(desired, order)
    ensures !MergeLoop(Merged(current, desired), desired, order).updated
    ensures Merged(Merged(current, desired), desired) == Merged(current, desired)
  {
  }
}
