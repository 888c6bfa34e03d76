/** Symbol batching of the futures store (src/stores/chocoMintoStore.ts).
    The store's reactive symbol list is passed in as a sequence, so the
    operation cannot change it. */
module ChocoMintoStore {

  /** The buckets joined back together, in order. */
  function Flatten<T>(buckets: seq<seq<T>>): seq<T>
  {
    if |buckets| == 0 then [] else Flatten(buckets[..|buckets| - 1]) + buckets[|buckets| - 1]
  }

  /** Size the source gives bucket `i`: the floor share plus one for each of
      the first `total % batches` buckets. */
  function BucketSize(total: nat, batches: nat, i: nat): nat
    requires batches > 0
  {
    total / batches + if i < total % batches then 1 else 0
  }

  /** Elements placed in the first `i` buckets. */
  function Placed(total: nat, batches: nat, i: nat): nat
    requires batches > 0
  {
    i * (total / batches) + (if i < total % batches then i else total % batches)
  }

  /** Bucket `i` starts where the first `i` end and stays within the list. */
  lemma PlacedStep(total: nat, batches: nat, i: nat)
    requires 0 < batches && i < batches
    ensures Placed(total, batches, i + 1) == Placed(total, batches, i) + BucketSize(total, batches, i)
    ensures Placed(total, batches, i) + BucketSize(total, batches, i) <= total
  {
    var base, rem := total / batches, total % batches;
    assert (i + 1) * base == i * base + base;
    assert (i + 1) * base <= batches * base by {
      MulLeMono(i + 1, batches, base);
    }
    assert batches * base + rem == total;
  }

  /** All `batches` buckets together hold every element. */
  lemma PlacedAll(total: nat, batches: nat)
    requires batches > 0
    ensures Placed(total, batches, batches) == total
  {
    assert batches * (total / batches) + total % batches == total;
  }

  lemma MulLeMono(a: nat, b: nat, c: nat)
    requires a <= b
    ensures a * c <= b * c
  {
    assert b * c - a * c == (b - a) * c;
  }

  /** `splitFutureSymbols`: `[]` for a non-positive batch count; otherwise
      exactly `batches` consecutive slices whose sizes differ by at most one,
      larger ones first, and which join back to the symbol list. */
  method SplitFutureSymbols<T>(futureSymbols: seq<T>, batches: int) returns (result: seq<seq<T>>)
    ensures batches <= 0 ==> result == []
    ensures batches > 0 ==> |result| == batches
    ensures batches > 0 ==> forall i :: 0 <= i < |result| ==>
              |result[i]| == BucketSize(|futureSymbols|, batches, i)
    ensures forall i, j :: 0 <= i < j < |result| ==> |result[j]| <= |result[i]| <= |result[j]| + 1
    ensures batches > 0 ==> Flatten(result) == futureSymbols
  {
    if batches <= 0 {
      return [];
    }
    var total := |futureSymbols|;
    var base := total / batches;
    var remainder := total % batches;
    result := [];
    var index := 0;
    for i := 0 to batches
      invariant |result| == i
      invariant index == Placed(total, batches, i)
      invariant index <= total
      invariant forall k :: 0 <= k < i ==> |result[k]| == BucketSize(total, batches, k)
      invariant Flatten(result) == futureSymbols[..index]
    {
      PlacedStep(total, batches, i);
      var size := base + if i < remainder then 1 else 0;
      assert size == BucketSize(total, batches, i);
      var bucket := futureSymbols[index..index + size];
      assert futureSymbols[..index + size] == futureSymbols[..index] + bucket;
      assert (result + [bucket])[..i] == result;
      result := result + [bucket];
      index := index + size;
    }
    PlacedAll(total, batches);
    assert futureSymbols[..index] == futureSymbols;
  }
}
