/** Rows written to a table in batches. */
module Batches {
  import opened Outcomes

  function BatchCapacity(batchSize: int): int {
    if batchSize < 1 then 1 else batchSize
  }

  function Concat<T>(batches: seq<seq<T>>): seq<T> {
    if batches == [] then [] else Concat(batches[..|batches| - 1]) + batches[|batches| - 1]
  }

  /** All batches are full, but the last may be shorter; none is empty. */
  predicate WellBatched<T>(batches: seq<seq<T>>, batchSize: int) {
    forall i :: 0 <= i < |batches| ==>
      0 < |batches[i]| <= BatchCapacity(batchSize) && (i < |batches| - 1 ==> |batches[i]| == BatchCapacity(batchSize))
  }

  predicate AllFull<T>(batches: seq<seq<T>>, batchSize: int) {
    forall i :: 0 <= i < |batches| ==> |batches[i]| == BatchCapacity(batchSize)
  }

  lemma ConcatGrows<T>(batches: seq<seq<T>>, batch: seq<T>)
    ensures Concat(batches + [batch]) == Concat(batches) + batch
  {
    assert (batches + [batch])[..|batches|] == batches;
  }

  /** Adding a row to the batch being filled, and flushing it when full. */
  lemma Batching<T>(batches: seq<seq<T>>, pending: seq<T>, row: T, batchSize: int)
    requires AllFull(batches, batchSize) && |pending| < BatchCapacity(batchSize)
    ensures var more := pending + [row];
      && (|more| >= batchSize ==>
            AllFull(batches + [more], batchSize) && Concat(batches + [more]) == Concat(batches) + more)
      && (|more| < batchSize ==> |more| < BatchCapacity(batchSize))
      && Concat(batches) + more == (Concat(batches) + pending) + [row]
  {
    ConcatGrows(batches, pending + [row]);
  }

  lemma LastBatch<T>(batches: seq<seq<T>>, pending: seq<T>, batchSize: int)
    requires AllFull(batches, batchSize) && |pending| <= BatchCapacity(batchSize)
    ensures var all := if pending == [] then batches else batches + [pending];
      WellBatched(all, batchSize) && Concat(all) == Concat(batches) + pending
  {
    ConcatGrows(batches, pending);
  }
}
