/**
 * How the training input is split into batches (fitter.py lines 69-76):
 * the whole input as one batch when no batch size is given, otherwise
 * consecutive chunks of `batch_size` images, the last one possibly shorter.
 */
module Batching {
  import opened Wrappers

  /** Consecutive chunks of `size` items; the last chunk holds what is left. */
  function Chunks<T>(items: seq<T>, size: nat): seq<seq<T>>
    requires size > 0
    decreases |items|
  {
    if |items| == 0 then []
    else if |items| <= size then [items]
    else [items[..size]] + Chunks(items[size..], size)
  }

  /** `image_batches`: `[list(images)]`, or `batch(images, batch_size)`. */
  function Batches<T>(items: seq<T>, batchSize: Option<nat>): seq<seq<T>>
    requires batchSize.Some? ==> batchSize.value > 0
  {
    match batchSize
    case None => [items]
    case Some(size) => Chunks(items, size)
  }

  function Flatten<T>(xss: seq<seq<T>>): seq<T>
  {
    if xss == [] then [] else xss[0] + Flatten(xss[1..])
  }

  /**
   * Chunking loses, duplicates and reorders nothing; every chunk is
   * non-empty, none is longer than `size`, and all but the last are exactly
   * `size` long.
   */
  lemma {:induction false} ChunksPartition<T>(items: seq<T>, size: nat)
    requires size > 0
    ensures Flatten(Chunks(items, size)) == items
    ensures forall k :: 0 <= k < |Chunks(items, size)| ==> 0 < |Chunks(items, size)[k]| <= size
    ensures forall k :: 0 <= k < |Chunks(items, size)| - 1 ==> |Chunks(items, size)[k]| == size
    decreases |items|
  {
    var cs := Chunks(items, size);
    if |items| == 0 {
    } else if |items| <= size {
      assert Flatten(cs) == items + Flatten([]);
    } else {
      var rest := Chunks(items[size..], size);
      ChunksPartition(items[size..], size);
      assert cs == [items[..size]] + rest;
      assert cs[1..] == rest;
      assert Flatten(cs) == items[..size] + Flatten(rest);
      assert items[..size] + items[size..] == items;
      forall k | 1 <= k < |cs|
        ensures cs[k] == rest[k - 1]
      {
      }
    }
  }

  /**
   * The batches of the training loop partition the input in order. Without
   * a batch size there is exactly one batch, the whole input (empty or
   * not); with one, every batch is non-empty and at most `batch_size` long.
   */
  lemma BatchesPartition<T>(items: seq<T>, batchSize: Option<nat>)
    requires batchSize.Some? ==> batchSize.value > 0
    ensures Flatten(Batches(items, batchSize)) == items
    ensures batchSize.None? ==> Batches(items, batchSize) == [items]
    ensures batchSize.Some? ==> forall k :: 0 <= k < |Batches(items, batchSize)| ==>
      0 < |Batches(items, batchSize)[k]| <= batchSize.value
  {
    match batchSize
    case None =>
      assert Flatten([items]) == items + Flatten([]);
    case Some(size) =>
      ChunksPartition(items, size);
  }
}
