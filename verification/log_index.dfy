/** The per-transaction-hash ordinal that tells apart several withdrawals
    emitted by one L2 transaction (src/finalizer/utils/opStack.ts, the loop in
    `getMessageStatuses`). */
module LogIndex {
  import opened Sequences

  /** Reference definition: the log index of entry `i` is the number of
      earlier entries that carry the same transaction hash. */
  function LogIndices<H(==)>(hashes: seq<H>): (r: seq<nat>)
    ensures |r| == |hashes|
  {
    seq(|hashes|, i requires 0 <= i < |hashes| => Count(hashes[..i], hashes[i]))
  }

  /** The source's loop: a map from hash to the next unused index, read
      (defaulting to 0), appended, then bumped by one. */
  method AssignLogIndices<H(==)>(hashes: seq<H>) returns (logIndexes: seq<nat>)
    ensures |logIndexes| == |hashes|
    ensures logIndexes == LogIndices(hashes)
  {
    var uniqueHashes: map<H, nat> := map[];
    logIndexes := [];
    var i := 0;
    while i < |hashes|
      invariant 0 <= i <= |hashes|
      invariant |logIndexes| == i
      invariant forall k :: 0 <= k < i ==> logIndexes[k] == Count(hashes[..k], hashes[k])
      invariant forall h :: h in uniqueHashes ==> uniqueHashes[h] == Count(hashes[..i], h)
      invariant forall h :: h !in uniqueHashes ==> Count(hashes[..i], h) == 0
    {
      var h := hashes[i];
      var logIndex := if h in uniqueHashes then uniqueHashes[h] else 0;
      ghost var previous := logIndexes;
      logIndexes := logIndexes + [logIndex];
      forall k | 0 <= k <= i
        ensures logIndexes[k] == Count(hashes[..k], hashes[k])
      {
        if k < i {
          assert logIndexes[k] == previous[k];
        }
      }
      uniqueHashes := uniqueHashes[h := logIndex + 1];
      CountExtend(hashes, i);
      i := i + 1;
    }
  }

  /** Extending a prefix by one entry adds one occurrence of that entry's
      hash and leaves every other count alone. */
  lemma CountExtend<H>(hashes: seq<H>, i: nat)
    requires i < |hashes|
    ensures forall x :: Count(hashes[..i + 1], x) == Count(hashes[..i], x) + (if hashes[i] == x then 1 else 0)
  {
    assert hashes[..i + 1][..i] == hashes[..i];
  }

  /** An entry whose hash occurs `k` times gets an index below `k`. */
  lemma {:induction false} LogIndexBelowCount<H>(hashes: seq<H>, i: nat)
    requires i < |hashes|
    ensures LogIndices(hashes)[i] < Count(hashes, hashes[i])
  {
    var h := hashes[i];
    assert hashes[..i] + hashes[i..] == hashes;
    CountAppend(hashes[..i], hashes[i..], h);
    assert [h] + hashes[i + 1..] == hashes[i..];
    CountAppend([h], hashes[i + 1..], h);
    assert [h][..0] == [];
  }

  /** Within one transaction hash the indices strictly increase in list order,
      so no two entries of one transaction share an index. */
  lemma {:induction false} LogIndexIncreasing<H>(hashes: seq<H>, i: nat, j: nat)
    requires i < j < |hashes|
    requires hashes[i] == hashes[j]
    ensures LogIndices(hashes)[i] < LogIndices(hashes)[j]
  {
    var h := hashes[i];
    assert hashes[..i] + hashes[i..j] == hashes[..j];
    CountAppend(hashes[..i], hashes[i..j], h);
    assert [h] + hashes[i + 1..j] == hashes[i..j];
    CountAppend([h], hashes[i + 1..j], h);
    assert [h][..0] == [];
  }

  /** Quantified form of `LogIndexIncreasing`. */
  lemma LogIndicesIncreasing<H>(hashes: seq<H>)
    ensures forall i, j :: 0 <= i < j < |hashes| && hashes[i] == hashes[j] ==>
              LogIndices(hashes)[i] < LogIndices(hashes)[j]
  {
    forall i, j | 0 <= i < j < |hashes| && hashes[i] == hashes[j]
      ensures LogIndices(hashes)[i] < LogIndices(hashes)[j]
    {
      LogIndexIncreasing(hashes, i, j);
    }
  }

  /** Every index below the number of occurrences of a hash is used by some
      entry of that hash: the indices of one hash are exactly 0..k-1. */
  lemma {:induction false} LogIndexContiguous<H>(hashes: seq<H>, h: H, n: nat)
    requires n < Count(hashes, h)
    ensures exists i :: 0 <= i < |hashes| && hashes[i] == h && LogIndices(hashes)[i] == n
    decreases |hashes|
  {
    var last := |hashes| - 1;
    var prefix := hashes[..last];
    if n < Count(prefix, h) {
      LogIndexContiguous(prefix, h, n);
      var i :| 0 <= i < |prefix| && prefix[i] == h && LogIndices(prefix)[i] == n;
      assert prefix[..i] == hashes[..i];
      assert LogIndices(hashes)[i] == n;
    } else {
      assert hashes[last] == h;
      assert LogIndices(hashes)[last] == n;
    }
  }
}
