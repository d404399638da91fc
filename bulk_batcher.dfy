/** The size- and count-bounded bulk batcher shared by `processScrollHits`
    and `bulkImportDocuments` in both services: documents are collected into
    a pending batch, and the pending batch is sent before a document that
    would push it past the byte limit, or when it already holds the maximum
    number of documents. */
module BulkBatching {
  import opened Util
  import opened TargetClusters

  const MaxBulkSizeBytes: nat := 5 * 1024 * 1024
  const MaxBulkDocCount: nat := 500

  /** The summed estimated size of a batch. */
  function Bytes(docs: seq<Doc>): nat
  {
    if docs == [] then 0 else Bytes(docs[..|docs| - 1]) + docs[|docs| - 1].size
  }

  lemma BytesAppend(docs: seq<Doc>, d: Doc)
    ensures Bytes(docs + [d]) == Bytes(docs) + d.size
  {
    assert (docs + [d])[..|docs|] == docs;
  }

  /** The flush test made before adding `d` to the pending batch. */
  predicate FlushBefore(pending: seq<Doc>, d: Doc, maxBytes: nat, maxCount: nat)
  {
    |pending| > 0 && (Bytes(pending) + d.size > maxBytes || |pending| >= maxCount)
  }

  /** Batch `i` was closed because the first document of batch `i + 1`
      triggered the flush test. */
  predicate ClosedByNext(c: seq<seq<Doc>>, i: int, maxBytes: nat, maxCount: nat)
  {
    0 <= i < |c| - 1 && c[i + 1] != [] && FlushBefore(c[i], c[i + 1][0], maxBytes, maxCount)
  }

  /** The batches sent for `docs` when `pending` is already collected. */
  function Cut(docs: seq<Doc>, pending: seq<Doc>, maxBytes: nat, maxCount: nat): seq<seq<Doc>>
    decreases |docs|
  {
    if docs == [] then (if pending == [] then [] else [pending])
    else if FlushBefore(pending, docs[0], maxBytes, maxCount) then
      [pending] + Cut(docs[1..], [docs[0]], maxBytes, maxCount)
    else
      Cut(docs[1..], pending + [docs[0]], maxBytes, maxCount)
  }

  /** The batches, in call order, that one run of the batcher sends. */
  function Batches(docs: seq<Doc>, maxBytes: nat, maxCount: nat): seq<seq<Doc>>
  {
    Cut(docs, [], maxBytes, maxCount)
  }

  /** A batch the limits allow: 1 to `maxCount` documents, and within
      `maxBytes` unless it is a single document. */
  predicate WithinLimits(b: seq<Doc>, maxBytes: nat, maxCount: nat)
  {
    1 <= |b| <= maxCount && (|b| >= 2 ==> Bytes(b) <= maxBytes)
  }

  lemma {:induction false} CutConcat(docs: seq<Doc>, pending: seq<Doc>, maxBytes: nat, maxCount: nat)
    ensures Flatten(Cut(docs, pending, maxBytes, maxCount)) == pending + docs
    decreases |docs|
  {
    if docs == [] {
      assert pending + docs == pending;
      if pending != [] {
        assert Flatten([pending]) == pending + Flatten([pending][1..]);
      }
    } else {
      var d, rest := docs[0], docs[1..];
      assert docs == [d] + rest;
      if FlushBefore(pending, d, maxBytes, maxCount) {
        CutConcat(rest, [d], maxBytes, maxCount);
        var tail := Cut(rest, [d], maxBytes, maxCount);
        assert ([pending] + tail)[1..] == tail;
      } else {
        CutConcat(rest, pending + [d], maxBytes, maxCount);
      }
    }
  }

  lemma {:induction false} CutWithinLimits(docs: seq<Doc>, pending: seq<Doc>, maxBytes: nat, maxCount: nat)
    requires maxCount >= 1
    requires pending != [] ==> WithinLimits(pending, maxBytes, maxCount)
    ensures forall b | b in Cut(docs, pending, maxBytes, maxCount) :: WithinLimits(b, maxBytes, maxCount)
    decreases |docs|
  {
    if docs != [] {
      var d, rest := docs[0], docs[1..];
      if FlushBefore(pending, d, maxBytes, maxCount) {
        CutWithinLimits(rest, [d], maxBytes, maxCount);
      } else {
        BytesAppend(pending, d);
        CutWithinLimits(rest, pending + [d], maxBytes, maxCount);
      }
    }
  }

  /** A pending batch is the start of the first batch sent. */
  lemma {:induction false} CutHead(docs: seq<Doc>, pending: seq<Doc>, maxBytes: nat, maxCount: nat)
    requires pending != []
    ensures var c := Cut(docs, pending, maxBytes, maxCount);
      |c| >= 1 && |c[0]| >= |pending| && c[0][..|pending|] == pending
    decreases |docs|
  {
    if docs != [] {
      var d, rest := docs[0], docs[1..];
      if !FlushBefore(pending, d, maxBytes, maxCount) {
        CutHead(rest, pending + [d], maxBytes, maxCount);
        var c := Cut(rest, pending + [d], maxBytes, maxCount);
        assert c[0][..|pending|] == c[0][..|pending| + 1][..|pending|];
      }
    }
  }

  /** Every batch but the last was sent only because the next document
      forced the flush: it was full, or that document would have passed the
      byte limit. */
  lemma {:induction false} CutGreedy(docs: seq<Doc>, pending: seq<Doc>, maxBytes: nat, maxCount: nat)
    ensures var c := Cut(docs, pending, maxBytes, maxCount);
      forall i | 0 <= i < |c| - 1 :: ClosedByNext(c, i, maxBytes, maxCount)
    decreases |docs|
  {
    if docs != [] {
      var d, rest := docs[0], docs[1..];
      if FlushBefore(pending, d, maxBytes, maxCount) {
        CutGreedy(rest, [d], maxBytes, maxCount);
        CutHead(rest, [d], maxBytes, maxCount);
        var tail := Cut(rest, [d], maxBytes, maxCount);
        var c := [pending] + tail;
        forall i | 0 <= i < |c| - 1
          ensures ClosedByNext(c, i, maxBytes, maxCount)
        {
          if i == 0 {
            assert c[1] == tail[0] && tail[0][0] == d;
          } else {
            assert ClosedByNext(tail, i - 1, maxBytes, maxCount);
            assert c[i] == tail[i - 1] && c[i + 1] == tail[i];
          }
        }
      } else {
        assert Cut(docs, pending, maxBytes, maxCount) == Cut(rest, pending + [d], maxBytes, maxCount);
        CutGreedy(rest, pending + [d], maxBytes, maxCount);
      }
    }
  }

  lemma {:induction false} CutEmpty(docs: seq<Doc>, pending: seq<Doc>, maxBytes: nat, maxCount: nat)
    ensures Cut(docs, pending, maxBytes, maxCount) == [] <==> docs == [] && pending == []
    decreases |docs|
  {
    if docs != [] {
      var d, rest := docs[0], docs[1..];
      if !FlushBefore(pending, d, maxBytes, maxCount) {
        CutEmpty(rest, pending + [d], maxBytes, maxCount);
      }
    }
  }

  /** The batcher's contract: the batches, concatenated in call order, are
      exactly the input; each holds 1 to `maxCount` documents; each of two or
      more documents stays within `maxBytes` (a larger single document goes
      alone); every batch but the last was closed because the next document
      forced it; and an empty input sends nothing. */
  lemma BatchesSpec(docs: seq<Doc>, maxBytes: nat, maxCount: nat)
    requires maxCount >= 1
    ensures var bs := Batches(docs, maxBytes, maxCount);
      Flatten(bs) == docs
      && (forall b | b in bs :: WithinLimits(b, maxBytes, maxCount))
      && (forall i | 0 <= i < |bs| - 1 :: ClosedByNext(bs, i, maxBytes, maxCount))
      && (bs == [] <==> docs == [])
  {
    CutConcat(docs, [], maxBytes, maxCount);
    assert [] + docs == docs;
    CutWithinLimits(docs, [], maxBytes, maxCount);
    CutGreedy(docs, [], maxBytes, maxCount);
    CutEmpty(docs, [], maxBytes, maxCount);
  }

  /** The same contract with the services' constants: at most 500 documents,
      and at most 5 MiB for any batch of two or more. */
  lemma ServiceBatchesSpec(docs: seq<Doc>)
    ensures var bs := Batches(docs, MaxBulkSizeBytes, MaxBulkDocCount);
      Flatten(bs) == docs
      && (forall b | b in bs :: 1 <= |b| <= 500 && (|b| >= 2 ==> Bytes(b) <= 5242880))
      && (bs == [] <==> docs == [])
  {
    BatchesSpec(docs, MaxBulkSizeBytes, MaxBulkDocCount);
  }

  /** A document above the byte limit is never dropped: it is sent, alone. */
  lemma OversizeAlone(docs: seq<Doc>, i: int, maxBytes: nat, maxCount: nat)
    requires maxCount >= 1 && 0 <= i < |docs| && docs[i].size > maxBytes
    ensures [docs[i]] in Batches(docs, maxBytes, maxCount)
  {
    BatchesSpec(docs, maxBytes, maxCount);
    var bs := Batches(docs, maxBytes, maxCount);
    var k, j := FlattenLocate(bs, i);
    assert bs[k][j] == docs[i] && bs[k] in bs;
    ElementWithinBytes(bs[k], j);
    assert |bs[k]| == 1;
    assert bs[k] == [docs[i]];
  }

  lemma {:induction false} ElementWithinBytes(b: seq<Doc>, j: int)
    requires 0 <= j < |b|
    ensures b[j].size <= Bytes(b)
    decreases |b|
  {
    if j < |b| - 1 {
      ElementWithinBytes(b[..|b| - 1], j);
    }
  }

  /** Position `i` of a flattened sequence lies at position `j` of part `k`. */
  lemma {:induction false} FlattenLocate<T>(xss: seq<seq<T>>, i: int) returns (k: int, j: int)
    requires 0 <= i < |Flatten(xss)|
    ensures 0 <= k < |xss| && 0 <= j < |xss[k]| && xss[k][j] == Flatten(xss)[i]
    decreases |xss|
  {
    if i < |xss[0]| {
      k, j := 0, i;
    } else {
      var k', j' := FlattenLocate(xss[1..], i - |xss[0]|);
      k, j := k' + 1, j';
    }
  }

  /** The bulk requests for a sequence of batches, in order. */
  function Requests(index: string, batches: seq<seq<Doc>>): (r: seq<BulkRequest>)
    ensures |r| == |batches|
  {
    if batches == [] then [] else [BulkRequest(index, batches[0])] + Requests(index, batches[1..])
  }

  lemma {:induction false} RequestsAppend(index: string, a: seq<seq<Doc>>, b: seq<seq<Doc>>)
    ensures Requests(index, a + b) == Requests(index, a) + Requests(index, b)
  {
    if a == [] {
      assert a + b == b;
    } else {
      assert (a + b)[1..] == a[1..] + b;
      RequestsAppend(index, a[1..], b);
    }
  }

  /** `processScrollHits` / `bulkImportDocuments`: walks the documents with a
      pending batch and its byte count, and sends the pending batch to
      `cluster` when the flush test holds and once more at the end. */
  method BulkIndex(cluster: TargetCluster, index: string, docs: seq<Doc>, maxBytes: nat, maxCount: nat)
    modifies cluster
    ensures cluster.bulkRequests == old(cluster.bulkRequests) + Requests(index, Batches(docs, maxBytes, maxCount))
    ensures docs == [] ==> cluster.indices == old(cluster.indices)
    ensures docs != [] ==> cluster.indices == old(cluster.indices) + {index}
    ensures cluster.createRequests == old(cluster.createRequests) && cluster.aliasPuts == old(cluster.aliasPuts)
  {
    var pending: seq<Doc> := [];
    var currentBatchBytes: nat := 0;
    var i := 0;
    while i < |docs|
      invariant 0 <= i <= |docs|
      invariant currentBatchBytes == Bytes(pending)
      invariant i > 0 <==> pending != []
      invariant cluster.bulkRequests + Requests(index, Cut(docs[i..], pending, maxBytes, maxCount))
        == old(cluster.bulkRequests) + Requests(index, Batches(docs, maxBytes, maxCount))
      invariant old(cluster.indices) <= cluster.indices <= old(cluster.indices) + {index}
      invariant i == 0 ==> cluster.indices == old(cluster.indices)
      invariant cluster.createRequests == old(cluster.createRequests) && cluster.aliasPuts == old(cluster.aliasPuts)
    {
      var d := docs[i];
      assert docs[i..][0] == d && docs[i..][1..] == docs[i + 1..];
      if |pending| > 0 && (currentBatchBytes + d.size > maxBytes || |pending| >= maxCount) {
        RequestsAppend(index, [pending], Cut(docs[i + 1..], [d], maxBytes, maxCount));
        cluster.Bulk(index, pending);
        pending := [];
        currentBatchBytes := 0;
      }
      BytesAppend(pending, d);
      pending := pending + [d];
      currentBatchBytes := currentBatchBytes + d.size;
      i := i + 1;
    }
    assert docs[i..] == [];
    if docs != [] {
      assert i > 0;
    }
    if |pending| > 0 {
      cluster.Bulk(index, pending);
      assert cluster.indices == old(cluster.indices) + {index};
    } else {
      assert cluster.indices == old(cluster.indices);
    }
  }
}
