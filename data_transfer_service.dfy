/** DataTransferService: runs a transfer operation, keeps it in the registry
    of active operations while updating it in place, and reports progress
    events to an optional callback. The work each index does on the clusters
    is an input (`IndexStep`); the clock and the random UUID are parameters. */
module DataTransfers {
  import opened Util
  import opened TransferOperations
  import opened ProgressInfos

  /** What exporting and then importing one index gives: the exported
      document count or the export error message, then the import error
      message, if any. */
  datatype IndexStep = IndexStep(exported: Result<nat, string>, importError: Option<string>)

  /** The exception `executeClusterToCluster` throws for a step, if any. */
  function StepFailure(s: IndexStep): (r: Option<string>)
    ensures s.exported.Err? ==> r == Some("Failed to export index data: " + s.exported.error)
    ensures s.exported.Ok? ==> (r.Some? <==> s.importError.Some?)
    ensures s.exported.Ok? && s.importError.Some? ==> r == Some("Failed to import index data: " + s.importError.value)
  {
    if s.exported.Err? then Some("Failed to export index data: " + s.exported.error)
    else if s.importError.Some? then Some("Failed to import index data: " + s.importError.value)
    else None
  }

  /** The operation id `executeTransfer` generates: the first eight chars of
      a UUID string, upper-cased. */
  function GeneratedId(uuid: string): (r: string)
    requires |uuid| >= 8
    ensures |r| == 8 && forall i | 0 <= i < 8 :: r[i] == UpperChar(uuid[i])
  {
    ToUpper(uuid[..8])
  }

  // ---------------------------------------------------------------------------
  // The events of a cluster-to-cluster run
  // ---------------------------------------------------------------------------

  /** `(double) c / t * 100`, exactly. */
  function Percent(c: int, t: int): real
    requires t > 0
  {
    c as real / t as real * 100.0
  }

  function StartEvent(id: string, total: int): ProgressInfo
  {
    ProgressInfo(id, None, total, 0, 0, 0, "RUNNING", "Starting transfer...", 0.0, 0, 0, 0, 0)
  }

  /** The event before index `c` (of `t`) is exported. */
  function ExportEvent(id: string, name: string, t: int, c: int): ProgressInfo
    requires t > 0
  {
    ProgressInfo(id, Some(name), t, c, 0, 0, "RUNNING", "Exporting " + name + " from source...", Percent(c, t), 0, 0, 0, 0)
  }

  /** The event before index `c` (of `t`) is imported, with its document count. */
  function ImportEvent(id: string, name: string, t: int, c: int, docs: nat): ProgressInfo
    requires t > 0
  {
    ProgressInfo(id, Some(name), t, c, 0, 0, "RUNNING", "Importing " + name + " to target (" + NatToString(docs) + " docs)...",
                 Percent(c, t) + 50.0 / t as real, 0, 0, 0, 0)
  }

  function CompletedEvent(id: string, total: int, processed: int): ProgressInfo
  {
    ProgressInfo(id, None, total, total, 0, processed, "COMPLETED", "Transfer completed successfully", 100.0, 0, 0, 0, 0)
  }

  function FailedEvent(id: string, message: string): ProgressInfo
  {
    ProgressInfo(id, None, 0, 0, 0, 0, "FAILED", "Transfer failed: " + message, 0.0, 0, 0, 0, 0)
  }

  /** The first `n` steps all succeed. */
  predicate Succeeds(indices: seq<string>, step: string -> IndexStep, n: int)
  {
    0 <= n <= |indices| && forall k | 0 <= k < n :: StepFailure(step(indices[k])).None?
  }

  /** The documents exported by the first `n` indices. */
  function DocsSum(indices: seq<string>, step: string -> IndexStep, n: nat): nat
    requires Succeeds(indices, step, n)
  {
    if n == 0 then 0 else DocsSum(indices, step, n - 1) + step(indices[n - 1]).exported.value
  }

  /** The events index `c` sends: the export event, and the import event
      when the export went through. */
  function IndexEvents(id: string, indices: seq<string>, step: string -> IndexStep, c: nat): (r: seq<ProgressInfo>)
    requires c < |indices|
    ensures step(indices[c]).exported.Ok? ==> |r| == 2
  {
    var s := step(indices[c]);
    [ExportEvent(id, indices[c], |indices|, c)]
      + (if s.exported.Ok? then [ImportEvent(id, indices[c], |indices|, c, s.exported.value)] else [])
  }

  /** The events of each of the first `n` indices, in order. */
  function PairEvents(id: string, indices: seq<string>, step: string -> IndexStep, n: nat): (r: seq<ProgressInfo>)
    requires Succeeds(indices, step, n)
    ensures |r| == 2 * n
  {
    if n == 0 then [] else PairEvents(id, indices, step, n - 1) + IndexEvents(id, indices, step, n - 1)
  }

  /** The operation's `processedDocuments` after `n` indices completed. */
  function Processed(before: int, indices: seq<string>, step: string -> IndexStep, n: nat): int
    requires Succeeds(indices, step, n)
  {
    if n == 0 then before else DocsSum(indices, step, n)
  }

  /** `h` half-steps of an index out of `t`, as a percentage. */
  function HalfSteps(h: int, t: int): real
    requires t > 0
  {
    h as real * 50.0 / t as real
  }

  /** The export event of index `c` sits at `2c` half-steps, its import
      event at `2c + 1`, and the whole run at `2t`. */
  lemma PercentAsHalfSteps(c: int, t: int)
    requires t > 0
    ensures Percent(c, t) == HalfSteps(2 * c, t)
    ensures Percent(c, t) + 50.0 / t as real == HalfSteps(2 * c + 1, t)
    ensures HalfSteps(2 * t, t) == 100.0
    ensures HalfSteps(0, t) == 0.0
  {
    var tr := t as real;
    assert c as real / tr * 100.0 == (2 * c) as real * 50.0 / tr;
    assert (2 * c) as real * 50.0 / tr + 50.0 / tr == (2 * c + 1) as real * 50.0 / tr;
    assert (2 * t) as real * 50.0 / tr == 100.0 * (tr / tr);
  }

  lemma HalfStepsMonotone(h1: int, h2: int, t: int)
    requires 0 <= h1 <= h2 && t > 0
    ensures 0.0 <= HalfSteps(h1, t) <= HalfSteps(h2, t)
    ensures h1 < h2 ==> HalfSteps(h1, t) < HalfSteps(h2, t)
  {
    var tr := t as real;
    assert HalfSteps(h1, t) == h1 as real * (50.0 / tr);
    assert HalfSteps(h2, t) - HalfSteps(h1, t) == (h2 - h1) as real * (50.0 / tr);
  }

  /** Index `c`'s events, when its step succeeds: the export and the import event. */
  lemma PairEventsSplit(id: string, indices: seq<string>, step: string -> IndexStep, n: nat)
    requires Succeeds(indices, step, n) && n > 0
    ensures var c := n - 1;
      var s := step(indices[c]);
      PairEvents(id, indices, step, n) == PairEvents(id, indices, step, c)
        + [ExportEvent(id, indices[c], |indices|, c), ImportEvent(id, indices[c], |indices|, c, s.exported.value)]
  {
    assert StepFailure(step(indices[n - 1])).None?;
  }

  /** Appending index `n - 1`'s events keeps the earlier ones. */
  lemma PairEventsKeep(id: string, indices: seq<string>, step: string -> IndexStep, n: nat, j: nat)
    requires Succeeds(indices, step, n) && 0 < n && j < 2 * (n - 1)
    ensures PairEvents(id, indices, step, n)[j].percentage == PairEvents(id, indices, step, n - 1)[j].percentage
  {
    assert Succeeds(indices, step, n - 1);
  }

  lemma EventHalfSteps(id: string, name: string, t: int, c: int, docs: nat)
    requires t > 0
    ensures ExportEvent(id, name, t, c).percentage == HalfSteps(2 * c, t)
    ensures ImportEvent(id, name, t, c, docs).percentage == HalfSteps(2 * c + 1, t)
  {
    PercentAsHalfSteps(c, t);
  }

  /** Index `c`'s export and import events sit at positions `2c` and
      `2c + 1` of the per-index events. */
  lemma {:induction false} PairEventsOf(id: string, indices: seq<string>, step: string -> IndexStep, n: nat, c: nat)
    requires Succeeds(indices, step, n) && c < n
    ensures var all := PairEvents(id, indices, step, n);
      all[2 * c].percentage == HalfSteps(2 * c, |indices|)
      && all[2 * c + 1].percentage == HalfSteps(2 * c + 1, |indices|)
  {
    if c < n - 1 {
      assert Succeeds(indices, step, n - 1);
      PairEventsOf(id, indices, step, n - 1, c);
      PairEventsKeep(id, indices, step, n, 2 * c);
      PairEventsKeep(id, indices, step, n, 2 * c + 1);
    } else {
      PairEventsSplit(id, indices, step, n);
      EventHalfSteps(id, indices[c], |indices|, c, step(indices[c]).exported.value);
    }
  }

  /** Event `i` of the per-index events reports `i` half-steps. */
  lemma PairEventsAt(id: string, indices: seq<string>, step: string -> IndexStep, n: nat, i: nat)
    requires Succeeds(indices, step, n) && |indices| > 0 && i < 2 * n
    ensures PairEvents(id, indices, step, n)[i].percentage == HalfSteps(i, |indices|)
  {
    var c := i / 2;
    PairEventsOf(id, indices, step, n, c);
    if i % 2 == 0 {
      assert i == 2 * c;
    } else {
      assert i == 2 * c + 1;
    }
  }

  lemma InnerAt<T>(first: T, mid: seq<T>, last: T, p: nat)
    requires 1 <= p <= |mid|
    ensures ([first] + mid + [last])[p] == mid[p - 1]
  {
  }

  /** The half-steps reported at position `p` of a run: the start event and
      the first export event both report 0. */
  function RunHalfSteps(p: nat): nat
  {
    if p == 0 then 0 else p - 1
  }

  /** The events of a cluster-to-cluster run whose every index succeeds. */
  function SuccessEvents(id: string, indices: seq<string>, step: string -> IndexStep, processed: int): (r: seq<ProgressInfo>)
    requires Succeeds(indices, step, |indices|)
    ensures |r| == 2 * |indices| + 2
  {
    [StartEvent(id, |indices|)] + PairEvents(id, indices, step, |indices|) + [CompletedEvent(id, |indices|, processed)]
  }

  /** Each event reports at least the percentage of every event before it. */
  predicate NonDecreasing(ev: seq<ProgressInfo>)
  {
    forall i, j | 0 <= i < j < |ev| :: ev[i].percentage <= ev[j].percentage
  }

  /** Position `p` of a successful run's events reports `RunHalfSteps(p)`
      half-steps, ending at the whole run's `2t`. */
  lemma RunEventAt(id: string, indices: seq<string>, step: string -> IndexStep, processed: int, p: nat)
    requires Succeeds(indices, step, |indices|) && |indices| > 0
    requires p < 2 * |indices| + 2
    ensures SuccessEvents(id, indices, step, processed)[p].percentage == HalfSteps(RunHalfSteps(p), |indices|)
  {
    var t := |indices|;
    var mid := PairEvents(id, indices, step, t);
    var ev := [StartEvent(id, t)] + mid + [CompletedEvent(id, t, processed)];
    if p == 0 {
      assert ev[p].percentage == 0.0;
      PercentAsHalfSteps(0, t);
      assert RunHalfSteps(p) == 0;
    } else if p <= 2 * t {
      InnerAt(StartEvent(id, t), mid, CompletedEvent(id, t, processed), p);
      PairEventsAt(id, indices, step, t, p - 1);
      assert RunHalfSteps(p) == p - 1;
    } else {
      assert ev[p].percentage == 100.0;
      PercentAsHalfSteps(0, t);
      assert RunHalfSteps(p) == 2 * t;
    }
  }

  /** A successful cluster-to-cluster run reports 0, then the per-index
      percentages, all below 100, then 100: the percentages never decrease. */
  lemma RunPercentages(id: string, indices: seq<string>, step: string -> IndexStep, processed: int)
    requires Succeeds(indices, step, |indices|)
    ensures NonDecreasing(SuccessEvents(id, indices, step, processed))
    ensures forall e | e in PairEvents(id, indices, step, |indices|) :: 0.0 <= e.percentage < 100.0
  {
    var t := |indices|;
    var mid := PairEvents(id, indices, step, t);
    var ev := [StartEvent(id, t)] + mid + [CompletedEvent(id, t, processed)];
    if t > 0 {
      PercentAsHalfSteps(0, t);
      forall p | 0 <= p < |ev|
        ensures ev[p].percentage == HalfSteps(RunHalfSteps(p), t)
      {
        RunEventAt(id, indices, step, processed, p);
      }
      forall i, j | 0 <= i < j < |ev|
        ensures ev[i].percentage <= ev[j].percentage
      {
        HalfStepsMonotone(RunHalfSteps(i), RunHalfSteps(j), t);
      }
      forall e | e in mid
        ensures 0.0 <= e.percentage < 100.0
      {
        var k :| 0 <= k < |mid| && mid[k] == e;
        PairEventsAt(id, indices, step, t, k);
        HalfStepsMonotone(k, 2 * t, t);
      }
    } else {
      assert ev == [StartEvent(id, 0), CompletedEvent(id, 0, processed)];
    }
  }

  /** The running document count never decreases from one index to the next. */
  lemma DocsSumMonotone(indices: seq<string>, step: string -> IndexStep, m: nat, n: nat)
    requires m <= n && Succeeds(indices, step, n)
    ensures Succeeds(indices, step, m) && DocsSum(indices, step, m) <= DocsSum(indices, step, n)
    decreases n - m
  {
    if m < n {
      DocsSumMonotone(indices, step, m, n - 1);
    }
  }

  /** How many indices a cluster-to-cluster run completes, from index `k`
      on: it stops at the first failing step. */
  function LeadingSuccesses(indices: seq<string>, step: string -> IndexStep, k: nat): (d: nat)
    requires k <= |indices|
    ensures k <= d <= |indices|
    ensures d < |indices| ==> StepFailure(step(indices[d])).Some?
    decreases |indices| - k
  {
    if k == |indices| || StepFailure(step(indices[k])).Some? then k
    else LeadingSuccesses(indices, step, k + 1)
  }

  /** The run's count is the one number `d` with every step before it
      succeeding and step `d` failing or absent. */
  lemma {:induction false} LeadingSuccessesUnique(indices: seq<string>, step: string -> IndexStep, d: nat)
    requires Succeeds(indices, step, d)
    requires d == |indices| || StepFailure(step(indices[d])).Some?
    ensures LeadingSuccesses(indices, step, 0) == d
  {
    LeadingFrom(indices, step, 0, d);
  }

  lemma {:induction false} LeadingFrom(indices: seq<string>, step: string -> IndexStep, k: nat, d: nat)
    requires k <= d && Succeeds(indices, step, d)
    requires d == |indices| || StepFailure(step(indices[d])).Some?
    ensures LeadingSuccesses(indices, step, k) == d
    decreases d - k
  {
    if k < d {
      assert StepFailure(step(indices[k])).None?;
      LeadingFrom(indices, step, k + 1, d);
    }
  }

  lemma {:induction false} LeadingSucceeds(indices: seq<string>, step: string -> IndexStep, k: nat)
    requires Succeeds(indices, step, k)
    ensures Succeeds(indices, step, LeadingSuccesses(indices, step, k))
    decreases |indices| - k
  {
    if k < |indices| && StepFailure(step(indices[k])).None? {
      assert Succeeds(indices, step, k + 1);
      LeadingSucceeds(indices, step, k + 1);
    }
  }

  /** The exception message a run ends with, if any. */
  function Outcome(op: TransferOperation, step: string -> IndexStep, fileFailure: Option<string>): (r: Option<string>)
  {
    if op.transferType == ClusterToCluster then
      var d := LeadingSuccesses(op.indices, step, 0);
      if d < |op.indices| then StepFailure(step(op.indices[d])) else None
    else fileFailure
  }

  /** The operation's `processedDocuments` at the end of a run. */
  function FinalProcessed(op: TransferOperation, step: string -> IndexStep): int
  {
    if op.transferType == ClusterToCluster then
      LeadingSucceeds(op.indices, step, 0);
      Processed(op.processedDocuments, op.indices, step, LeadingSuccesses(op.indices, step, 0))
    else op.processedDocuments
  }

  /** The registry entry a run leaves behind. */
  function FinalOperation(op: TransferOperation, id: string, start: LocalDateTime, end: LocalDateTime,
                          step: string -> IndexStep, fileFailure: Option<string>): TransferOperation
  {
    var failure := Outcome(op, step, fileFailure);
    op.(operationId := Some(id), startTime := Some(start), endTime := Some(end),
        processedDocuments := FinalProcessed(op, step),
        status := if failure.None? then Completed else Failed,
        errorMessage := if failure.None? then op.errorMessage else failure)
  }

  lemma UpdateTwice<K, V>(m: map<K, V>, k: K, a: V, b: V)
    ensures m[k := a][k := b] == m[k := b]
  {
  }

  /** The entry `executeTransfer` registers, after the run and its end. */
  lemma FinalOperationOf(op: TransferOperation, id: string, start: LocalDateTime, end: LocalDateTime,
                         step: string -> IndexStep, fileFailure: Option<string>)
    ensures var failure := Outcome(op, step, fileFailure);
      var ran := op.(operationId := Some(id), status := Running, startTime := Some(start))
        .(processedDocuments := FinalProcessed(op, step));
      ran.(endTime := Some(end), status := if failure.None? then Completed else Failed,
           errorMessage := if failure.None? then ran.errorMessage else failure)
      == FinalOperation(op, id, start, end, step, fileFailure)
  {
  }

  /** The per-index events of a run: none for a file transfer. */
  function MiddleEvents(op: TransferOperation, id: string, step: string -> IndexStep): seq<ProgressInfo>
  {
    if op.transferType == ClusterToCluster then
      var d := LeadingSuccesses(op.indices, step, 0);
      LeadingSucceeds(op.indices, step, 0);
      PairEvents(id, op.indices, step, d) + (if d < |op.indices| then IndexEvents(id, op.indices, step, d) else [])
    else []
  }

  /** The last event of a run. */
  function LastEvent(op: TransferOperation, id: string, step: string -> IndexStep, fileFailure: Option<string>): ProgressInfo
  {
    var failure := Outcome(op, step, fileFailure);
    if failure.None? then CompletedEvent(id, |op.indices|, FinalProcessed(op, step)) else FailedEvent(id, failure.value)
  }

  /** The events a run sends to its callback. */
  function RunEvents(op: TransferOperation, id: string, step: string -> IndexStep, fileFailure: Option<string>): seq<ProgressInfo>
  {
    [StartEvent(id, |op.indices|)] + MiddleEvents(op, id, step) + [LastEvent(op, id, step, fileFailure)]
  }

  /** The events of a successful cluster-to-cluster run start at 0, end at
      100 and never decrease in between, and the operation ends with the
      sum of the exported document counts as its processed documents. */
  lemma SuccessfulRunProgress(op: TransferOperation, id: string, step: string -> IndexStep, fileFailure: Option<string>)
    requires op.transferType == ClusterToCluster && Outcome(op, step, fileFailure).None?
    ensures Succeeds(op.indices, step, |op.indices|)
    ensures var ev := RunEvents(op, id, step, fileFailure);
      ev[0].percentage == 0.0 && ev[|ev| - 1].percentage == 100.0 && NonDecreasing(ev)
    ensures |op.indices| > 0 ==> FinalProcessed(op, step) == DocsSum(op.indices, step, |op.indices|)
  {
    LeadingSucceeds(op.indices, step, 0);
    var n := |op.indices|;
    assert LeadingSuccesses(op.indices, step, 0) == n;
    var mid := PairEvents(id, op.indices, step, n);
    var last := CompletedEvent(id, n, FinalProcessed(op, step));
    assert MiddleEvents(op, id, step) == mid;
    assert LastEvent(op, id, step, fileFailure) == last;
    var ev := SuccessEvents(id, op.indices, step, FinalProcessed(op, step));
    assert RunEvents(op, id, step, fileFailure) == ev;
    RunPercentages(id, op.indices, step, FinalProcessed(op, step));
    assert ev[0] == StartEvent(id, n) && ev[|ev| - 1] == last;
  }

  /** The states `clearCompletedOperations` removes. */
  predicate Finished(s: TransferStatus)
  {
    s == Completed || s == Failed || s == Cancelled
  }

  // ---------------------------------------------------------------------------
  // The service
  // ---------------------------------------------------------------------------

  class DataTransferService {
    /** The registry of operations by id. */
    var activeOperations: map<string, TransferOperation>
    /** The progress events delivered to callbacks, in order. */
    var sent: seq<ProgressInfo>

    constructor ()
      ensures activeOperations == map[] && sent == []
    {
      activeOperations := map[];
      sent := [];
    }

    /** `getOperation(id)`. */
    function GetOperation(id: string): (r: Option<TransferOperation>)
      reads this
      ensures r.Some? <==> id in activeOperations
      ensures r.Some? ==> r.value == activeOperations[id]
    {
      if id in activeOperations then Some(activeOperations[id]) else None
    }

    /** `sendProgress`: nothing without a callback; an exception the callback
        throws is swallowed and changes nothing here. */
    method SendProgress(callbackPresent: bool, progress: ProgressInfo)
      modifies this
      ensures sent == old(sent) + (if callbackPresent then [progress] else [])
      ensures activeOperations == old(activeOperations)
    {
      if callbackPresent {
        sent := sent + [progress];
      }
    }

    /** One round of `executeClusterToCluster`'s loop, for index `c`: the
        export event, the export, the import event, the import; on success
        the operation's `processedDocuments` becomes the running sum. */
    method IndexRound(id: string, indices: seq<string>, callbackPresent: bool, step: string -> IndexStep, c: nat, total: nat)
      returns (failure: Option<string>, newTotal: nat)
      requires Succeeds(indices, step, c) && c < |indices| && total == DocsSum(indices, step, c)
      requires id in activeOperations
      modifies this
      ensures failure == StepFailure(step(indices[c]))
      ensures failure.None? ==> Succeeds(indices, step, c + 1) && newTotal == DocsSum(indices, step, c + 1)
      ensures failure.None? ==>
        activeOperations == old(activeOperations)[id := old(activeOperations)[id].(processedDocuments := newTotal)]
      ensures failure.Some? ==> activeOperations == old(activeOperations)
      ensures sent == old(sent) + (if callbackPresent then IndexEvents(id, indices, step, c) else [])
    {
      var t := |indices|;
      var name := indices[c];
      SendProgress(callbackPresent, ExportEvent(id, name, t, c));
      var s := step(name);
      if s.exported.Err? {
        return Some("Failed to export index data: " + s.exported.error), total;
      }
      var docCount := s.exported.value;
      newTotal := total + docCount;
      SendProgress(callbackPresent, ImportEvent(id, name, t, c, docCount));
      if s.importError.Some? {
        return Some("Failed to import index data: " + s.importError.value), newTotal;
      }
      failure := None;
      activeOperations := activeOperations[id := activeOperations[id].(processedDocuments := newTotal)];
    }

    /** `executeClusterToCluster`: the rounds for the indices in order; the
        first failing round ends the run with its exception message. */
    method RunClusterToCluster(id: string, indices: seq<string>, callbackPresent: bool, step: string -> IndexStep)
      returns (failure: Option<string>, done: nat)
      requires id in activeOperations
      modifies this
      ensures Succeeds(indices, step, done)
      ensures failure.None? <==> done == |indices|
      ensures failure.Some? ==> done < |indices| && failure == StepFailure(step(indices[done]))
      ensures activeOperations == old(activeOperations)[id := old(activeOperations)[id].(processedDocuments :=
        Processed(old(activeOperations)[id].processedDocuments, indices, step, done))]
      ensures sent == old(sent) + (if callbackPresent then PairEvents(id, indices, step, done)
        + (if failure.Some? then IndexEvents(id, indices, step, done) else []) else [])
    {
      ghost var op0 := activeOperations[id];
      done := 0;
      var total: nat := 0;
      while done < |indices|
        invariant Succeeds(indices, step, done)
        invariant total == DocsSum(indices, step, done)
        invariant activeOperations == old(activeOperations)[id := op0.(processedDocuments := Processed(op0.processedDocuments, indices, step, done))]
        invariant sent == old(sent) + (if callbackPresent then PairEvents(id, indices, step, done) else [])
      {
        failure, total := IndexRound(id, indices, callbackPresent, step, done, total);
        if failure.Some? {
          return;
        }
        UpdateTwice(old(activeOperations), id, op0.(processedDocuments := Processed(op0.processedDocuments, indices, step, done)),
          op0.(processedDocuments := total));
        if callbackPresent {
          AppendAssoc(old(sent), PairEvents(id, indices, step, done), IndexEvents(id, indices, step, done));
        }
        done := done + 1;
      }
      failure := None;
    }

    /** `executeTransfer`: fixes the id (generating one only when there is
        none), marks the operation RUNNING with its start time and registers
        it, then runs it. A normal return marks it COMPLETED, an exception
        FAILED with the exception's message; both set the end time, and the
        exception does not escape. `fileFailure` is the outcome of the export
        to or import from a file. */
    method ExecuteTransfer(op: TransferOperation, callbackPresent: bool, uuid: string,
                           start: LocalDateTime, end: LocalDateTime,
                           step: string -> IndexStep, fileFailure: Option<string>)
      returns (id: string, failure: Option<string>)
      requires |uuid| >= 8
      modifies this
      ensures id == (if op.operationId.Some? then op.operationId.value else GeneratedId(uuid))
      ensures failure == Outcome(op, step, fileFailure)
      ensures activeOperations == old(activeOperations)[id := FinalOperation(op, id, start, end, step, fileFailure)]
      ensures sent == old(sent) + (if callbackPresent then RunEvents(op, id, step, fileFailure) else [])
    {
      if op.operationId.Some? {
        id := op.operationId.value;
      } else {
        id := GeneratedId(uuid);
      }
      var running := op.(operationId := Some(id), status := Running, startTime := Some(start));
      activeOperations := activeOperations[id := running];
      SendProgress(callbackPresent, StartEvent(id, |op.indices|));
      failure := Dispatch(op, id, callbackPresent, step, fileFailure);
      ghost var ran := running.(processedDocuments := FinalProcessed(op, step));
      UpdateTwice(old(activeOperations), id, running, ran);
      Finish(id, callbackPresent, |op.indices|, end, failure);
      FinalOperationOf(op, id, start, end, step, fileFailure);
      UpdateTwice(old(activeOperations), id, ran, FinalOperation(op, id, start, end, step, fileFailure));
      if callbackPresent {
        assert sent[|sent| - 1] == LastEvent(op, id, step, fileFailure);
        AppendAssoc(old(sent), [StartEvent(id, |op.indices|)], MiddleEvents(op, id, step));
        AppendAssoc(old(sent), [StartEvent(id, |op.indices|)] + MiddleEvents(op, id, step), [LastEvent(op, id, step, fileFailure)]);
      }
    }

    /** The switch on the transfer type in `executeTransfer`: a
        cluster-to-cluster run, or the file transfer's outcome. */
    method Dispatch(op: TransferOperation, id: string, callbackPresent: bool, step: string -> IndexStep, fileFailure: Option<string>)
      returns (failure: Option<string>)
      requires id in activeOperations && activeOperations[id].processedDocuments == op.processedDocuments
      modifies this
      ensures failure == Outcome(op, step, fileFailure)
      ensures activeOperations == old(activeOperations)[id := old(activeOperations)[id].(processedDocuments := FinalProcessed(op, step))]
      ensures sent == old(sent) + (if callbackPresent then MiddleEvents(op, id, step) else [])
    {
      if op.transferType == ClusterToCluster {
        var done;
        failure, done := RunClusterToCluster(id, op.indices, callbackPresent, step);
        LeadingSuccessesUnique(op.indices, step, done);
      } else {
        failure := fileFailure;
      }
    }

    /** The end of `executeTransfer`: COMPLETED with the end time and the
        completion event, or FAILED with the message, the end time and the
        failure event. */
    method Finish(id: string, callbackPresent: bool, total: int, end: LocalDateTime, failure: Option<string>)
      requires id in activeOperations
      modifies this
      ensures activeOperations == old(activeOperations)[id := old(activeOperations)[id].(
        endTime := Some(end),
        status := if failure.None? then Completed else Failed,
        errorMessage := if failure.None? then old(activeOperations)[id].errorMessage else failure)]
      ensures sent == old(sent) + (if callbackPresent then
        [if failure.None? then CompletedEvent(id, total, old(activeOperations)[id].processedDocuments)
         else FailedEvent(id, failure.value)] else [])
    {
      var current := activeOperations[id];
      if failure.None? {
        activeOperations := activeOperations[id := current.(status := Completed, endTime := Some(end))];
        SendProgress(callbackPresent, CompletedEvent(id, total, current.processedDocuments));
      } else {
        activeOperations := activeOperations[id := current.(status := Failed, errorMessage := Some(failure.value), endTime := Some(end))];
        SendProgress(callbackPresent, FailedEvent(id, failure.value));
      }
    }

    /** `cancelOperation`: only a RUNNING operation changes, to CANCELLED
        with its end time; an unknown id or any other status is left alone. */
    method CancelOperation(id: string, now: LocalDateTime)
      modifies this
      ensures activeOperations == if id in old(activeOperations) && old(activeOperations)[id].status == Running
        then old(activeOperations)[id := old(activeOperations)[id].(status := Cancelled, endTime := Some(now))]
        else old(activeOperations)
      ensures sent == old(sent)
    {
      if id in activeOperations && activeOperations[id].status == Running {
        activeOperations := activeOperations[id := activeOperations[id].(status := Cancelled, endTime := Some(now))];
      }
    }

    /** `clearCompletedOperations`: drops every entry in a final state
        (COMPLETED, FAILED, CANCELLED), visiting the entries in any order. */
    method ClearCompletedOperations()
      modifies this
      ensures activeOperations == map id | id in old(activeOperations) && !Finished(old(activeOperations)[id].status) :: old(activeOperations)[id]
      ensures sent == old(sent)
    {
      var remaining := activeOperations.Keys;
      ghost var original := activeOperations;
      while remaining != {}
        invariant remaining <= original.Keys
        invariant activeOperations.Keys <= original.Keys
        invariant forall id | id in activeOperations :: activeOperations[id] == original[id]
        invariant forall id | id in original && id !in remaining :: id in activeOperations <==> !Finished(original[id].status)
        invariant forall id | id in remaining :: id in activeOperations
        invariant sent == old(sent)
        decreases remaining
      {
        var id :| id in remaining;
        if Finished(activeOperations[id].status) {
          activeOperations := activeOperations - {id};
        }
        remaining := remaining - {id};
      }
    }
  }

}
