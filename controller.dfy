/** DataManagerController: the REST layer's own logic. Validation and
    error rewriting of a new cluster are functions; the progress board
    (latest event per operation, the live SSE emitters) is a class whose
    endpoints broadcast events, count exports and route imports. Emitters are
    numbered; the ones whose `send` throws during a request are an input. */
module Controllers {
  import opened Util
  import opened ClusterConfigs
  import opened ProgressInfos
  import opened TransferOperations
  import opened DataTransfers
  import Aliases

  // ---------------------------------------------------------------------------
  // addCluster: validation and connection-error rewriting
  // ---------------------------------------------------------------------------

  /** A null string, or one that trims to nothing. */
  predicate Blank(s: Option<string>)
  {
    s.None? || Trim(s.value) == []
  }

  /** The checks of `addCluster`, in order; the first failing one decides the
      error text, and None lets the request through. */
  function ValidateCluster(c: ClusterConfig): (r: Option<string>)
    ensures r == Some("Name is required") <==> Blank(c.name)
    ensures r == Some("Host is required") <==> !Blank(c.name) && Blank(c.host)
    ensures r == Some("Valid port is required") <==> !Blank(c.name) && !Blank(c.host) && c.port <= 0
    ensures r == Some("Cluster type is required") <==>
      !Blank(c.name) && !Blank(c.host) && c.port > 0 && c.clusterType.None?
    ensures r.None? <==> !Blank(c.name) && !Blank(c.host) && c.port > 0 && c.clusterType.Some?
  {
    if Blank(c.name) then Some("Name is required")
    else if Blank(c.host) then Some("Host is required")
    else if c.port <= 0 then Some("Valid port is required")
    else if c.clusterType.None? then Some("Cluster type is required")
    else None
  }

  /** A configuration that passes validation can be printed, and its
      connection string carries its (non-blank) host. */
  lemma ValidatedConfigPrintable(c: ClusterConfig)
    requires ValidateCluster(c).None?
    ensures ToString(c).Some? && EndsWith(ToString(c).value, " (" + c.clusterType.value.DisplayName() + ")")
    ensures c.host.Some? && Trim(c.host.value) != [] && Contains(ConnectionString(c), c.host.value)
  {
    ConnectionStringShape(c);
    var r := ConnectionString(c);
    var p := |Protocol(c.useSSL)| + 3;
    var h := c.host.value;
    assert r[p..p + |h|] == h;
    assert OccursAt(r, h, p);
  }

  /** The message of a failed connection test, rewritten for the user: the
      markers are looked for in this order, and any other message passes
      through unchanged. */
  function RewriteError(msg: Option<string>, engine: ClusterType, host: string, port: int): (r: string)
    ensures msg.None? ==> r == "Connection failed"
    ensures msg.Some? && Contains(msg.value, "Connection refused") ==>
      r == "Connection refused - check if " + engine.Name() + " is running on " + host + ":" + IntToString(port)
    ensures msg.Some? && !Contains(msg.value, "Connection refused") && Contains(msg.value, "UnknownHostException") ==>
      r == "Unknown host: " + host
    ensures (msg.Some? && !Contains(msg.value, "Connection refused") && !Contains(msg.value, "UnknownHostException")
             && Contains(msg.value, "timeout")) ==>
      r == "Connection timeout - check network and firewall settings"
    ensures (msg.Some? && !Contains(msg.value, "Connection refused") && !Contains(msg.value, "UnknownHostException")
             && !Contains(msg.value, "timeout")) ==>
      r == msg.value
  {
    match msg
    case None => "Connection failed"
    case Some(m) =>
      if Contains(m, "Connection refused") then
        "Connection refused - check if " + engine.Name() + " is running on " + host + ":" + IntToString(port)
      else if Contains(m, "UnknownHostException") then "Unknown host: " + host
      else if Contains(m, "timeout") then "Connection timeout - check network and firewall settings"
      else m
  }

  /** A refused connection is reported with the host and port it was
      refused on, whatever else the original message says. */
  lemma RefusedNamesEndpoint(m: string, engine: ClusterType, host: string, port: int)
    requires Contains(m, "Connection refused")
    ensures var r := RewriteError(Some(m), engine, host, port);
      Contains(r, host) && EndsWith(r, ":" + IntToString(port))
  {
    var pre := "Connection refused - check if " + engine.Name() + " is running on ";
    var tail := ":" + IntToString(port);
    assert RewriteError(Some(m), engine, host, port) == pre + host + ":" + IntToString(port);
    AppendAssoc(pre + host, ":", IntToString(port));
    InfixOccurs(pre, host, tail);
  }

  // ---------------------------------------------------------------------------
  // Emitters and the events of the endpoints
  // ---------------------------------------------------------------------------

  /** The emitters `removeAll(deadEmitters)` keeps, in order: those whose
      `send` did not throw. */
  function Survivors(es: seq<nat>, broken: set<nat>): (r: seq<nat>)
    ensures |r| <= |es|
  {
    if es == [] then []
    else Survivors(es[..|es| - 1], broken) + (if es[|es| - 1] in broken then [] else [es[|es| - 1]])
  }

  /** Exactly the live emitters survive. */
  lemma {:induction false} SurvivorsMembers(es: seq<nat>, broken: set<nat>)
    ensures forall e :: e in Survivors(es, broken) <==> e in es && e !in broken
  {
    if es != [] {
      SurvivorsMembers(es[..|es| - 1], broken);
      assert es == es[..|es| - 1] + [es[|es| - 1]];
    }
  }

  /** A second broadcast to the same broken emitters removes nothing more. */
  lemma {:induction false} SurvivorsIdempotent(es: seq<nat>, broken: set<nat>)
    ensures Survivors(Survivors(es, broken), broken) == Survivors(es, broken)
  {
    if es != [] {
      var front := es[..|es| - 1];
      var last := es[|es| - 1];
      SurvivorsIdempotent(front, broken);
      var s := Survivors(front, broken);
      if last !in broken {
        assert Survivors(es, broken) == s + [last];
        var t := s + [last];
        assert t[..|t| - 1] == s && t[|t| - 1] == last;
        assert Survivors(t, broken) == Survivors(s, broken) + [last];
      } else {
        assert Survivors(es, broken) == s + [];
        assert s + [] == s;
      }
    }
  }

  /** `(double) c / t * 100` as sent by the multi-index endpoints. */
  function RunningEvent(opId: string, message: string, current: Option<string>, t: int, c: int): ProgressInfo
    requires t > 0
  {
    Event(opId, "RUNNING", message)
      .(currentIndex := current, totalIndices := t, completedIndices := c, percentage := Percent(c, t))
  }

  /** The zip entry `exportMultipleIndices` writes an index to. */
  function EntryName(index: string): string
  {
    index + ".json"
  }

  /** Different indices go to different entries. */
  lemma EntryNameInjective(a: string, b: string)
    ensures EntryName(a) == EntryName(b) <==> a == b
  {
    if EntryName(a) == EntryName(b) {
      assert |a| == |b|;
      assert a == EntryName(a)[..|a|];
      assert b == EntryName(b)[..|b|];
    }
  }

  /** The entry names the archive has seen after the first `n` indices:
      `exports[k]` says whether index k's export and serialisation succeed,
      and each such index reaches `putNextEntry` with its entry name. */
  function Written(indices: seq<string>, exports: seq<bool>, n: nat): set<string>
    requires n <= |indices| == |exports|
  {
    if n == 0 then {}
    else Written(indices, exports, n - 1) + (if exports[n - 1] then {EntryName(indices[n - 1])} else {})
  }

  /** An entry name is in the archive exactly when some earlier index with
      that entry exported. */
  lemma {:induction false} WrittenMembers(indices: seq<string>, exports: seq<bool>, n: nat, e: string)
    requires n <= |indices| == |exports|
    ensures e in Written(indices, exports, n) <==> exists j | 0 <= j < n :: exports[j] && EntryName(indices[j]) == e
  {
    if n > 0 {
      WrittenMembers(indices, exports, n - 1, e);
    }
  }

  /** Index k is archived and counted: its export succeeds and its entry
      name is new, since `putNextEntry` throws on a duplicate entry. */
  predicate Archived(indices: seq<string>, exports: seq<bool>, k: nat)
    requires k < |indices| == |exports|
  {
    exports[k] && EntryName(indices[k]) !in Written(indices, exports, k)
  }

  /** `completed` after the first `n` indices. */
  function CountOk(indices: seq<string>, exports: seq<bool>, n: nat): (c: nat)
    requires n <= |indices| == |exports|
    ensures c <= n
  {
    if n == 0 then 0 else CountOk(indices, exports, n - 1) + (if Archived(indices, exports, n - 1) then 1 else 0)
  }

  /** The count is the number of entries in the archive. */
  lemma {:induction false} CountIsEntries(indices: seq<string>, exports: seq<bool>, n: nat)
    requires n <= |indices| == |exports|
    ensures CountOk(indices, exports, n) == |Written(indices, exports, n)|
  {
    if n > 0 {
      CountIsEntries(indices, exports, n - 1);
      var w := Written(indices, exports, n - 1);
      if exports[n - 1] {
        var e := EntryName(indices[n - 1]);
        if e in w {
          assert w + {e} == w;
        } else {
          assert |w + {e}| == |w| + 1;
        }
      } else {
        assert w + {} == w;
      }
    }
  }

  /** Every index in order exported, each under a name no earlier index had. */
  predicate AllArchivable(indices: seq<string>, exports: seq<bool>, n: nat)
    requires n <= |indices| == |exports|
  {
    forall k | 0 <= k < n :: exports[k] && forall j | 0 <= j < k :: indices[j] != indices[k]
  }

  /** The count reaches the number of indices exactly when every export
      succeeds and no index name repeats. */
  lemma {:induction false} CountOkAll(indices: seq<string>, exports: seq<bool>, n: nat)
    requires n <= |indices| == |exports|
    ensures CountOk(indices, exports, n) == n <==> AllArchivable(indices, exports, n)
  {
    if n > 0 {
      CountOkAll(indices, exports, n - 1);
      var e := EntryName(indices[n - 1]);
      WrittenMembers(indices, exports, n - 1, e);
      if CountOk(indices, exports, n) == n {
        assert Archived(indices, exports, n - 1);
        forall j | 0 <= j < n - 1
          ensures indices[j] != indices[n - 1]
        {
          EntryNameInjective(indices[j], indices[n - 1]);
        }
      }
      if AllArchivable(indices, exports, n) {
        assert AllArchivable(indices, exports, n - 1);
        if e in Written(indices, exports, n - 1) {
          var j :| 0 <= j < n - 1 && exports[j] && EntryName(indices[j]) == e;
          EntryNameInjective(indices[j], indices[n - 1]);
          assert false;
        }
      }
    }
  }

  /** Exporting "a" twice archives it once: the summary says 1 of 2. */
  lemma RepeatedIndexCountsOnce()
    ensures CountOk(["a", "a"], [true, true], 2) == 1
  {
    var ix, ex := ["a", "a"], [true, true];
    assert Written(ix, ex, 1) == {EntryName("a")};
    assert Archived(ix, ex, 0) && !Archived(ix, ex, 1);
  }

  /** The RUNNING events of `exportMultipleIndices` for the first `n`
      indices. */
  function ExportEvents(opId: string, indices: seq<string>, exports: seq<bool>, n: nat): (r: seq<ProgressInfo>)
    requires n <= |indices| == |exports|
    ensures |r| == n
  {
    if n == 0 then []
    else
      ExportEvents(opId, indices, exports, n - 1)
        + [RunningEvent(opId, "Exporting " + indices[n - 1], Some(indices[n - 1]), |indices|, CountOk(indices, exports, n - 1))]
  }

  function ExportDone(opId: string, total: int, completed: int, zipSize: int): ProgressInfo
  {
    Event(opId, "COMPLETED", "Export completed: " + IntToString(completed) + "/" + IntToString(total) + " indices")
      .(totalIndices := total, completedIndices := completed, percentage := 100.0, bytesProcessed := zipSize)
  }

  /** What `importIndex` and `importFromZip` answer. */
  datatype ImportResponse =
    | Imported(indexName: string)
    | BadRequest(error: string)
    | ZipImported(imported: seq<string>, failed: seq<string>)

  /** A file name taken by the zip path: ".zip" at the end, in any case. */
  predicate IsZipName(filename: Option<string>)
  {
    filename.Some? && EndsWith(ToLower(filename.value), ".zip")
  }

  /** The routing ignores case: a name and its lower-cased form take the
      same path. */
  lemma ZipRoutingIgnoresCase(f: string)
    ensures IsZipName(Some(f)) <==> IsZipName(Some(ToLower(f)))
  {
    ToLowerIdempotent(f);
  }

  /** A parsed upload or zip entry: the JSON object, or the message of the
      exception parsing threw. */
  type Parsed = Result<map<string, Json>, string>

  const MissingName := "Invalid export file: missing index name"

  /** An import failure's text is never the missing-name text. */
  lemma FailureNotMissing(m: string)
    ensures "Import failed: " + m != MissingName
  {
    assert ("Import failed: " + m)[1] != MissingName[1];
  }

  /** The outcome of the single-file import after its RUNNING event.
      `castMessage(v)` is the message of the ClassCastException that
      `(String)` throws on the JSON value `v` (the JVM's text, which names
      the value's runtime class). */
  function SingleImport(parsed: Parsed, importError: Option<string>, castMessage: Json -> string): (r: ImportResponse)
    ensures r.Imported? <==>
      parsed.Ok? && Aliases.StringField(parsed.value, "name").Ok?
      && Aliases.StringField(parsed.value, "name").value.Some?
      && Aliases.StringField(parsed.value, "name").value.value != [] && importError.None?
    ensures r.Imported? ==> Aliases.StringField(parsed.value, "name") == Ok(Some(r.indexName))
    ensures r == BadRequest(MissingName) <==>
      parsed.Ok? && Aliases.StringField(parsed.value, "name") in {Ok(None), Ok(Some([]))}
    ensures r.BadRequest? && r.error != MissingName ==> StartsWith(r.error, "Import failed: ")
    ensures parsed.Err? ==> r == BadRequest("Import failed: " + parsed.error)
    ensures parsed.Ok? && Aliases.StringField(parsed.value, "name").Err? ==>
      r == BadRequest("Import failed: " + castMessage(Aliases.StringField(parsed.value, "name").error))
    ensures (parsed.Ok? && Aliases.StringField(parsed.value, "name").Ok? && importError.Some?
             && Aliases.StringField(parsed.value, "name").value !in {None, Some([])}) ==>
      r == BadRequest("Import failed: " + importError.value)
    ensures !r.ZipImported?
  {
    match parsed
    case Err(m) => FailureNotMissing(m); BadRequest("Import failed: " + m)
    case Ok(data) =>
      match Aliases.StringField(data, "name")
      case Err(v) => FailureNotMissing(castMessage(v)); BadRequest("Import failed: " + castMessage(v))
      case Ok(name) =>
        if name.None? || name.value == [] then BadRequest(MissingName)
        else if importError.Some? then FailureNotMissing(importError.value); BadRequest("Import failed: " + importError.value)
        else Imported(name.value)
  }

  /** One zip entry: its name, its parsed content, and the message of the
      exception importing it throws, if any. */
  datatype ZipItem = ZipItem(fileName: string, parsed: Parsed, importError: Option<string>)

  datatype EntryOutcome = EntryImported(name: string) | EntryFailed(name: string) | EntrySkipped

  /** What importing one ".json" entry does: an entry whose "name" is null or
      empty is neither imported nor failed; a failed entry is reported under
      its file name with every ".json" deleted. */
  function EntryResult(e: ZipItem): (r: EntryOutcome)
    ensures r.EntryFailed? ==> r.name == RemoveAll(e.fileName, JsonSuffix)
    ensures r.EntryImported? <==>
      (e.parsed.Ok? && e.importError.None?
       && exists n | n != [] :: Aliases.StringField(e.parsed.value, "name") == Ok(Some(n)))
    ensures r.EntrySkipped? <==> e.parsed.Ok? && Aliases.StringField(e.parsed.value, "name") in {Ok(None), Ok(Some([]))}
  {
    match e.parsed
    case Err(_) => EntryFailed(RemoveAll(e.fileName, JsonSuffix))
    case Ok(data) =>
      match Aliases.StringField(data, "name")
      case Err(_) => EntryFailed(RemoveAll(e.fileName, JsonSuffix))
      case Ok(name) =>
        if name.None? || name.value == [] then EntrySkipped
        else if e.importError.Some? then EntryFailed(RemoveAll(e.fileName, JsonSuffix))
        else EntryImported(name.value)
  }

  function ImportedNames(es: seq<ZipItem>): seq<string>
  {
    if es == [] then []
    else
      var r := EntryResult(es[|es| - 1]);
      ImportedNames(es[..|es| - 1]) + (if r.EntryImported? then [r.name] else [])
  }

  function FailedNames(es: seq<ZipItem>): seq<string>
  {
    if es == [] then []
    else
      var r := EntryResult(es[|es| - 1]);
      FailedNames(es[..|es| - 1]) + (if r.EntryFailed? then [r.name] else [])
  }

  function SkippedCount(es: seq<ZipItem>): nat
  {
    if es == [] then 0
    else SkippedCount(es[..|es| - 1]) + (if EntryResult(es[|es| - 1]).EntrySkipped? then 1 else 0)
  }

  /** Every ".json" entry is imported, failed or skipped, exactly one of
      them; so the report accounts for every entry unless some are skipped. */
  lemma {:induction false} ZipCounts(es: seq<ZipItem>)
    ensures |ImportedNames(es)| + |FailedNames(es)| + SkippedCount(es) == |es|
    ensures |ImportedNames(es)| + |FailedNames(es)| == |es| <==> SkippedCount(es) == 0
  {
    if es != [] {
      ZipCounts(es[..|es| - 1]);
    }
  }

  /** A failed entry "x.json" is reported as "x" when "x" has no ".json" of
      its own. */
  lemma FailedEntryStem(stem: string, parsed: Parsed, importError: Option<string>)
    requires !Contains(stem, JsonSuffix)
    requires EntryResult(ZipItem(stem + JsonSuffix, parsed, importError)).EntryFailed?
    ensures EntryResult(ZipItem(stem + JsonSuffix, parsed, importError)).name == stem
  {
    RemoveJsonSuffix(stem);
  }

  /** The ".json" entries of a zip, in order. */
  function JsonEntries(items: seq<ZipItem>): (r: seq<ZipItem>)
    ensures forall e | e in r :: e in items && EndsWith(e.fileName, JsonSuffix)
    ensures forall e | e in items && EndsWith(e.fileName, JsonSuffix) :: e in r
  {
    if items == [] then []
    else
      var last := items[|items| - 1];
      var front := JsonEntries(items[..|items| - 1]);
      assert forall e | e in items :: e in items[..|items| - 1] || e == last;
      front + (if EndsWith(last.fileName, JsonSuffix) then [last] else [])
  }

  /** The RUNNING events of `importFromZip` for the first `n` entries. */
  function ZipEvents(opId: string, es: seq<ZipItem>, n: nat): (r: seq<ProgressInfo>)
    requires n <= |es|
    ensures |r| == n
  {
    if n == 0 then []
    else
      ZipEvents(opId, es, n - 1)
        + [RunningEvent(opId, "Importing " + es[n - 1].fileName, None, |es|, |ImportedNames(es[..n - 1])|)]
  }

  function ZipDone(opId: string, total: int, imported: int): ProgressInfo
  {
    Event(opId, "COMPLETED", "Import completed: " + IntToString(imported) + "/" + IntToString(total))
      .(totalIndices := total, completedIndices := imported, percentage := 100.0)
  }

  /** The states `clearCompleted` drops from the progress board. */
  predicate Cleared(p: ProgressInfo)
  {
    p.status == "COMPLETED" || p.status == "FAILED"
  }

  /** The board after `clearCompleted`: CANCELLED and running entries stay. */
  function KeepUncleared(board: map<string, ProgressInfo>): (r: map<string, ProgressInfo>)
    ensures r.Keys <= board.Keys
    ensures forall id | id in r :: r[id] == board[id] && !Cleared(r[id])
    ensures forall id | id in board && !Cleared(board[id]) :: id in r
  {
    map id | id in board && !Cleared(board[id]) :: board[id]
  }

  // ---------------------------------------------------------------------------
  // The controller
  // ---------------------------------------------------------------------------

  class DataManagerController {
    const service: DataTransferService
    /** The latest event of each operation. */
    var operationProgress: map<string, ProgressInfo>
    /** The registered SSE emitters, in order. */
    var emitters: seq<nat>
    /** Every event broadcast, in order. */
    var broadcasts: seq<ProgressInfo>

    constructor (service: DataTransferService, emitters: seq<nat>)
      ensures this.service == service && this.emitters == emitters
      ensures operationProgress == map[] && broadcasts == []
    {
      this.service := service;
      this.emitters := emitters;
      operationProgress := map[];
      broadcasts := [];
    }

    /** `broadcastProgress`: record the event as its operation's latest, send
        it to every emitter, and drop exactly the emitters whose send threw. */
    method BroadcastProgress(progress: ProgressInfo, broken: set<nat>)
      modifies this
      ensures operationProgress == old(operationProgress)[progress.operationId := progress]
      ensures emitters == Survivors(old(emitters), broken)
      ensures broadcasts == old(broadcasts) + [progress]
    {
      operationProgress := operationProgress[progress.operationId := progress];
      var dead: seq<nat> := [];
      var i := 0;
      while i < |emitters|
        invariant 0 <= i <= |emitters|
        invariant forall e :: e in dead <==> e in emitters[..i] && e in broken
      {
        if emitters[i] in broken {
          dead := dead + [emitters[i]];
        }
        assert emitters[..i + 1] == emitters[..i] + [emitters[i]];
        i := i + 1;
      }
      assert emitters[..i] == emitters;
      var kept: seq<nat> := [];
      var j := 0;
      while j < |emitters|
        invariant 0 <= j <= |emitters|
        invariant kept == Survivors(emitters[..j], broken)
      {
        assert emitters[..j + 1][..j] == emitters[..j];
        if emitters[j] !in dead {
          kept := kept + [emitters[j]];
        }
        j := j + 1;
      }
      assert emitters[..j] == emitters;
      emitters := kept;
      broadcasts := broadcasts + [progress];
    }

    /** `clearCompleted`: clears the service's registry, then drops the
        COMPLETED and FAILED events from the board; CANCELLED ones stay. */
    method ClearCompleted()
      modifies this, service
      ensures operationProgress == KeepUncleared(old(operationProgress))
      ensures service.activeOperations == map id | id in old(service.activeOperations)
        && !Finished(old(service.activeOperations)[id].status) :: old(service.activeOperations)[id]
      ensures service.sent == old(service.sent)
      ensures emitters == old(emitters) && broadcasts == old(broadcasts)
    {
      service.ClearCompletedOperations();
      var remaining := operationProgress.Keys;
      ghost var original := operationProgress;
      ghost var registry := service.activeOperations;
      while remaining != {}
        invariant service.activeOperations == registry && service.sent == old(service.sent)
        invariant emitters == old(emitters) && broadcasts == old(broadcasts)
        invariant remaining <= original.Keys
        invariant operationProgress.Keys <= original.Keys
        invariant forall id | id in operationProgress :: operationProgress[id] == original[id]
        invariant forall id | id in original && id !in remaining :: id in operationProgress <==> !Cleared(original[id])
        invariant forall id | id in remaining :: id in operationProgress
        decreases remaining
      {
        var id :| id in remaining;
        if Cleared(operationProgress[id]) {
          operationProgress := operationProgress - {id};
        }
        remaining := remaining - {id};
      }
    }

    /** `exportMultipleIndices`: a RUNNING event before each index, a count
        of the indices written to the archive, and a final COMPLETED event
        at 100 with that count. `exports[k]` says whether index k exports
        and serialises; an index whose entry name the archive already holds
        fails at `putNextEntry` and is not counted. `zipSize` is the
        archive's size. */
    method ExportMultipleIndices(uuid: string, indices: seq<string>, exports: seq<bool>, zipSize: int, broken: set<nat>)
      returns (opId: string, completed: nat)
      requires |uuid| >= 8
      requires |exports| == |indices|
      modifies this
      ensures opId == GeneratedId(uuid)
      ensures completed == CountOk(indices, exports, |indices|)
      ensures broadcasts == old(broadcasts) + ExportEvents(opId, indices, exports, |indices|)
        + [ExportDone(opId, |indices|, completed, zipSize)]
      ensures operationProgress == old(operationProgress)[opId := ExportDone(opId, |indices|, completed, zipSize)]
      ensures emitters == Survivors(old(emitters), broken)
    {
      opId := GeneratedId(uuid);
      var total := |indices|;
      completed := 0;
      var entries: set<string> := {};
      var i := 0;
      while i < total
        invariant 0 <= i <= total
        invariant completed == CountOk(indices, exports, i)
        invariant entries == Written(indices, exports, i)
        invariant broadcasts == old(broadcasts) + ExportEvents(opId, indices, exports, i)
        invariant i == 0 ==> operationProgress == old(operationProgress) && emitters == old(emitters)
        invariant i > 0 ==> operationProgress == old(operationProgress)[opId := broadcasts[|broadcasts| - 1]]
        invariant i > 0 ==> emitters == Survivors(old(emitters), broken)
      {
        var name := indices[i];
        var event := RunningEvent(opId, "Exporting " + name, Some(name), total, completed);
        ghost var board := operationProgress;
        BroadcastProgress(event, broken);
        AppendAssoc(old(broadcasts), ExportEvents(opId, indices, exports, i), [event]);
        if i > 0 {
          SurvivorsIdempotent(old(emitters), broken);
          UpdateTwice(old(operationProgress), opId, board[opId], event);
        }
        if exports[i] {
          var entry := name + ".json";
          if entry !in entries {
            entries := entries + {entry};
            completed := completed + 1;
          }
        }
        i := i + 1;
      }
      var done := ExportDone(opId, total, completed, zipSize);
      ghost var board := operationProgress;
      BroadcastProgress(done, broken);
      AppendAssoc(old(broadcasts), ExportEvents(opId, indices, exports, total), [done]);
      if total > 0 {
        SurvivorsIdempotent(old(emitters), broken);
        UpdateTwice(old(operationProgress), opId, board[opId], done);
      }
    }

    /** `importIndex`: a ".zip" upload (in any case) goes to the zip import;
        any other upload gets a RUNNING event, then is imported under the
        "name" it carries, with a COMPLETED event, or ends in a bad request:
        a missing or empty name, or an exception, which also sends a FAILED
        event. */
    method ImportIndex(uuid: string, filename: Option<string>, parsed: Parsed, importError: Option<string>,
                       castMessage: Json -> string,
                       zipItems: seq<ZipItem>, zipReadError: Option<string>, broken: set<nat>)
      returns (opId: string, response: ImportResponse)
      requires |uuid| >= 8
      modifies this
      ensures opId == GeneratedId(uuid)
      ensures IsZipName(filename) ==> response == ZipResponse(zipItems, zipReadError)
      ensures !IsZipName(filename) ==> response == SingleImport(parsed, importError, castMessage)
      ensures !IsZipName(filename) ==> broadcasts == old(broadcasts) + SingleImportEvents(opId, filename, parsed, importError, castMessage)
      ensures IsZipName(filename) ==> broadcasts == old(broadcasts) + ZipImportEvents(opId, zipItems, zipReadError)
      ensures operationProgress == old(operationProgress)[opId := broadcasts[|broadcasts| - 1]]
      ensures emitters == Survivors(old(emitters), broken)
    {
      opId := GeneratedId(uuid);
      if IsZipName(filename) {
        response := ImportFromZip(opId, zipItems, zipReadError, broken);
        return;
      }
      var running := Event(opId, "RUNNING", "Importing from " + FormatNullable(filename));
      BroadcastProgress(running, broken);
      var last: Option<ProgressInfo> := None;
      var field := if parsed.Ok? then Aliases.StringField(parsed.value, "name") else Ok(None);
      var name: Result<Option<string>, string> :=
        if parsed.Err? then Err(parsed.error)
        else if field.Err? then Err(castMessage(field.error))
        else Ok(field.value);
      if name.Err? {
        response := BadRequest("Import failed: " + name.error);
        last := Some(Event(opId, "FAILED", "Import failed: " + name.error));
      } else if name.value.None? || name.value.value == [] {
        response := BadRequest(MissingName);
      } else if importError.Some? {
        response := BadRequest("Import failed: " + importError.value);
        last := Some(Event(opId, "FAILED", "Import failed: " + importError.value));
      } else {
        response := Imported(name.value.value);
        last := Some(Event(opId, "COMPLETED", "Imported: " + name.value.value)
          .(currentIndex := Some(name.value.value), percentage := 100.0));
      }
      if last.Some? {
        BroadcastProgress(last.value, broken);
        SurvivorsIdempotent(old(emitters), broken);
        UpdateTwice(old(operationProgress), opId, running, last.value);
        AppendAssoc(old(broadcasts), [running], [last.value]);
      }
    }

    /** `importFromZip`: collects the ".json" entries, then imports each with
        a RUNNING event before it, collecting imported index names and failed
        entry names, and ends with a COMPLETED event counting the imported
        ones. A zip that cannot be read sends a FAILED event instead. */
    method ImportFromZip(opId: string, items: seq<ZipItem>, readError: Option<string>, broken: set<nat>)
      returns (response: ImportResponse)
      modifies this
      ensures response == ZipResponse(items, readError)
      ensures broadcasts == old(broadcasts) + ZipImportEvents(opId, items, readError)
      ensures operationProgress == old(operationProgress)[opId := broadcasts[|broadcasts| - 1]]
      ensures emitters == Survivors(old(emitters), broken)
    {
      if readError.Some? {
        BroadcastProgress(Event(opId, "FAILED", "Failed to read ZIP: " + readError.value), broken);
        return BadRequest("Failed to read ZIP file: " + readError.value);
      }
      var entries := CollectJsonEntries(items);
      var imported, failed := ImportEntries(opId, entries, broken);
      ghost var board := operationProgress;
      var done := ZipDone(opId, |entries|, |imported|);
      BroadcastProgress(done, broken);
      AppendAssoc(old(broadcasts), ZipEvents(opId, entries, |entries|), [done]);
      if |entries| > 0 {
        SurvivorsIdempotent(old(emitters), broken);
        UpdateTwice(old(operationProgress), opId, board[opId], done);
      }
      response := ZipImported(imported, failed);
    }

    /** The first pass of `importFromZip`: the ".json" entries, in order. */
    static method CollectJsonEntries(items: seq<ZipItem>) returns (entries: seq<ZipItem>)
      ensures entries == JsonEntries(items)
    {
      entries := [];
      var k := 0;
      while k < |items|
        invariant 0 <= k <= |items|
        invariant entries == JsonEntries(items[..k])
      {
        assert items[..k + 1][..k] == items[..k];
        if EndsWith(items[k].fileName, JsonSuffix) {
          entries := entries + [items[k]];
        }
        k := k + 1;
      }
      assert items[..k] == items;
    }

    /** The loop of `importFromZip` over its ".json" entries. */
    method ImportEntries(opId: string, entries: seq<ZipItem>, broken: set<nat>)
      returns (imported: seq<string>, failed: seq<string>)
      modifies this
      ensures imported == ImportedNames(entries) && failed == FailedNames(entries)
      ensures broadcasts == old(broadcasts) + ZipEvents(opId, entries, |entries|)
      ensures |entries| == 0 ==> operationProgress == old(operationProgress) && emitters == old(emitters)
      ensures |entries| > 0 ==> operationProgress == old(operationProgress)[opId := broadcasts[|broadcasts| - 1]]
      ensures |entries| > 0 ==> emitters == Survivors(old(emitters), broken)
    {
      imported := [];
      failed := [];
      var i := 0;
      while i < |entries|
        invariant 0 <= i <= |entries|
        invariant imported == ImportedNames(entries[..i]) && failed == FailedNames(entries[..i])
        invariant broadcasts == old(broadcasts) + ZipEvents(opId, entries, i)
        invariant i == 0 ==> operationProgress == old(operationProgress) && emitters == old(emitters)
        invariant i > 0 ==> operationProgress == old(operationProgress)[opId := broadcasts[|broadcasts| - 1]]
        invariant i > 0 ==> emitters == Survivors(old(emitters), broken)
      {
        var e := entries[i];
        var event := RunningEvent(opId, "Importing " + e.fileName, None, |entries|, |imported|);
        ghost var board := operationProgress;
        BroadcastProgress(event, broken);
        AppendAssoc(old(broadcasts), ZipEvents(opId, entries, i), [event]);
        if i > 0 {
          SurvivorsIdempotent(old(emitters), broken);
          UpdateTwice(old(operationProgress), opId, board[opId], event);
        }
        assert entries[..i + 1][..i] == entries[..i];
        var outcome := EntryResult(e);
        if outcome.EntryImported? {
          imported := imported + [outcome.name];
        } else if outcome.EntryFailed? {
          failed := failed + [outcome.name];
        }
        i := i + 1;
      }
      assert entries[..i] == entries;
    }
  }

  /** The events of the single-file import. */
  function SingleImportEvents(opId: string, filename: Option<string>, parsed: Parsed, importError: Option<string>,
                              castMessage: Json -> string): seq<ProgressInfo>
  {
    var r := SingleImport(parsed, importError, castMessage);
    [Event(opId, "RUNNING", "Importing from " + FormatNullable(filename))]
      + match r
        case Imported(n) => [Event(opId, "COMPLETED", "Imported: " + n).(currentIndex := Some(n), percentage := 100.0)]
        case BadRequest(err) => if err == MissingName then [] else [Event(opId, "FAILED", err)]
        case ZipImported(_, _) => []
  }

  /** The answer of the zip import. */
  function ZipResponse(items: seq<ZipItem>, readError: Option<string>): (r: ImportResponse)
    ensures readError.Some? <==> r.BadRequest?
    ensures r.ZipImported? ==> r.imported == ImportedNames(JsonEntries(items)) && r.failed == FailedNames(JsonEntries(items))
  {
    if readError.Some? then BadRequest("Failed to read ZIP file: " + readError.value)
    else ZipImported(ImportedNames(JsonEntries(items)), FailedNames(JsonEntries(items)))
  }

  /** The events of the zip import. */
  function ZipImportEvents(opId: string, items: seq<ZipItem>, readError: Option<string>): seq<ProgressInfo>
  {
    if readError.Some? then [Event(opId, "FAILED", "Failed to read ZIP: " + readError.value)]
    else
      var es := JsonEntries(items);
      ZipEvents(opId, es, |es|) + [ZipDone(opId, |es|, |ImportedNames(es)|)]
  }
}
