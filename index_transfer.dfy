/** Moving whole indices: `exportSingleIndex` / `exportToFile` read an index
    (settings, mappings, aliases, documents) from a source cluster into a
    record; `importSingleIndex` / `importFromFile` replay records into a
    target cluster; `transferBetweenClusters` does both at once. The two
    services share this logic and differ only where noted (the recorded
    cluster type, `is_hidden`, and how a null `_source` is recorded). */
module IndexTransfer {
  import opened Util
  import opened ClusterConfigs
  import opened TargetClusters
  import opened BulkBatching
  import opened ScrollDrain
  import opened Aliases

  /** What the source cluster reports for one index: its settings and
      mappings (None when the client returns null), its aliases (None when
      the alias response has no entry for the index or no alias map), and
      the scroll cursor over its documents. */
  datatype SourceIndex = SourceIndex(
    settings: Option<Json>,
    mappings: Option<Json>,
    aliases: Option<map<string, AliasDefinition>>,
    first: Page,
    pages: seq<Page>)

  /** The per-index object of an export (`indexData`); a key that was never
      put is None. */
  datatype IndexRecord = IndexRecord(
    name: string,
    exportDate: Option<string>,
    clusterType: Option<string>,
    settings: Option<Json>,
    mappings: Option<Json>,
    aliases: Option<map<string, Json>>,
    documents: Option<seq<Doc>>,
    documentCount: Option<nat>)

  /** The object `exportToFile` writes; the `clusterInfo` entry is not part
      of this model. */
  datatype ExportFile = ExportFile(exportDate: string, indices: seq<IndexRecord>)

  // ---------------------------------------------------------------------------
  // Export
  // ---------------------------------------------------------------------------

  /** `doc.put("_source", ...)`: the Elasticsearch service passes the source
      through `convertToMap`, so a null source is recorded as `{}` (two bytes
      serialized); the OpenSearch service records the source as it is. */
  function ExportedDoc(engine: ClusterType, d: Doc): (r: Doc)
    ensures r.id == d.id
    ensures engine == OpenSearch || d.source != JNull ==> r == d
    ensures engine == Elasticsearch ==> r.source != JNull
  {
    if engine == Elasticsearch && d.source == JNull then Doc(d.id, JObj(map[]), 2) else d
  }

  function ExportedDocs(engine: ClusterType, docs: seq<Doc>): (r: seq<Doc>)
    ensures |r| == |docs| && forall i | 0 <= i < |docs| :: r[i] == ExportedDoc(engine, docs[i])
  {
    seq(|docs|, i requires 0 <= i < |docs| => ExportedDoc(engine, docs[i]))
  }

  /** Whether the alias block records an `aliases` entry: the index has a
      non-null, non-empty alias map. */
  predicate HasAliases(src: SourceIndex)
  {
    src.aliases.Some? && |src.aliases.value| > 0
  }

  /** The record one index exports to (without the per-file header keys). */
  function ExportRecord(engine: ClusterType, name: string, src: SourceIndex,
                        includeSettings: bool, includeMappings: bool, includeAliases: bool): IndexRecord
  {
    var docs := ExportedDocs(engine, ExportedDocuments(src.first, src.pages));
    IndexRecord(name, None, None,
      if includeSettings then Some(ConvertToMap(src.settings)) else None,
      if includeMappings then Some(ConvertToMap(src.mappings)) else None,
      if includeAliases && HasAliases(src) then Some(ExportAliasMap(engine, src.aliases.value)) else None,
      Some(docs), Some(|docs|))
  }

  /** The body of the per-index loop of `exportToFile`, which
      `exportSingleIndex` repeats: the record, and the scroll id cleared at
      the end (None when no clear-scroll call is made). */
  method ExportIndexData(engine: ClusterType, name: string, src: SourceIndex,
                         includeSettings: bool, includeMappings: bool, includeAliases: bool)
    returns (rec: IndexRecord, cleared: Option<string>)
    ensures rec == ExportRecord(engine, name, src, includeSettings, includeMappings, includeAliases)
    ensures cleared == AsWritten(src.first, src.pages).finalScrollId
  {
    var settings: Option<Json> := None;
    var mappings: Option<Json> := None;
    var aliases: Option<map<string, Json>> := None;
    if includeSettings {
      settings := Some(ConvertToMap(src.settings));
    }
    if includeMappings {
      mappings := Some(ConvertToMap(src.mappings));
    }
    if includeAliases && src.aliases.Some? && |src.aliases.value| > 0 {
      var aliasesMap := ExportAliases(engine, src.aliases.value);
      aliases := Some(aliasesMap);
    }
    var hits, scrollCalls, scrollId := DrainToDocuments(src.first, src.pages);
    var documents := ExportedDocs(engine, hits);
    cleared := scrollId;
    rec := IndexRecord(name, None, None, settings, mappings, aliases, Some(documents), Some(|documents|));
  }

  /** `exportSingleIndex`: the record of one index plus its `exportDate`
      (the clock is a parameter) and `clusterType`. An index the source
      cluster does not have makes the call fail with "Export failed: " and
      the client's message for it (`missing`, since the client is not part of
      this model). */
  method ExportSingleIndex(engine: ClusterType, source: map<string, SourceIndex>, name: string, now: string,
                           includeSettings: bool, includeMappings: bool, includeAliases: bool,
                           missing: string -> string)
    returns (r: Result<IndexRecord, string>, cleared: Option<string>)
    ensures r.Err? <==> name !in source
    ensures r.Err? ==> r.error == "Export failed: " + missing(name) && cleared.None?
    ensures r.Ok? ==> r.value == ExportRecord(engine, name, source[name], includeSettings, includeMappings, includeAliases)
                                   .(exportDate := Some(now), clusterType := Some(engine.Name()))
    ensures r.Ok? ==> cleared == AsWritten(source[name].first, source[name].pages).finalScrollId
  {
    if name !in source {
      return Err("Export failed: " + missing(name)), None;
    }
    var rec;
    rec, cleared := ExportIndexData(engine, name, source[name], includeSettings, includeMappings, includeAliases);
    r := Ok(rec.(exportDate := Some(now), clusterType := Some(engine.Name())));
  }

  /** `indices[i]` is the first requested index the source does not have. */
  predicate FirstMissing(source: map<string, SourceIndex>, indices: seq<string>, i: nat)
  {
    i < |indices| && indices[i] !in source && forall k | 0 <= k < i :: indices[k] in source
  }

  /** The scroll ids `exportToFile` clears, index by index. */
  function ClearedIds(source: map<string, SourceIndex>, indices: seq<string>): seq<string>
    requires forall i | 0 <= i < |indices| :: indices[i] in source
  {
    if indices == [] then []
    else
      ClearedIds(source, indices[..|indices| - 1]) + ClearedId(source[indices[|indices| - 1]])
  }

  /** The scroll id index `i` clears, if any. */
  function ClearedId(src: SourceIndex): seq<string>
  {
    var d := AsWritten(src.first, src.pages);
    if d.finalScrollId.Some? then [d.finalScrollId.value] else []
  }

  lemma ClearedIdsSnoc(source: map<string, SourceIndex>, indices: seq<string>, i: nat)
    requires i < |indices| && forall k | 0 <= k <= i :: indices[k] in source
    ensures ClearedIds(source, indices[..i + 1]) == ClearedIds(source, indices[..i]) + ClearedId(source[indices[i]])
  {
    assert indices[..i + 1][..i] == indices[..i];
  }

  /** `exportToFile`: one record per requested index, in request order. The
      first index the source cluster does not have fails the whole export
      with "Export failed: " and the client's message for it (`missing`);
      nothing is written, but the scrolls of the indices before it have
      been cleared. */
  method ExportToFile(engine: ClusterType, source: map<string, SourceIndex>, indices: seq<string>, now: string,
                      includeSettings: bool, includeMappings: bool, includeAliases: bool,
                      missing: string -> string)
    returns (r: Result<ExportFile, string>, cleared: seq<string>)
    ensures r.Err? <==> exists i | 0 <= i < |indices| :: indices[i] !in source
    ensures r.Err? ==> exists i | 0 <= i < |indices| ::
      FirstMissing(source, indices, i) && r.error == "Export failed: " + missing(indices[i])
      && cleared == ClearedIds(source, indices[..i])
    ensures r.Ok? ==> r.value.exportDate == now && |r.value.indices| == |indices|
    ensures r.Ok? ==> forall i | 0 <= i < |indices| ::
      r.value.indices[i] == ExportRecord(engine, indices[i], source[indices[i]], includeSettings, includeMappings, includeAliases)
    ensures r.Ok? ==> cleared == ClearedIds(source, indices)
  {
    var records: seq<IndexRecord> := [];
    cleared := [];
    var i := 0;
    while i < |indices|
      invariant 0 <= i <= |indices|
      invariant forall k | 0 <= k < i :: indices[k] in source
      invariant |records| == i
      invariant forall k | 0 <= k < i ::
        records[k] == ExportRecord(engine, indices[k], source[indices[k]], includeSettings, includeMappings, includeAliases)
      invariant cleared == ClearedIds(source, indices[..i])
    {
      if indices[i] !in source {
        assert FirstMissing(source, indices, i);
        return Err("Export failed: " + missing(indices[i])), cleared;
      }
      var rec, scrollId := ExportIndexData(engine, indices[i], source[indices[i]], includeSettings, includeMappings, includeAliases);
      ClearedIdsSnoc(source, indices, i);
      records := records + [rec];
      if scrollId.Some? {
        cleared := cleared + [scrollId.value];
      }
      i := i + 1;
    }
    assert indices[..i] == indices;
    r := Ok(ExportFile(now, records));
  }

  // ---------------------------------------------------------------------------
  // Import
  // ---------------------------------------------------------------------------

  /** The record's documents; a missing `documents` entry is no documents. */
  function RecordDocs(rec: IndexRecord): seq<Doc>
  {
    if rec.documents.Some? then rec.documents.value else []
  }

  /** The record's aliases; a missing `aliases` entry is no aliases. */
  function RecordAliases(rec: IndexRecord): map<string, Json>
  {
    if rec.aliases.Some? then rec.aliases.value else map[]
  }

  /** The documents and aliases half of `importFromFile` and
      `importSingleIndex`: the documents go out through the bulk batcher,
      then the aliases through `importAliases`. */
  method ImportContents(cluster: TargetCluster, rec: IndexRecord) returns (applied: seq<string>, failed: Option<string>)
    modifies cluster
    ensures cluster.bulkRequests == old(cluster.bulkRequests) + Requests(rec.name, Batches(RecordDocs(rec), MaxBulkSizeBytes, MaxBulkDocCount))
    ensures cluster.aliasPuts == old(cluster.aliasPuts) + RequestsOf(ImportRequests(rec.name, RecordAliases(rec)), applied)
    ensures forall i | 0 <= i < |applied| :: applied[i] in RecordAliases(rec)
    ensures failed.None? ==> forall a | a in RecordAliases(rec) :: a in applied
    ensures failed.Some? ==> failed.value in RecordAliases(rec) && failed.value !in applied
    ensures cluster.indices == old(cluster.indices) + (if RecordDocs(rec) != [] then {rec.name} else {})
    ensures cluster.createRequests == old(cluster.createRequests)
  {
    var documents := RecordDocs(rec);
    if documents != [] {
      BulkIndex(cluster, rec.name, documents, MaxBulkSizeBytes, MaxBulkDocCount);
    }
    var aliases := RecordAliases(rec);
    applied, failed := [], None;
    if |aliases| > 0 {
      applied, failed := ImportAliases(cluster, rec.name, aliases);
    }
  }

  /** `importSingleIndex`: the index is created only when the target does
      not have it yet; documents and aliases follow either way. */
  method ImportSingleIndex(cluster: TargetCluster, rec: IndexRecord) returns (applied: seq<string>, failed: Option<string>)
    modifies cluster
    ensures cluster.createRequests == old(cluster.createRequests) + (if rec.name in old(cluster.indices) then [] else [rec.name])
    ensures cluster.indices == old(cluster.indices) + {rec.name}
    ensures cluster.bulkRequests == old(cluster.bulkRequests) + Requests(rec.name, Batches(RecordDocs(rec), MaxBulkSizeBytes, MaxBulkDocCount))
    ensures cluster.aliasPuts == old(cluster.aliasPuts) + RequestsOf(ImportRequests(rec.name, RecordAliases(rec)), applied)
    ensures failed.None? ==> forall a | a in RecordAliases(rec) :: a in applied
    ensures failed.Some? ==> failed.value in RecordAliases(rec) && failed.value !in applied
  {
    var present := cluster.Exists(rec.name);
    if !present {
      var created := cluster.CreateIndex(rec.name);
    }
    applied, failed := ImportContents(cluster, rec);
  }

  /** Whether `importFromFile` asks for the index to be created: the record
      has settings or mappings. */
  predicate CreatesFromFile(rec: IndexRecord)
  {
    rec.settings.Some? || rec.mappings.Some?
  }

  /** Whether replaying `rec` leaves its index on the target: a create is
      asked for, or a bulk request indexes documents into it. */
  predicate FileTouches(rec: IndexRecord)
  {
    CreatesFromFile(rec) || RecordDocs(rec) != []
  }

  /** The indices `importFromFile` leaves on the target besides those it had. */
  function FileIndices(records: seq<IndexRecord>): set<string>
  {
    if records == [] then {}
    else
      var last := records[|records| - 1];
      FileIndices(records[..|records| - 1]) + (if FileTouches(last) then {last.name} else {})
  }

  /** The create requests `importFromFile` sends, in record order. */
  function FileCreates(records: seq<IndexRecord>): seq<string>
  {
    if records == [] then []
    else
      var last := records[|records| - 1];
      FileCreates(records[..|records| - 1]) + (if CreatesFromFile(last) then [last.name] else [])
  }

  /** The bulk requests `importFromFile` sends, in record order. */
  function FileBulk(records: seq<IndexRecord>): seq<BulkRequest>
  {
    if records == [] then []
    else
      var last := records[|records| - 1];
      FileBulk(records[..|records| - 1]) + Requests(last.name, Batches(RecordDocs(last), MaxBulkSizeBytes, MaxBulkDocCount))
  }

  /** The alias puts replaying `rec` makes when `names` are the aliases applied. */
  function ImportedPuts(rec: IndexRecord, names: seq<string>): seq<PutAlias>
  {
    RequestsOf(ImportRequests(rec.name, RecordAliases(rec)), names)
  }

  /** The alias puts `importFromFile` makes, given the aliases applied for
      each record. */
  function FileAliasPuts(records: seq<IndexRecord>, applied: seq<seq<string>>): seq<PutAlias>
    requires |applied| == |records|
  {
    if records == [] then []
    else
      var n := |records| - 1;
      FileAliasPuts(records[..n], applied[..n]) + ImportedPuts(records[n], applied[n])
  }

  /** Every name in `names` is one of the aliases. */
  predicate NamesOf(names: seq<string>, aliases: map<string, Json>)
  {
    forall k | 0 <= k < |names| :: names[k] in aliases
  }

  /** One pass of the `importFromFile` loop. */
  method ImportRecordFromFile(cluster: TargetCluster, rec: IndexRecord) returns (applied: seq<string>)
    modifies cluster
    ensures cluster.createRequests == old(cluster.createRequests) + (if CreatesFromFile(rec) then [rec.name] else [])
    ensures cluster.bulkRequests == old(cluster.bulkRequests) + Requests(rec.name, Batches(RecordDocs(rec), MaxBulkSizeBytes, MaxBulkDocCount))
    ensures cluster.aliasPuts == old(cluster.aliasPuts) + ImportedPuts(rec, applied)
    ensures cluster.indices == old(cluster.indices) + (if FileTouches(rec) then {rec.name} else {})
    ensures NamesOf(applied, RecordAliases(rec))
  {
    if CreatesFromFile(rec) {
      var created := cluster.CreateIndex(rec.name);
    }
    var failed;
    applied, failed := ImportContents(cluster, rec);
  }

  /** How the three request lists of `importFromFile` grow by one record. */
  lemma FileStep(records: seq<IndexRecord>, i: nat, applied: seq<seq<string>>, names: seq<string>)
    requires i < |records| && |applied| == i
    ensures var rec := records[i];
      FileCreates(records[..i + 1]) == FileCreates(records[..i]) + (if CreatesFromFile(rec) then [rec.name] else [])
      && FileBulk(records[..i + 1]) == FileBulk(records[..i]) + Requests(rec.name, Batches(RecordDocs(rec), MaxBulkSizeBytes, MaxBulkDocCount))
      && FileAliasPuts(records[..i + 1], applied + [names])
        == FileAliasPuts(records[..i], applied) + ImportedPuts(rec, names)
      && FileIndices(records[..i + 1]) == FileIndices(records[..i]) + (if FileTouches(rec) then {rec.name} else {})
  {
    var front := records[..i + 1];
    assert front[..i] == records[..i] && front[i] == records[i];
    assert (applied + [names])[..i] == applied && (applied + [names])[i] == names;
  }

  /** One pass of the `importFromFile` loop, stated against the requests
      sent for the records before it. */
  method ImportFileStep(cluster: TargetCluster, records: seq<IndexRecord>, i: nat, applied: seq<seq<string>>,
                        ghost creates0: seq<string>, ghost bulk0: seq<BulkRequest>, ghost puts0: seq<PutAlias>,
                        ghost indices0: set<string>)
    returns (names: seq<string>)
    requires i < |records| && |applied| == i
    requires cluster.indices == indices0 + FileIndices(records[..i])
    requires cluster.createRequests == creates0 + FileCreates(records[..i])
    requires cluster.bulkRequests == bulk0 + FileBulk(records[..i])
    requires cluster.aliasPuts == puts0 + FileAliasPuts(records[..i], applied)
    requires forall j | 0 <= j < i :: NamesOf(applied[j], RecordAliases(records[j]))
    modifies cluster
    ensures cluster.createRequests == creates0 + FileCreates(records[..i + 1])
    ensures cluster.bulkRequests == bulk0 + FileBulk(records[..i + 1])
    ensures cluster.aliasPuts == puts0 + FileAliasPuts(records[..i + 1], applied + [names])
    ensures cluster.indices == indices0 + FileIndices(records[..i + 1])
    ensures forall j | 0 <= j <= i :: NamesOf((applied + [names])[j], RecordAliases(records[j]))
  {
    var rec := records[i];
    names := ImportRecordFromFile(cluster, rec);
    FileStep(records, i, applied, names);
    AppendAssoc(creates0, FileCreates(records[..i]), if CreatesFromFile(rec) then [rec.name] else []);
    AppendAssoc(bulk0, FileBulk(records[..i]), Requests(rec.name, Batches(RecordDocs(rec), MaxBulkSizeBytes, MaxBulkDocCount)));
    AppendAssoc(puts0, FileAliasPuts(records[..i], applied), ImportedPuts(rec, names));
  }

  /** `importFromFile`: every record in order; a record with settings or
      mappings first asks for its index to be created (a failure is only
      logged); then its documents and its aliases are replayed. */
  method ImportFromFile(cluster: TargetCluster, records: seq<IndexRecord>) returns (applied: seq<seq<string>>)
    modifies cluster
    ensures |applied| == |records|
    ensures cluster.createRequests == old(cluster.createRequests) + FileCreates(records)
    ensures cluster.bulkRequests == old(cluster.bulkRequests) + FileBulk(records)
    ensures cluster.aliasPuts == old(cluster.aliasPuts) + FileAliasPuts(records, applied)
    ensures cluster.indices == old(cluster.indices) + FileIndices(records)
    ensures forall i | 0 <= i < |records| :: NamesOf(applied[i], RecordAliases(records[i]))
  {
    applied := [];
    var i := 0;
    while i < |records|
      invariant 0 <= i <= |records|
      invariant |applied| == i
      invariant cluster.createRequests == old(cluster.createRequests) + FileCreates(records[..i])
      invariant cluster.bulkRequests == old(cluster.bulkRequests) + FileBulk(records[..i])
      invariant cluster.aliasPuts == old(cluster.aliasPuts) + FileAliasPuts(records[..i], applied)
      invariant cluster.indices == old(cluster.indices) + FileIndices(records[..i])
      invariant forall j | 0 <= j < i :: NamesOf(applied[j], RecordAliases(records[j]))
    {
      var names := ImportFileStep(cluster, records, i, applied, old(cluster.createRequests), old(cluster.bulkRequests),
        old(cluster.aliasPuts), old(cluster.indices));
      applied := applied + [names];
      i := i + 1;
    }
    assert records[..i] == records;
  }

  /** A name is in `FileCreates` exactly when some record of that name has
      settings or mappings. */
  lemma {:induction false} FileCreatesIff(records: seq<IndexRecord>, name: string)
    ensures name in FileCreates(records) <==> exists i | 0 <= i < |records| :: records[i].name == name && CreatesFromFile(records[i])
  {
    if records != [] {
      var n := |records| - 1;
      FileCreatesIff(records[..n], name);
      if name in FileCreates(records) && name !in FileCreates(records[..n]) {
        assert records[n].name == name && CreatesFromFile(records[n]);
      }
      if exists i | 0 <= i < |records| :: records[i].name == name && CreatesFromFile(records[i]) {
        var i :| 0 <= i < |records| && records[i].name == name && CreatesFromFile(records[i]);
        if i < n {
          assert records[..n][i] == records[i];
        }
      }
    }
  }

  /** A name is left on the target by `importFromFile` exactly when some
      record of that name asks for a create or carries documents. */
  lemma {:induction false} FileIndicesIff(records: seq<IndexRecord>, name: string)
    ensures name in FileIndices(records) <==> exists i | 0 <= i < |records| :: records[i].name == name && FileTouches(records[i])
  {
    if records != [] {
      var n := |records| - 1;
      FileIndicesIff(records[..n], name);
      if name in FileIndices(records) && name !in FileIndices(records[..n]) {
        assert records[n].name == name && FileTouches(records[n]);
      }
      if exists i | 0 <= i < |records| :: records[i].name == name && FileTouches(records[i]) {
        var i :| 0 <= i < |records| && records[i].name == name && FileTouches(records[i]);
        if i < n {
          assert records[..n][i] == records[i];
        }
      }
    }
  }

  /** The documents of each record, in record order. */
  function RecordDocLists(records: seq<IndexRecord>): (r: seq<seq<Doc>>)
    ensures |r| == |records|
  {
    if records == [] then [] else RecordDocLists(records[..|records| - 1]) + [RecordDocs(records[|records| - 1])]
  }

  /** The documents `importFromFile` sends are those of the records, in order. */
  lemma {:induction false} FileBulkDocs(records: seq<IndexRecord>)
    ensures RequestDocs(FileBulk(records)) == Flatten(RecordDocLists(records))
  {
    if records != [] {
      var n := |records| - 1;
      var docs := RecordDocs(records[n]);
      var bs := Batches(docs, MaxBulkSizeBytes, MaxBulkDocCount);
      FileBulkDocs(records[..n]);
      RequestDocsAppend(FileBulk(records[..n]), Requests(records[n].name, bs));
      RequestDocsOfRequests(records[n].name, bs);
      CutConcat(docs, [], MaxBulkSizeBytes, MaxBulkDocCount);
      assert Flatten(bs) == docs;
      FlattenAppend(RecordDocLists(records[..n]), [docs]);
      FlattenOne(docs);
    }
  }

  // ---------------------------------------------------------------------------
  // Cluster to cluster
  // ---------------------------------------------------------------------------

  /** Whether transferring `src` leaves its index on the target: a create
      is asked for, or the scroll's first page has hits to bulk-index. */
  predicate TransferTouches(src: SourceIndex, includeSettings: bool, includeMappings: bool)
  {
    includeSettings || includeMappings || src.first.hits != []
  }

  /** The aliases the transfer copies for an index. */
  function TransferredAliases(src: SourceIndex, includeAliases: bool): map<string, AliasDefinition>
  {
    if includeAliases && src.aliases.Some? then src.aliases.value else map[]
  }

  /** The body of the per-index loop of `transferBetweenClusters`: create
      the index when settings or mappings are asked for (a failure is only
      logged; the request carries the name alone), drain the scroll into the
      target through the bulk batcher, clear the scroll, then copy the
      aliases. */
  method TransferIndex(cluster: TargetCluster, name: string, src: SourceIndex,
                       includeSettings: bool, includeMappings: bool, includeAliases: bool)
    returns (cleared: Option<string>, applied: seq<string>, failed: Option<string>)
    modifies cluster
    ensures cluster.createRequests == old(cluster.createRequests) + (if includeSettings || includeMappings then [name] else [])
    ensures cluster.bulkRequests == old(cluster.bulkRequests) + HandledRequests(name, AsWritten(src.first, src.pages).handled)
    ensures cluster.aliasPuts == old(cluster.aliasPuts) + RequestsOf(TransferRequests(name, TransferredAliases(src, includeAliases)), applied)
    ensures failed.None? ==> forall a | a in TransferredAliases(src, includeAliases) :: a in applied
    ensures failed.Some? ==>
      failed.value in TransferredAliases(src, includeAliases) && failed.value !in applied && (name, failed.value) in cluster.rejectedAliases
    ensures cleared == AsWritten(src.first, src.pages).finalScrollId
    ensures cluster.indices == old(cluster.indices) + (if TransferTouches(src, includeSettings, includeMappings) then {name} else {})
  {
    if includeSettings || includeMappings {
      var created := cluster.CreateIndex(name);
    }
    var scrollCalls;
    scrollCalls, cleared := DrainToCluster(cluster, name, src.first, src.pages);
    applied, failed := [], None;
    if includeAliases && src.aliases.Some? && |src.aliases.value| > 0 {
      applied, failed := TransferAliases(cluster, name, src.aliases.value);
    }
  }

  /** Exporting an index and importing the record with `importSingleIndex`
      sends the target exactly the exported documents, in order, and
      re-creates every alias with its routing and write flag but without its
      filter. */
  lemma ExportThenImportSingle(engine: ClusterType, name: string, src: SourceIndex,
                               includeSettings: bool, includeMappings: bool, includeAliases: bool)
    ensures var rec := ExportRecord(engine, name, src, includeSettings, includeMappings, includeAliases);
      RequestDocs(Requests(name, Batches(RecordDocs(rec), MaxBulkSizeBytes, MaxBulkDocCount)))
        == ExportedDocs(engine, ExportedDocuments(src.first, src.pages))
    ensures var rec := ExportRecord(engine, name, src, includeSettings, includeMappings, includeAliases);
      ImportRequests(name, RecordAliases(rec))
        == map a | a in TransferredAliases(src, includeAliases) :: Some(TransferRequest(name, a, TransferredAliases(src, includeAliases)[a]).(filter := None))
  {
    var rec := ExportRecord(engine, name, src, includeSettings, includeMappings, includeAliases);
    RequestDocsOfRequests(name, Batches(RecordDocs(rec), MaxBulkSizeBytes, MaxBulkDocCount));
    CutConcat(RecordDocs(rec), [], MaxBulkSizeBytes, MaxBulkDocCount);
    if includeAliases && HasAliases(src) {
      ExportedAliasesReimport(engine, name, src.aliases.value);
    }
  }

  /** For an OpenSearch source the direct transfer and an export followed by
      an import send the same documents in the same order. */
  lemma TransferMatchesExportImport(name: string, src: SourceIndex,
                                    includeSettings: bool, includeMappings: bool, includeAliases: bool)
    ensures var rec := ExportRecord(OpenSearch, name, src, includeSettings, includeMappings, includeAliases);
      RequestDocs(HandledRequests(name, AsWritten(src.first, src.pages).handled))
        == RequestDocs(Requests(name, Batches(RecordDocs(rec), MaxBulkSizeBytes, MaxBulkDocCount)))
  {
    TransferMatchesExport(name, src.first, src.pages);
    ExportThenImportSingle(OpenSearch, name, src, includeSettings, includeMappings, includeAliases);
    var docs := ExportedDocuments(src.first, src.pages);
    assert ExportedDocs(OpenSearch, docs) == docs;
  }

  /** A record exported from an index is created again by `importFromFile`
      exactly when the direct transfer would create it: when settings or
      mappings were asked for. */
  lemma FileImportCreatesLikeTransfer(engine: ClusterType, name: string, src: SourceIndex,
                                      includeSettings: bool, includeMappings: bool, includeAliases: bool)
    ensures CreatesFromFile(ExportRecord(engine, name, src, includeSettings, includeMappings, includeAliases))
      <==> includeSettings || includeMappings
  {
  }

  /** The create requests `transferBetweenClusters` sends for the indices it
      processed: each index once when settings or mappings are copied, and
      none otherwise. */
  function TransferCreates(indices: seq<string>, includeSettings: bool, includeMappings: bool): (r: seq<string>)
    ensures |r| == (if includeSettings || includeMappings then |indices| else 0)
    ensures forall i | 0 <= i < |r| :: r[i] == indices[i]
  {
    if includeSettings || includeMappings then indices else []
  }

  /** The indices `transferBetweenClusters` leaves on the target besides
      those it had, for the indices it processed. */
  function TransferIndices(source: map<string, SourceIndex>, indices: seq<string>,
                           includeSettings: bool, includeMappings: bool): set<string>
    requires forall i | 0 <= i < |indices| :: indices[i] in source
  {
    if indices == [] then {}
    else
      var last := indices[|indices| - 1];
      TransferIndices(source, indices[..|indices| - 1], includeSettings, includeMappings)
        + (if TransferTouches(source[last], includeSettings, includeMappings) then {last} else {})
  }

  /** A name is left on the target by the transfer exactly when it was
      processed and is created or receives documents. */
  lemma {:induction false} TransferIndicesIff(source: map<string, SourceIndex>, indices: seq<string>,
                                              includeSettings: bool, includeMappings: bool, name: string)
    requires forall i | 0 <= i < |indices| :: indices[i] in source
    ensures name in TransferIndices(source, indices, includeSettings, includeMappings)
      <==> exists i | 0 <= i < |indices| :: indices[i] == name && TransferTouches(source[name], includeSettings, includeMappings)
  {
    if indices != [] {
      var n := |indices| - 1;
      TransferIndicesIff(source, indices[..n], includeSettings, includeMappings, name);
      if name in TransferIndices(source, indices, includeSettings, includeMappings)
         && name !in TransferIndices(source, indices[..n], includeSettings, includeMappings) {
        assert indices[n] == name;
      }
      if exists i | 0 <= i < |indices| :: indices[i] == name && TransferTouches(source[name], includeSettings, includeMappings) {
        var i :| 0 <= i < |indices| && indices[i] == name && TransferTouches(source[name], includeSettings, includeMappings);
        if i < n {
          assert indices[..n][i] == indices[i];
        }
      }
    }
  }

  /** The bulk requests `transferBetweenClusters` sends for the indices it processed. */
  function TransferBulk(source: map<string, SourceIndex>, indices: seq<string>): seq<BulkRequest>
    requires forall i | 0 <= i < |indices| :: indices[i] in source
  {
    if indices == [] then []
    else
      var last := indices[|indices| - 1];
      TransferBulk(source, indices[..|indices| - 1]) + HandledRequests(last, AsWritten(source[last].first, source[last].pages).handled)
  }

  lemma TransferSnoc(source: map<string, SourceIndex>, indices: seq<string>, done: nat,
                     includeSettings: bool, includeMappings: bool)
    requires done < |indices| && forall i | 0 <= i <= done :: indices[i] in source
    ensures var name := indices[done];
      TransferCreates(indices[..done + 1], includeSettings, includeMappings)
        == TransferCreates(indices[..done], includeSettings, includeMappings) + (if includeSettings || includeMappings then [name] else [])
    ensures var name := indices[done];
      TransferBulk(source, indices[..done + 1])
        == TransferBulk(source, indices[..done]) + HandledRequests(name, AsWritten(source[name].first, source[name].pages).handled)
    ensures var name := indices[done];
      TransferIndices(source, indices[..done + 1], includeSettings, includeMappings)
        == TransferIndices(source, indices[..done], includeSettings, includeMappings)
          + (if TransferTouches(source[name], includeSettings, includeMappings) then {name} else {})
  {
    var front := indices[..done + 1];
    assert front[..done] == indices[..done];
    assert front == indices[..done] + [indices[done]];
  }

  /** One pass of the `transferBetweenClusters` loop, stated against the
      requests sent for the indices before it. */
  method TransferStep(cluster: TargetCluster, source: map<string, SourceIndex>, indices: seq<string>, done: nat,
                      includeSettings: bool, includeMappings: bool, includeAliases: bool,
                      ghost creates0: seq<string>, ghost bulk0: seq<BulkRequest>, ghost puts0: seq<PutAlias>,
                      ghost indices0: set<string>)
    requires done < |indices| && forall i | 0 <= i <= done :: indices[i] in source
    requires cluster.indices == indices0 + TransferIndices(source, indices[..done], includeSettings, includeMappings)
    requires cluster.createRequests == creates0 + TransferCreates(indices[..done], includeSettings, includeMappings)
    requires cluster.bulkRequests == bulk0 + TransferBulk(source, indices[..done])
    requires |cluster.aliasPuts| >= |puts0| && cluster.aliasPuts[..|puts0|] == puts0
    modifies cluster
    ensures cluster.createRequests == creates0 + TransferCreates(indices[..done + 1], includeSettings, includeMappings)
    ensures cluster.bulkRequests == bulk0 + TransferBulk(source, indices[..done + 1])
    ensures cluster.indices == indices0 + TransferIndices(source, indices[..done + 1], includeSettings, includeMappings)
    ensures |cluster.aliasPuts| >= |puts0| && cluster.aliasPuts[..|puts0|] == puts0
  {
    var name := indices[done];
    ghost var puts := cluster.aliasPuts;
    ghost var creates := cluster.createRequests;
    ghost var bulk := cluster.bulkRequests;
    var cleared, applied, failed := TransferIndex(cluster, name, source[name], includeSettings, includeMappings, includeAliases);
    assert cluster.aliasPuts[..|puts|] == puts;
    assert cluster.aliasPuts[..|puts0|] == puts[..|puts0|];
    TransferSnoc(source, indices, done, includeSettings, includeMappings);
    AppendAssoc(creates0, TransferCreates(indices[..done], includeSettings, includeMappings), if includeSettings || includeMappings then [name] else []);
    AppendAssoc(bulk0, TransferBulk(source, indices[..done]), HandledRequests(name, AsWritten(source[name].first, source[name].pages).handled));
  }

  /** `transferBetweenClusters`: the indices in order. The first index the
      source cluster does not have ends the transfer with "Transfer failed: "
      and the client's message for it (`missing`); what was written for the
      indices before it stays. Returns the number of indices transferred. */
  method TransferBetweenClusters(cluster: TargetCluster, source: map<string, SourceIndex>, indices: seq<string>,
                                 includeSettings: bool, includeMappings: bool, includeAliases: bool,
                                 missing: string -> string)
    returns (r: Result<(), string>, done: nat)
    modifies cluster
    ensures done <= |indices| && forall i | 0 <= i < done :: indices[i] in source
    ensures r.Ok? <==> done == |indices|
    ensures r.Err? ==> FirstMissing(source, indices, done) && r.error == "Transfer failed: " + missing(indices[done])
    ensures cluster.createRequests == old(cluster.createRequests) + TransferCreates(indices[..done], includeSettings, includeMappings)
    ensures cluster.bulkRequests == old(cluster.bulkRequests) + TransferBulk(source, indices[..done])
    ensures cluster.indices == old(cluster.indices) + TransferIndices(source, indices[..done], includeSettings, includeMappings)
    ensures |cluster.aliasPuts| >= |old(cluster.aliasPuts)| && cluster.aliasPuts[..|old(cluster.aliasPuts)|] == old(cluster.aliasPuts)
  {
    done := 0;
    while done < |indices|
      invariant done <= |indices| && forall i | 0 <= i < done :: indices[i] in source
      invariant cluster.createRequests == old(cluster.createRequests) + TransferCreates(indices[..done], includeSettings, includeMappings)
      invariant cluster.bulkRequests == old(cluster.bulkRequests) + TransferBulk(source, indices[..done])
      invariant cluster.indices == old(cluster.indices) + TransferIndices(source, indices[..done], includeSettings, includeMappings)
      invariant |cluster.aliasPuts| >= |old(cluster.aliasPuts)| && cluster.aliasPuts[..|old(cluster.aliasPuts)|] == old(cluster.aliasPuts)
    {
      if indices[done] !in source {
        return Err("Transfer failed: " + missing(indices[done])), done;
      }
      TransferStep(cluster, source, indices, done, includeSettings, includeMappings, includeAliases,
        old(cluster.createRequests), old(cluster.bulkRequests), old(cluster.aliasPuts), old(cluster.indices));
      done := done + 1;
    }
    r := Ok(());
  }
}
