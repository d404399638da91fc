# es-os-data-manager: a verified model of the transfer core

This project models the data-moving core of es-os-data-manager. That is a
Spring application that copies indices between Elasticsearch and
OpenSearch clusters, exports them to files and imports them back.

The cluster is abstracted to two things. On the reading side, it is a
scroll cursor: a first page plus the answers to successive scroll calls.
On the writing side, it is a `TargetCluster` object. That object records
every create-index, bulk and put-alias request it accepts, and it rejects
the alias puts it is told to reject.

The two service classes are near-identical, so their shared logic is
modelled once. A `ClusterType` parameter carries their three divergences:
- the `is_hidden` alias key, which only Elasticsearch exports;
- the `clusterType` tag of an exported record;
- `luceneVersion` in the cluster info, which only Elasticsearch sets.

The OpenSearch service also records a null `_source` as it is, where the
Elasticsearch service turns it into `{}`.

Modules (one per file):
- `Util`: Option/Result, decimal rendering and `Long.parseLong`, ASCII case
  mapping, Java `trim`, `contains`, `endsWith`, `replace`.
- `ClusterConfigs`, `ClusterConfigEntities`, `IndexInfos`, `ProgressInfos`,
  `TransferOperations`: the value classes of the common model and the entity.
- `TargetClusters`: documents, bulk and put-alias requests, and the target
  cluster as a class whose request logs its methods extend.
- `BulkBatching`: the size- and count-bounded batcher of `processScrollHits`
  and `bulkImportDocuments`.
- `ScrollDrain`: the scroll loop of `exportSingleIndex`, `exportToFile` and
  `transferBetweenClusters`, as written and as intended.
- `Aliases`: alias export, `importAliases` and the transfer's alias copy.
- `IndexTransfer`: exporting, importing and transferring whole indices.
- `ClusterServices`: `getClusterInfo`, `listIndices` and `searchDocuments`.
- `DataTransfers`: `DataTransferService`, covering the operation registry,
  `executeTransfer`, its progress events, cancel and clear.
- `Controllers`: the controller's validation, error rewriting, progress board,
  SSE emitters and the export and import endpoints.

Abbreviations used in the table below:
- `ES` = data-manager-server/src/main/java/com/datamanager/server/service/ElasticsearchService.java
- `OS` = data-manager-server/src/main/java/com/datamanager/server/service/OpenSearchService.java
- `DTS` = data-manager-server/src/main/java/com/datamanager/server/service/DataTransferService.java
- `DMC` = data-manager-server/src/main/java/com/datamanager/server/controller/DataManagerController.java

In the table itself every source path is written out in full.

Three points about the code that the model follows as written:
- `batchSize` only sets the scroll page size (ES:181, 351, 785). Bulk
  requests are cut by the fixed `MAX_BULK_DOC_COUNT` (500) and
  `MAX_BULK_SIZE_BYTES` (5 MiB) limits (ES:39-40, 453, 674).
- The scroll loop hands back the first page on every pass (ES:790-823),
  not each page once; see "## Findings".
- `executeTransfer` sets COMPLETED without looking at the current status
  (DTS:62), so a status is not guaranteed to move only forward.

## Model

| member | source | states |
|---|---|---|
| ClusterConfigs.ClusterType.Name | data-manager-common/src/main/java/com/datamanager/common/model/ClusterConfig.java:35-37 | the constant name is "ELASTICSEARCH" exactly for Elasticsearch, otherwise "OPENSEARCH" |
| ClusterConfigs.ClusterType.DisplayName | data-manager-common/src/main/java/com/datamanager/common/model/ClusterConfig.java:35-47 | display names "Elasticsearch" and "OpenSearch" |
| ClusterConfigs.DisplayNamesDistinct | data-manager-common/src/main/java/com/datamanager/common/model/ClusterConfig.java:35-47 | two engines share a display name, or a constant name, only when they are the same engine |
| ClusterConfigs.BuilderDefault | data-manager-common/src/main/java/com/datamanager/common/model/ClusterConfig.java:30-33 | the builder gives 30000 ms for both timeouts, port 0, no SSL and null references |
| ClusterConfigs.FormatNullable | data-manager-common/src/main/java/com/datamanager/common/model/ClusterConfig.java:52 | `%s` prints the string itself, or "null" for a null string |
| ClusterConfigs.Protocol | data-manager-common/src/main/java/com/datamanager/common/model/ClusterConfig.java:51 | "https" exactly when `useSSL`, else "http" |
| ClusterConfigs.ConnectionStringShape | data-manager-common/src/main/java/com/datamanager/common/model/ClusterConfig.java:50-53 | the string starts with "https://" exactly when `useSSL` (else "http://"), then the host, and ends with ":" and the decimal port |
| ClusterConfigs.ToString | data-manager-common/src/main/java/com/datamanager/common/model/ClusterConfig.java:55-58 | defined exactly when the type is non-null; the name, then " (", the display name and ")": it starts with the name, ends with " (DisplayName)" and has exactly their combined length |
| ClusterConfigEntities.EntityBuilderDefault | data-manager-server/src/main/java/com/datamanager/server/entity/ClusterConfigEntity.java:43-49 | the entity builder defaults both timeouts to 30000 and leaves everything else null, 0 or false |
| ClusterConfigEntities.ToClusterConfig | data-manager-server/src/main/java/com/datamanager/server/entity/ClusterConfigEntity.java:51-65 | all eleven fields are copied unchanged |
| ClusterConfigEntities.FromClusterConfig | data-manager-server/src/main/java/com/datamanager/server/entity/ClusterConfigEntity.java:67-81 | all eleven fields are copied unchanged |
| ClusterConfigEntities.ConfigRoundTrip | data-manager-server/src/main/java/com/datamanager/server/entity/ClusterConfigEntity.java:51-81 | storing a configuration and loading it back gives the same configuration |
| ClusterConfigEntities.EntityRoundTrip | data-manager-server/src/main/java/com/datamanager/server/entity/ClusterConfigEntity.java:51-81 | loading an entity and storing it back gives the same entity |
| ClusterConfigEntities.DefaultsCorrespond | data-manager-server/src/main/java/com/datamanager/server/entity/ClusterConfigEntity.java:43-49 | the default entity converts to the default configuration |
| IndexInfos.HealthStyleCases | data-manager-common/src/main/java/com/datamanager/common/model/IndexInfo.java:30-38 | null health gives gray; "green", "yellow" and "red" (after lower-casing) give their colours; every other value gives gray |
| IndexInfos.HealthStyleCaseInsensitive | data-manager-common/src/main/java/com/datamanager/common/model/IndexInfo.java:32 | the style depends on the health only through its lower-cased spelling |
| IndexInfos.UpperGreenIsGreen | data-manager-common/src/main/java/com/datamanager/common/model/IndexInfo.java:32-33 | "GREEN" gets the green style |
| IndexInfos.DropCommasAppend | data-manager-common/src/main/java/com/datamanager/common/model/IndexInfo.java:42 | removing separators distributes over concatenation |
| IndexInfos.DropCommasOfDigits | data-manager-common/src/main/java/com/datamanager/common/model/IndexInfo.java:42 | a digit string has no separators to remove |
| IndexInfos.GroupDigitsDropCommas | data-manager-common/src/main/java/com/datamanager/common/model/IndexInfo.java:42 | grouping digits only inserts separators |
| IndexInfos.GroupedIntDigits | data-manager-common/src/main/java/com/datamanager/common/model/IndexInfo.java:42 | `%,d` is the plain decimal rendering with separators inserted |
| IndexInfos.ToString | data-manager-common/src/main/java/com/datamanager/common/model/IndexInfo.java:40-43 | "name (Docs: " then the count as `%,d` (its decimal rendering once the separators are removed) then ", Size: size)" |
| ProgressInfos.Event | data-manager-common/src/main/java/com/datamanager/common/model/ProgressInfo.java:13-25 | a builder with id, status and message leaves every counter and time at 0 and `currentIndex` null |
| ProgressInfos.Of | data-manager-common/src/main/java/com/datamanager/common/model/ProgressInfo.java:27-34 | `of` copies id, status, message and the unclamped percentage; every other field is 0 or null |
| TransferOperations.StatusNamesDistinct | data-manager-common/src/main/java/com/datamanager/common/model/TransferOperation.java:64-87 | each status has its own constant name, display name and colour |
| TransferOperations.ZeroPadValue | data-manager-common/src/main/java/com/datamanager/common/model/TransferOperation.java:23 | a zero-padded field reads back as its value |
| TransferOperations.PadExact | data-manager-common/src/main/java/com/datamanager/common/model/TransferOperation.java:23 | a value below 10^w pads to exactly w chars |
| TransferOperations.Format | data-manager-common/src/main/java/com/datamanager/common/model/TransferOperation.java:23 | "yyyy-MM-dd HH:mm:ss" is 19 chars with its separators at fixed places |
| TransferOperations.FormatFields | data-manager-common/src/main/java/com/datamanager/common/model/TransferOperation.java:23 | the six digit fields of the formatted time read back as year, month, day, hour, minute and second |
| TransferOperations.BuilderDefault | data-manager-common/src/main/java/com/datamanager/common/model/TransferOperation.java:31-46 | status PENDING, batch size 1000, all three include flags true, counters 0, no id or times |
| TransferOperations.ProgressBounds | data-manager-common/src/main/java/com/datamanager/common/model/TransferOperation.java:89-92 | 0 for an empty total; within 0..100 while processed ≤ total; 100 exactly when all are processed |
| TransferOperations.FormattedTime | data-manager-common/src/main/java/com/datamanager/common/model/TransferOperation.java:94-100 | "-" exactly for a null timestamp |
| TransferOperations.Duration | data-manager-common/src/main/java/com/datamanager/common/model/TransferOperation.java:102-109 | "-" exactly when there is no start time |
| TransferOperations.DurationTextShape | data-manager-common/src/main/java/com/datamanager/common/model/TransferOperation.java:105-108 | below a minute "Ns"; below an hour "Mm Ss" with S < 60; from an hour "Hh Mm" with M < 60 |
| TransferOperations.DurationDropsSeconds | data-manager-common/src/main/java/com/datamanager/common/model/TransferOperation.java:108 | from an hour on, spans in the same minute print alike |
| TargetClusters.TargetCluster.Exists | data-manager-server/src/main/java/com/datamanager/server/service/ElasticsearchService.java:855 | true exactly for an index the cluster has |
| TargetClusters.TargetCluster.CreateIndex | data-manager-server/src/main/java/com/datamanager/server/service/ElasticsearchService.java:485 | the request carries only the name; it succeeds exactly when the index is new |
| TargetClusters.TargetCluster.Bulk | data-manager-server/src/main/java/com/datamanager/server/service/ElasticsearchService.java:455 | one bulk request is logged; indexing creates a missing index |
| TargetClusters.TargetCluster.PutAliasRequest | data-manager-server/src/main/java/com/datamanager/server/service/ElasticsearchService.java:401-416 | accepted exactly when the cluster does not reject that (index, alias) pair; only an accepted put is logged |
| BulkBatching.CutConcat | data-manager-server/src/main/java/com/datamanager/server/service/ElasticsearchService.java:444-474 | the batches sent after a pending batch, concatenated, are the pending batch followed by the rest of the input |
| BulkBatching.CutWithinLimits | data-manager-server/src/main/java/com/datamanager/server/service/ElasticsearchService.java:452-466 | each batch holds 1 to maxCount documents and keeps within maxBytes unless it is a single document |
| BulkBatching.CutHead | data-manager-server/src/main/java/com/datamanager/server/service/ElasticsearchService.java:452-463 | a pending batch is the start of the first batch sent |
| BulkBatching.CutGreedy | data-manager-server/src/main/java/com/datamanager/server/service/ElasticsearchService.java:452-453 | every batch but the last was closed only because the next document failed the flush test |
| BulkBatching.CutEmpty | data-manager-server/src/main/java/com/datamanager/server/service/ElasticsearchService.java:469-474 | nothing is sent exactly when there is nothing pending and nothing left |
| BulkBatching.BatchesSpec | data-manager-server/src/main/java/com/datamanager/server/service/ElasticsearchService.java:440-475 | the batches, concatenated, are the input; each is within the limits; each but the last was forced by the next document; empty input sends nothing |
| BulkBatching.ServiceBatchesSpec | data-manager-server/src/main/java/com/datamanager/server/service/ElasticsearchService.java:39-40 | with the services' constants: 1 to 500 documents, and at most 5 MiB for any batch of two or more |
| BulkBatching.OversizeAlone | data-manager-server/src/main/java/com/datamanager/server/service/ElasticsearchService.java:452-453 | a document above the byte limit is sent, in a batch of its own |
| BulkBatching.ElementWithinBytes | data-manager-server/src/main/java/com/datamanager/server/service/ElasticsearchService.java:452-466 | no single document of a batch exceeds the batch's byte sum |
| BulkBatching.Requests | data-manager-server/src/main/java/com/datamanager/server/service/ElasticsearchService.java:455-470 | one bulk request per batch |
| BulkBatching.RequestsAppend | data-manager-server/src/main/java/com/datamanager/server/service/ElasticsearchService.java:455-470 | the requests for two runs of batches are the requests of each, in order |
| BulkBatching.BulkIndex | data-manager-server/src/main/java/com/datamanager/server/service/ElasticsearchService.java:660-690 | the loop sends exactly `Batches(docs)`, in order, and changes nothing else on the cluster |
| ScrollDrain.DrainFromCalls | data-manager-server/src/main/java/com/datamanager/server/service/ElasticsearchService.java:790-823 | from scroll call j, the loop keeps scrolling while answers have hits and an id, and stops at the first answer without |
| ScrollDrain.DrainFromDocuments | data-manager-server/src/main/java/com/datamanager/server/service/ElasticsearchService.java:790-823 | every pass handles the first page's hits again, followed by that pass's answer |
| ScrollDrain.DrainSpec | data-manager-server/src/main/java/com/datamanager/server/service/ElasticsearchService.java:783-828 | the stop conditions; the export is pass 0 + … + pass K-1, each pass being the first page again plus its answer; the final `scrollId` is null exactly when the last answer had hits but no id |
| ScrollDrain.ScrollCallsBound | data-manager-server/src/main/java/com/datamanager/server/service/ElasticsearchService.java:799-808 | the loop makes at most one scroll call past the cursor's last page |
| ScrollDrain.DrainToDocuments | data-manager-server/src/main/java/com/datamanager/server/service/ElasticsearchService.java:779-828 | the `while` loop collects exactly the as-written documents, scrolls with the first page's id every time, and ends with the `scrollId` the caller clears |
| ScrollDrain.HandledRequestDocs | data-manager-server/src/main/java/com/datamanager/server/service/ElasticsearchService.java:356-384 | the bulk requests for the handled hit lists carry exactly those hits, in order |
| ScrollDrain.TransferMatchesExport | data-manager-server/src/main/java/com/datamanager/server/service/ElasticsearchService.java:346-389 | a transfer sends the documents an export of the same cursor collects, repeats included |
| ScrollDrain.SendHandled | data-manager-server/src/main/java/com/datamanager/server/service/ElasticsearchService.java:360 | one `processScrollHits` call appends that hit list's batches; the index exists on the target afterwards exactly when it did before or the hit list is non-empty |
| ScrollDrain.DrainToCluster | data-manager-server/src/main/java/com/datamanager/server/service/ElasticsearchService.java:346-389 | the transfer loop sends the batches of every handled hit list, in order; scroll ids and the cleared id are as in the export; the index is added to the target exactly when the first page has hits |
| ScrollDrain.DrainCorrected | data-manager-server/src/main/java/com/datamanager/server/service/ElasticsearchService.java:790-823 | the loop with `searchResponse` replaced by each answer collects `Corrected` |
| ScrollDrain.HitLists | data-manager-server/src/main/java/com/datamanager/server/service/ElasticsearchService.java:791-816 | the hit list of each page, position by position |
| ScrollDrain.CorrectedFromPrefix | data-manager-server/src/main/java/com/datamanager/server/service/ElasticsearchService.java:790-823 | the intended loop from any point collects the current page followed by a prefix of the remaining answers |
| ScrollDrain.CorrectedCollectsPrefix | data-manager-server/src/main/java/com/datamanager/server/service/ElasticsearchService.java:790-823 | the intended loop collects the first page followed by a prefix of the answers, each once |
| ScrollDrain.CorrectedNoDuplicates | data-manager-server/src/main/java/com/datamanager/server/service/ElasticsearchService.java:790-823 | when the cursor serves no id twice, the intended loop exports no id twice |
| ScrollDrain.AsWrittenRepeatsFirstPage | data-manager-server/src/main/java/com/datamanager/server/service/ElasticsearchService.java:790-823 | after a second page with an id, the loop as written collects the first page's hits again |
| ScrollDrain.DuplicateExample | data-manager-server/src/main/java/com/datamanager/server/service/ElasticsearchService.java:790-823 | first page [a] with id "s" and one answer [b] with id "s": exports a, b, a; the intended loop exports a, b |
| Aliases.ExportAliasDef | data-manager-server/src/main/java/com/datamanager/server/service/ElasticsearchService.java:152-168 | each alias part is recorded under its key exactly when present; `is_hidden` only for Elasticsearch |
| Aliases.ExportEnginesDiffer | data-manager-server/src/main/java/com/datamanager/server/service/OpenSearchService.java:151-165 | the OpenSearch record is the Elasticsearch one without `is_hidden` |
| Aliases.ExportAliasMap | data-manager-server/src/main/java/com/datamanager/server/service/ElasticsearchService.java:150-169 | every alias is recorded under its own name |
| Aliases.ExportAliases | data-manager-server/src/main/java/com/datamanager/server/service/ElasticsearchService.java:150-170 | the `forEach` builds exactly the alias map, whatever order it visits the aliases in |
| Aliases.ImportRequest | data-manager-server/src/main/java/com/datamanager/server/service/ElasticsearchService.java:703-717 | the put carries the index, the name and the three routing/write fields when present, never a filter; it cannot be built when a value has the wrong type |
| Aliases.ExportThenImport | data-manager-server/src/main/java/com/datamanager/server/service/ElasticsearchService.java:705-717 | importing an exported alias gives back its routings and write flag and loses its filter and `is_hidden` |
| Aliases.ImportRequests | data-manager-server/src/main/java/com/datamanager/server/service/ElasticsearchService.java:705-717 | one request (or none) for each alias of the record |
| Aliases.ExportedAliasesReimport | data-manager-server/src/main/java/com/datamanager/server/service/ElasticsearchService.java:401-415 | re-importing an exported alias map builds, for every alias, the transfer's request without its filter |
| Aliases.TransferRequests | data-manager-server/src/main/java/com/datamanager/server/service/ElasticsearchService.java:397-418 | one request for each alias of the source index |
| Aliases.TransferKeepsFilter | data-manager-server/src/main/java/com/datamanager/server/service/ElasticsearchService.java:401-415 | the transfer keeps the filter; export-then-import builds the same request without it |
| Aliases.RequestsOf | data-manager-server/src/main/java/com/datamanager/server/service/ElasticsearchService.java:705-721 | the built requests for the given names, in order |
| Aliases.PutAliases | data-manager-server/src/main/java/com/datamanager/server/service/ElasticsearchService.java:699-725 | puts in some order until the first failure, which abandons the rest and is swallowed; the applied names are distinct and accepted, and all are applied when none fails |
| Aliases.ImportAliases | data-manager-server/src/main/java/com/datamanager/server/service/ElasticsearchService.java:699-725 | `importAliases` puts the import requests under the same rule |
| Aliases.TransferAliases | data-manager-server/src/main/java/com/datamanager/server/service/ElasticsearchService.java:391-422 | the transfer's alias block puts the transfer requests under the same rule |
| IndexTransfer.ExportedDoc | data-manager-server/src/main/java/com/datamanager/server/service/ElasticsearchService.java:794 | the id is kept; Elasticsearch records a null source as `{}`, OpenSearch keeps the hit as it is |
| IndexTransfer.ExportedDocs | data-manager-server/src/main/java/com/datamanager/server/service/ElasticsearchService.java:791-816 | each document is exported in place |
| IndexTransfer.ExportIndexData | data-manager-server/src/main/java/com/datamanager/server/service/ElasticsearchService.java:131-230 | the record has settings and mappings exactly when asked for, aliases only when asked for and non-empty, the drained documents and `documentCount` = their number; the scroll cleared is the final one |
| IndexTransfer.ExportSingleIndex | data-manager-server/src/main/java/com/datamanager/server/service/ElasticsearchService.java:727-842 | that record plus `exportDate` and the engine's `clusterType`; an index the source lacks fails the call with "Export failed: " and the client's message, clearing no scroll |
| IndexTransfer.ClearedIdsSnoc | data-manager-server/src/main/java/com/datamanager/server/service/ElasticsearchService.java:221-224 | the ids cleared grow by the id the next index clears, if any |
| IndexTransfer.ExportToFile | data-manager-server/src/main/java/com/datamanager/server/service/ElasticsearchService.java:118-247 | one record per index in request order, with the date, and exactly the non-null final scroll ids cleared; otherwise the first missing index fails the export with "Export failed: " and the client's message, after the scrolls of the indices before it were cleared |
| IndexTransfer.ImportContents | data-manager-server/src/main/java/com/datamanager/server/service/ElasticsearchService.java:870-880 | the documents go out in the batcher's batches (nothing for none), then the aliases under the `importAliases` rule |
| IndexTransfer.ImportSingleIndex | data-manager-server/src/main/java/com/datamanager/server/service/ElasticsearchService.java:845-890 | create is requested exactly when the index does not exist; documents and aliases follow either way |
| IndexTransfer.ImportRecordFromFile | data-manager-server/src/main/java/com/datamanager/server/service/ElasticsearchService.java:267-294 | create is requested exactly when the record has settings or mappings; a failure is only logged; then documents and aliases; the record's index is added to the target exactly when it is created or receives documents |
| IndexTransfer.FileStep | data-manager-server/src/main/java/com/datamanager/server/service/ElasticsearchService.java:267-294 | how the request logs grow by one record |
| IndexTransfer.ImportFileStep | data-manager-server/src/main/java/com/datamanager/server/service/ElasticsearchService.java:267-294 | one pass of the loop extends the three request logs by that record's requests and the target's indices by that record's index when it touches the target |
| IndexTransfer.ImportFromFile | data-manager-server/src/main/java/com/datamanager/server/service/ElasticsearchService.java:251-305 | every record in order: its create (when it has settings or mappings), its batches and its alias puts; the target gains exactly `FileIndices(records)` |
| IndexTransfer.FileCreatesIff | data-manager-server/src/main/java/com/datamanager/server/service/ElasticsearchService.java:274-280 | a name is created exactly when some record of that name has settings or mappings |
| IndexTransfer.FileIndicesIff | data-manager-server/src/main/java/com/datamanager/server/service/ElasticsearchService.java:267-294 | a name is added to the target exactly when some record of that name has settings, mappings or documents |
| IndexTransfer.RecordDocLists | data-manager-server/src/main/java/com/datamanager/server/service/ElasticsearchService.java:282-285 | the documents of each record, one list per record |
| IndexTransfer.FileBulkDocs | data-manager-server/src/main/java/com/datamanager/server/service/ElasticsearchService.java:282-285 | the import sends exactly the records' documents, in order |
| IndexTransfer.TransferIndex | data-manager-server/src/main/java/com/datamanager/server/service/ElasticsearchService.java:321-423 | create when settings or mappings are asked for, the drained hits through the batcher, the final scroll cleared, then the aliases under the alias rule; the index is added to the target exactly when a create is asked for or the first page has hits |
| IndexTransfer.ExportThenImportSingle | data-manager-server/src/main/java/com/datamanager/server/service/ElasticsearchService.java:845-880 | importing an exported record sends exactly the exported documents and re-creates every alias without its filter |
| IndexTransfer.TransferMatchesExportImport | data-manager-server/src/main/java/com/datamanager/server/service/OpenSearchService.java:304-429 | for an OpenSearch source, the direct transfer and export-then-import send the same documents in the same order |
| IndexTransfer.FileImportCreatesLikeTransfer | data-manager-server/src/main/java/com/datamanager/server/service/ElasticsearchService.java:274-280 | an exported record is created again by the file import exactly when settings or mappings were exported |
| IndexTransfer.TransferSnoc | data-manager-server/src/main/java/com/datamanager/server/service/ElasticsearchService.java:321-423 | the transfer's request logs grow by one index's requests |
| IndexTransfer.TransferStep | data-manager-server/src/main/java/com/datamanager/server/service/ElasticsearchService.java:321-423 | one pass of the loop extends the create and bulk logs by that index's requests, adds that index to the target when it touches it, and keeps earlier alias puts |
| IndexTransfer.TransferBetweenClusters | data-manager-server/src/main/java/com/datamanager/server/service/ElasticsearchService.java:308-435 | indices in order; the first one the source lacks ends the transfer with "Transfer failed: " and the client's message, keeping what was written before; the target gains exactly `TransferIndices` of the processed indices |
| IndexTransfer.TransferIndicesIff | data-manager-server/src/main/java/com/datamanager/server/service/ElasticsearchService.java:321-423 | a name is added to the target exactly when it was processed and a create is asked for or its first page has hits |
| ClusterServices.ClusterInfoOf | data-manager-server/src/main/java/com/datamanager/server/service/ElasticsearchService.java:65-83 | name, uuid and version are copied; the Lucene version is set exactly for Elasticsearch; other fields keep builder defaults |
| ClusterServices.InfoOf | data-manager-server/src/main/java/com/datamanager/server/service/ElasticsearchService.java:95-103 | a null count is 0, a null size "0", a null health "unknown"; a count that does not parse is the error |
| ClusterServices.InfoOfCountRoundTrip | data-manager-server/src/main/java/com/datamanager/server/service/ElasticsearchService.java:98 | a count written in decimal parses back to itself |
| Util.ParseLong | data-manager-server/src/main/java/com/datamanager/server/service/ElasticsearchService.java:98 | `Long.parseLong`: an empty string fails, and a parsed value lies in the 64-bit range |
| Util.ParseLongOfIntToString | data-manager-server/src/main/java/com/datamanager/server/service/ElasticsearchService.java:98 | the decimal rendering of any 64-bit value parses back to that value |
| ClusterServices.NameLeTotal | data-manager-server/src/main/java/com/datamanager/server/service/ElasticsearchService.java:107 | any two names are ordered one way or the other |
| ClusterServices.NameLeTrans | data-manager-server/src/main/java/com/datamanager/server/service/ElasticsearchService.java:107 | the name order is transitive |
| ClusterServices.InsertByName | data-manager-server/src/main/java/com/datamanager/server/service/ElasticsearchService.java:107 | inserting adds exactly one element |
| ClusterServices.InsertByNameSorted | data-manager-server/src/main/java/com/datamanager/server/service/ElasticsearchService.java:107 | inserting into a sorted list keeps it sorted |
| ClusterServices.SortByNameSpec | data-manager-server/src/main/java/com/datamanager/server/service/ElasticsearchService.java:107 | the sort is in name order and a permutation of its input |
| ClusterServices.SortedPairwise | data-manager-server/src/main/java/com/datamanager/server/service/ElasticsearchService.java:107 | in a sorted list any earlier name is ≤ any later name |
| ClusterServices.ListIndices | data-manager-server/src/main/java/com/datamanager/server/service/ElasticsearchService.java:86-115 | fails exactly when some count does not parse, with the first such message; otherwise the mapped records, sorted by name, and a permutation of them |
| ClusterServices.MulInt32 | data-manager-server/src/main/java/com/datamanager/server/service/ElasticsearchService.java:554 | Java `int` multiplication: in range, congruent to the product, and exact when the product fits |
| ClusterServices.OffsetOverflows | data-manager-server/src/main/java/com/datamanager/server/service/ElasticsearchService.java:554 | page 65536 of size 32768 gives a negative offset |
| ClusterServices.SearchRequestFor | data-manager-server/src/main/java/com/datamanager/server/service/ElasticsearchService.java:554-572 | offset `page*size`; match-all exactly for a null or blank query, else the query wrapped in `*` |
| ClusterServices.BlankQueryMatchesAll | data-manager-server/src/main/java/com/datamanager/server/service/ElasticsearchService.java:557 | match-all exactly when the query is null or only trimmable chars |
| ClusterServices.ResultDoc | data-manager-server/src/main/java/com/datamanager/server/service/ElasticsearchService.java:575-581 | id and index kept; Elasticsearch turns a null source into `{}`, OpenSearch does not |
| ClusterServices.SearchDocuments | data-manager-server/src/main/java/com/datamanager/server/service/ElasticsearchService.java:547-598 | the request as above; every hit in order; a null total is 0; page and size echoed |
| DataTransfers.StepFailure | data-manager-server/src/main/java/com/datamanager/server/service/DataTransferService.java:124-143 | an export error is wrapped as "Failed to export index data: ", an import error as "Failed to import index data: "; otherwise none |
| DataTransfers.GeneratedId | data-manager-server/src/main/java/com/datamanager/server/service/DataTransferService.java:36 | eight chars: the UUID's first eight, upper-cased |
| DataTransfers.IndexEvents | data-manager-server/src/main/java/com/datamanager/server/service/DataTransferService.java:113-140 | an index whose export succeeds sends two events |
| DataTransfers.PairEvents | data-manager-server/src/main/java/com/datamanager/server/service/DataTransferService.java:113-140 | two events per completed index |
| DataTransfers.PercentAsHalfSteps | data-manager-server/src/main/java/com/datamanager/server/service/DataTransferService.java:120-139 | the export percentage of index c is 2c half-steps of 50/T, the import percentage 2c+1, the whole run 2T |
| DataTransfers.HalfStepsMonotone | data-manager-server/src/main/java/com/datamanager/server/service/DataTransferService.java:120-139 | more half-steps never give a smaller percentage |
| DataTransfers.PairEventsSplit | data-manager-server/src/main/java/com/datamanager/server/service/DataTransferService.java:110-149 | the events of n indices are those of n-1 followed by index n-1's export and import events |
| DataTransfers.PairEventsKeep | data-manager-server/src/main/java/com/datamanager/server/service/DataTransferService.java:110-149 | a later index leaves the earlier events unchanged |
| DataTransfers.EventHalfSteps | data-manager-server/src/main/java/com/datamanager/server/service/DataTransferService.java:120-139 | the export and import events report 2c and 2c+1 half-steps |
| DataTransfers.PairEventsOf | data-manager-server/src/main/java/com/datamanager/server/service/DataTransferService.java:110-149 | index c's events sit at positions 2c and 2c+1 with those percentages |
| DataTransfers.PairEventsAt | data-manager-server/src/main/java/com/datamanager/server/service/DataTransferService.java:110-149 | event i of the per-index events reports i half-steps |
| DataTransfers.SuccessEvents | data-manager-server/src/main/java/com/datamanager/server/service/DataTransferService.java:47-73 | a fully successful run sends 2T+2 events |
| DataTransfers.RunEventAt | data-manager-server/src/main/java/com/datamanager/server/service/DataTransferService.java:47-73 | position p of a successful run reports its half-step count, ending at 2T |
| DataTransfers.RunPercentages | data-manager-server/src/main/java/com/datamanager/server/service/DataTransferService.java:47-140 | start 0, per-index percentages below 100, final 100: the sequence never decreases |
| DataTransfers.DocsSumMonotone | data-manager-server/src/main/java/com/datamanager/server/service/DataTransferService.java:128-146 | the running document total never decreases |
| DataTransfers.LeadingSuccesses | data-manager-server/src/main/java/com/datamanager/server/service/DataTransferService.java:110-149 | the run stops at the first failing step |
| DataTransfers.LeadingSuccessesUnique | data-manager-server/src/main/java/com/datamanager/server/service/DataTransferService.java:110-149 | the number of completed indices is the one d with all earlier steps succeeding and step d failing or absent |
| DataTransfers.LeadingFrom | data-manager-server/src/main/java/com/datamanager/server/service/DataTransferService.java:110-149 | the same from any earlier start |
| DataTransfers.LeadingSucceeds | data-manager-server/src/main/java/com/datamanager/server/service/DataTransferService.java:110-149 | every step before the stop succeeds |
| DataTransfers.FinalOperationOf | data-manager-server/src/main/java/com/datamanager/server/service/DataTransferService.java:40-89 | the registered entry after a run: RUNNING's start time, the final documents, COMPLETED or FAILED with the message, and the end time |
| DataTransfers.SuccessfulRunProgress | data-manager-server/src/main/java/com/datamanager/server/service/DataTransferService.java:47-146 | a successful cluster-to-cluster run's events start at 0, end at 100 and never decrease; its processed count is the sum of exported documents |
| DataTransfers.DataTransferService.constructor | data-manager-server/src/main/java/com/datamanager/server/service/DataTransferService.java:28-30 | an empty registry and no events |
| DataTransfers.DataTransferService.GetOperation | data-manager-server/src/main/java/com/datamanager/server/service/DataTransferService.java:187-189 | the registered operation, or none exactly for an unknown id |
| DataTransfers.DataTransferService.SendProgress | data-manager-server/src/main/java/com/datamanager/server/service/DataTransferService.java:177-185 | delivers the event exactly when there is a callback; the registry is unchanged |
| DataTransfers.DataTransferService.IndexRound | data-manager-server/src/main/java/com/datamanager/server/service/DataTransferService.java:110-149 | one index: its events, its failure if any, and on success `processedDocuments` becomes the running sum |
| DataTransfers.DataTransferService.RunClusterToCluster | data-manager-server/src/main/java/com/datamanager/server/service/DataTransferService.java:92-150 | the indices in order until the first failure; two events per completed index; `processedDocuments` is the sum for the completed ones |
| DataTransfers.DataTransferService.ExecuteTransfer | data-manager-server/src/main/java/com/datamanager/server/service/DataTransferService.java:33-90 | id kept or generated; the registry ends with the final entry; the events are the start event, the per-index events and COMPLETED or FAILED |
| DataTransfers.DataTransferService.Dispatch | data-manager-server/src/main/java/com/datamanager/server/service/DataTransferService.java:56-60 | the switch on the transfer type: the cluster run or the file outcome |
| DataTransfers.DataTransferService.Finish | data-manager-server/src/main/java/com/datamanager/server/service/DataTransferService.java:62-89 | COMPLETED with the end time and the 100% event, or FAILED with the message, the end time and "Transfer failed: " |
| DataTransfers.DataTransferService.CancelOperation | data-manager-server/src/main/java/com/datamanager/server/service/DataTransferService.java:191-197 | only a RUNNING entry changes, to CANCELLED with the end time |
| DataTransfers.DataTransferService.ClearCompletedOperations | data-manager-server/src/main/java/com/datamanager/server/service/DataTransferService.java:203-210 | exactly the COMPLETED, FAILED and CANCELLED entries are removed |
| Controllers.ValidateCluster | data-manager-server/src/main/java/com/datamanager/server/controller/DataManagerController.java:57-68 | each error text exactly when its check is the first to fail; none exactly when all pass |
| Controllers.ValidatedConfigPrintable | data-manager-server/src/main/java/com/datamanager/server/controller/DataManagerController.java:57-68 | a validated configuration prints and its connection string carries its host |
| Controllers.RewriteError | data-manager-server/src/main/java/com/datamanager/server/controller/DataManagerController.java:77-85 | the four markers in order; any other message unchanged; a null message is "Connection failed" |
| Controllers.RefusedNamesEndpoint | data-manager-server/src/main/java/com/datamanager/server/controller/DataManagerController.java:78-79 | a refused connection names the host and ends with ":" and the port |
| Controllers.Survivors | data-manager-server/src/main/java/com/datamanager/server/controller/DataManagerController.java:169-177 | `removeAll` never adds emitters |
| Controllers.SurvivorsMembers | data-manager-server/src/main/java/com/datamanager/server/controller/DataManagerController.java:169-177 | exactly the emitters whose send did not throw survive |
| Controllers.SurvivorsIdempotent | data-manager-server/src/main/java/com/datamanager/server/controller/DataManagerController.java:169-177 | a second broadcast to the same broken emitters removes nothing more |
| Controllers.EntryNameInjective | data-manager-server/src/main/java/com/datamanager/server/controller/DataManagerController.java:318 | two indices share a zip entry name exactly when they are the same index |
| Controllers.WrittenMembers | data-manager-server/src/main/java/com/datamanager/server/controller/DataManagerController.java:318-319 | an entry name is in the archive exactly when an earlier index with that entry exported |
| Controllers.CountOk | data-manager-server/src/main/java/com/datamanager/server/controller/DataManagerController.java:299-328 | the count never exceeds the indices seen |
| Controllers.CountIsEntries | data-manager-server/src/main/java/com/datamanager/server/controller/DataManagerController.java:318-323 | `completed` is the number of entries in the archive |
| Controllers.CountOkAll | data-manager-server/src/main/java/com/datamanager/server/controller/DataManagerController.java:299-328 | the count reaches the number of indices exactly when every export succeeds and no index name repeats (a repeated entry makes `putNextEntry` throw) |
| Controllers.RepeatedIndexCountsOnce | data-manager-server/src/main/java/com/datamanager/server/controller/DataManagerController.java:318-327 | requesting "a" twice, with both exports succeeding, counts 1 |
| Controllers.ExportEvents | data-manager-server/src/main/java/com/datamanager/server/controller/DataManagerController.java:301-309 | one RUNNING event per index, carrying the count of the indices archived before it |
| Controllers.ZipRoutingIgnoresCase | data-manager-server/src/main/java/com/datamanager/server/controller/DataManagerController.java:376 | a name and its lower-cased form take the same route |
| Controllers.FailureNotMissing | data-manager-server/src/main/java/com/datamanager/server/controller/DataManagerController.java:392-416 | an import failure's text never equals the missing-name text |
| Controllers.SingleImport | data-manager-server/src/main/java/com/datamanager/server/controller/DataManagerController.java:380-417 | imported exactly for a parsed file with a non-empty name and no import error; missing-name bad request exactly for a null or empty name; a parse failure is "Import failed: " and the parser's message; a non-string name is "Import failed: " and the cast's message (`castMessage`); an import error is "Import failed: " and its message |
| Controllers.EntryResult | data-manager-server/src/main/java/com/datamanager/server/controller/DataManagerController.java:453-465 | imported exactly for a non-empty name and no exception; skipped exactly for a null or empty name; a failed entry is named by its file name with every ".json" deleted |
| Controllers.ZipCounts | data-manager-server/src/main/java/com/datamanager/server/controller/DataManagerController.java:441-466 | every entry is imported, failed or skipped; the report covers every entry exactly when none is skipped |
| Controllers.FailedEntryStem | data-manager-server/src/main/java/com/datamanager/server/controller/DataManagerController.java:462 | a failed "x.json" is reported as "x" when "x" has no ".json" of its own |
| Controllers.JsonEntries | data-manager-server/src/main/java/com/datamanager/server/controller/DataManagerController.java:430-436 | exactly the entries ending in ".json" |
| Controllers.ZipEvents | data-manager-server/src/main/java/com/datamanager/server/controller/DataManagerController.java:444-451 | one RUNNING event per entry |
| Controllers.KeepUncleared | data-manager-server/src/main/java/com/datamanager/server/controller/DataManagerController.java:511-512 | exactly the entries that are neither COMPLETED nor FAILED remain, unchanged |
| Controllers.ZipResponse | data-manager-server/src/main/java/com/datamanager/server/controller/DataManagerController.java:477-491 | a bad request exactly when the zip cannot be read; otherwise the imported and failed names |
| Controllers.DataManagerController.constructor | data-manager-server/src/main/java/com/datamanager/server/controller/DataManagerController.java:43-44 | an empty progress board and no broadcasts |
| Controllers.DataManagerController.BroadcastProgress | data-manager-server/src/main/java/com/datamanager/server/controller/DataManagerController.java:166-178 | the event becomes its operation's latest; the emitters whose send threw are removed |
| Controllers.DataManagerController.ClearCompleted | data-manager-server/src/main/java/com/datamanager/server/controller/DataManagerController.java:508-514 | the registry is cleared of finished operations; the board keeps exactly its CANCELLED and running entries |
| Controllers.DataManagerController.ExportMultipleIndices | data-manager-server/src/main/java/com/datamanager/server/controller/DataManagerController.java:289-340 | a RUNNING event per index; an index is counted when it exports and its entry name is new to the archive; the final COMPLETED event at 100 with that count |
| Controllers.DataManagerController.ImportIndex | data-manager-server/src/main/java/com/datamanager/server/controller/DataManagerController.java:370-418 | ".zip" in any case goes to the zip import; otherwise the single import with its events, whose non-string name fails with "Import failed: " and the cast's message (`castMessage`) |
| Controllers.DataManagerController.ImportFromZip | data-manager-server/src/main/java/com/datamanager/server/controller/DataManagerController.java:421-492 | the ".json" entries imported in order, with the COMPLETED count of imported ones, or a FAILED event when the zip cannot be read |
| Controllers.DataManagerController.CollectJsonEntries | data-manager-server/src/main/java/com/datamanager/server/controller/DataManagerController.java:430-436 | the first pass keeps exactly the ".json" entries, in order |
| Controllers.DataManagerController.ImportEntries | data-manager-server/src/main/java/com/datamanager/server/controller/DataManagerController.java:441-466 | the second pass: one RUNNING event per entry, imported and failed names as `EntryResult` decides |

## Left out

- Transport and client construction, the request builders and the
  `ClusterServiceFactory`/`IndexExportService` delegation are not modelled.
  The source cluster is a scroll cursor (`ScrollDrain.Page` values) and the
  target is a `TargetCluster` that logs requests.
- JSON serialisation and parsing are not modelled. A document's estimated
  byte size is an input `nat`, and a parsed upload is a `Result` whose
  error is the parser's message.
- File, zip and multipart I/O, and the HTTP response objects, are not
  modelled.
  - A file's content is the list of records.
  - A zip is the list of its entries.
  - The archive size reported by `exportMultipleIndices` is a parameter.
- The `clusterInfo` entry of an exported file is not modelled.
- Concurrency is not modelled: `@Async`, the concurrent maps and lists, and
  SSE delivery.
  - The registry and the board are updated sequentially.
  - A cancel that races a running `executeTransfer` is not modelled. The
    code would overwrite CANCELLED with COMPLETED.
- `DataTransfers.DataTransferService.ExecuteTransfer` takes the
  `TransferOperation` as a value. In the source, `executeTransfer` mutates
  the caller's object, and that same object is the registry entry. The model
  states the registry entry after the run, but not the aliasing: the
  caller's object is not updated alongside it.
- Clocks and UUIDs are parameters (`start`, `end`, `now`, `uuid`).
- The outcome of each index's export and import in a cluster-to-cluster run
  is an input (`step`). So is the outcome of a file transfer
  (`fileFailure`) and of each export in `exportMultipleIndices`
  (`exports`, by position).
  - The cluster-to-cluster outcome `step` is keyed by index name, so an
    index requested twice is taken to behave the same both times.
- The source client's exception message for an index it does not have is a
  parameter (`missing`) of `IndexTransfer.ExportSingleIndex`,
  `IndexTransfer.ExportToFile` and `IndexTransfer.TransferBetweenClusters`.
  It is the same message whichever client call fails first (the settings
  request, the mapping request or the scroll search).
- Percentages are exact reals, not `double`s. Rounding is not modelled.
- Integer widths are not modelled, except `page * size` in
  `searchDocuments`, which does wrap. Counters, document totals and ports
  are unbounded.
- Locale is not modelled. Case mapping is ASCII, and `%,d` uses "," as the
  grouping separator.
- `exportMultipleIndices`' outer `catch` (FAILED event, status 500) is not
  modelled. Every step it guards is abstracted, so none of them throws.
- The per-index `exportSingleIndex` endpoint, `startTransfer`, the
  cluster-list, delete and test endpoints, `getDocuments` and
  `getOperationProgress` are not modelled. They only delegate to the
  modelled services or the repository.
- A file record whose keys have the wrong JSON type is not modelled. The
  exceptions its casts would throw in `importFromFile` are not modelled
  either. Records are typed values, except inside alias definitions.
- The message of the `ClassCastException` that a non-string "name" raises
  in `importIndex` is a parameter (`castMessage`) of
  `Controllers.SingleImport` and `Controllers.DataManagerController.ImportIndex`.
  The JVM writes that message; it is outside the model.
- `streamProgress` (DataManagerController.java:145-164) is not modelled.
  It is the only place an emitter is added. The model's constructor takes
  the emitters as a parameter, and the replay of the board to a newly
  added emitter is not modelled.
- `IndexTransfer.TransferBetweenClusters` states only that the earlier
  alias puts stay a prefix of the log. It does not say which puts follow,
  because the per-index alias outcome is stated by `TransferIndex` and
  `TransferAliases`.
- `Aliases.PutAliases` does not fix the order in which the aliases are
  visited. The source iterates a `HashMap`, so any order is allowed.
- The OpenSearch health enum's `toString()` is taken as the health text.
- `Util.ParseLong` accepts only ASCII digits. Java's `Long.parseLong` also
  accepts other Unicode decimal digits through `Character.digit`.
- `TransferOperations.Format` covers years 1 to 9999 only, where
  "yyyy" prints four digits and no sign.
- `IndexInfos.ToString` takes the index name to be non-null. A null
  name would print as "null".
- `ClusterServices.NameLe` compares characters by code point. Java's
  `String.compareTo` compares UTF-16 units. The two orders agree on names
  inside the Basic Multilingual Plane. They can differ when a name holds
  characters outside it.

## Findings

| source | as written | input that shows it | evidently intended | confidence | as-written member | corrected member |
|---|---|---|---|---|---|---|
| data-manager-server/src/main/java/com/datamanager/server/service/ElasticsearchService.java:790-823 | `searchResponse` is never reassigned in the scroll loop. Each pass handles the first page's hits again, and scrolls with the first page's id. The same loop is at lines 186-219 and 356-384, and in the OpenSearch service. | A first page [a] with scroll id "s", and one scroll answer [b] with id "s". The loop exports a, b, a and makes two scroll calls. | Each scroll answer replaces the current page. The export is the first page followed by the answers, each once: here a, b. | not executed | ScrollDrain.DuplicateExample | ScrollDrain.CorrectedNoDuplicates |

The service models (`ScrollDrain.DrainToDocuments`,
`ScrollDrain.DrainToCluster` and everything built on them) keep the loop as
the code has it. `ScrollDrain.DrainCorrected` is the loop with the fix.
`ScrollDrain.CorrectedCollectsPrefix` and
`ScrollDrain.CorrectedNoDuplicates` prove the intended behaviour of that
fixed loop.
