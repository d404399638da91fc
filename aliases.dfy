/** Index aliases on their three paths: recorded on export (with the
    Elasticsearch-only `is_hidden`), re-applied from an exported record by
    `importAliases`, and copied directly by `transferBetweenClusters`. */
module Aliases {
  import opened Util
  import opened ClusterConfigs
  import opened TargetClusters

  /** What the source cluster reports for one alias; every part may be absent. */
  datatype AliasDefinition = AliasDefinition(
    filter: Option<Json>,
    indexRouting: Option<string>,
    searchRouting: Option<string>,
    isWriteIndex: Option<bool>,
    isHidden: Option<bool>)

  /** `convertToMap`: a null object becomes an empty JSON object; any other
      value is taken as already converted. */
  function ConvertToMap(o: Option<Json>): Json
  {
    if o.None? then JObj(map[]) else o.value
  }

  /** The keys an exported alias definition may carry. */
  const AliasKeys: set<string> := {"filter", "index_routing", "search_routing", "is_write_index", "is_hidden"}

  /** The JSON object recorded for one alias on export: each part is put
      only when the cluster reported it, and `is_hidden` only by the
      Elasticsearch service. */
  function ExportAliasDef(engine: ClusterType, d: AliasDefinition): (r: map<string, Json>)
    ensures r.Keys <= AliasKeys
    ensures "filter" in r <==> d.filter.Some?
    ensures "index_routing" in r <==> d.indexRouting.Some?
    ensures "search_routing" in r <==> d.searchRouting.Some?
    ensures "is_write_index" in r <==> d.isWriteIndex.Some?
    ensures "is_hidden" in r <==> engine == Elasticsearch && d.isHidden.Some?
    ensures d.filter.Some? ==> r["filter"] == d.filter.value
    ensures d.indexRouting.Some? ==> r["index_routing"] == JStr(d.indexRouting.value)
    ensures d.searchRouting.Some? ==> r["search_routing"] == JStr(d.searchRouting.value)
    ensures d.isWriteIndex.Some? ==> r["is_write_index"] == JBool(d.isWriteIndex.value)
  {
    var m0: map<string, Json> := map[];
    var m1 := if d.filter.Some? then m0["filter" := ConvertToMap(d.filter)] else m0;
    var m2 := if d.indexRouting.Some? then m1["index_routing" := JStr(d.indexRouting.value)] else m1;
    var m3 := if d.searchRouting.Some? then m2["search_routing" := JStr(d.searchRouting.value)] else m2;
    var m4 := if d.isWriteIndex.Some? then m3["is_write_index" := JBool(d.isWriteIndex.value)] else m3;
    if engine == Elasticsearch && d.isHidden.Some? then m4["is_hidden" := JBool(d.isHidden.value)] else m4
  }

  /** The two services record the same definition except for `is_hidden`. */
  lemma ExportEnginesDiffer(d: AliasDefinition)
    ensures ExportAliasDef(OpenSearch, d) == ExportAliasDef(Elasticsearch, d) - {"is_hidden"}
  {
  }

  /** The `aliases` object of an exported record: every alias of the index
      under its own name. */
  function ExportAliasMap(engine: ClusterType, aliases: map<string, AliasDefinition>): (r: map<string, Json>)
    ensures r.Keys == aliases.Keys
  {
    map name | name in aliases :: JObj(ExportAliasDef(engine, aliases[name]))
  }

  /** The `forEach` that builds `aliasesMap`, visiting the aliases in any order. */
  method ExportAliases(engine: ClusterType, aliases: map<string, AliasDefinition>)
    returns (aliasesMap: map<string, Json>)
    ensures aliasesMap == ExportAliasMap(engine, aliases)
  {
    aliasesMap := map[];
    var remaining := aliases.Keys;
    while remaining != {}
      invariant remaining <= aliases.Keys
      invariant aliasesMap.Keys == aliases.Keys - remaining
      invariant forall name | name in aliasesMap :: aliasesMap[name] == JObj(ExportAliasDef(engine, aliases[name]))
      decreases remaining
    {
      var aliasName :| aliasName in remaining;
      aliasesMap := aliasesMap[aliasName := JObj(ExportAliasDef(engine, aliases[aliasName]))];
      remaining := remaining - {aliasName};
    }
  }

  // ---------------------------------------------------------------------------
  // Re-applying an exported record (`importAliases`)
  // ---------------------------------------------------------------------------

  /** `(String) aliasDef.get(key)` guarded by `containsKey`: absent or JSON
      null gives no value, a string gives it, anything else is a
      ClassCastException, whose Err carries the value that failed the cast. */
  function StringField(m: map<string, Json>, key: string): Result<Option<string>, Json>
  {
    if key !in m || m[key] == JNull then Ok(None)
    else if m[key].JStr? then Ok(Some(m[key].s))
    else Err(m[key])
  }

  /** `(Boolean) aliasDef.get(key)`, guarded the same way. */
  function BoolField(m: map<string, Json>, key: string): Result<Option<bool>, Json>
  {
    if key !in m || m[key] == JNull then Ok(None)
    else if m[key].JBool? then Ok(Some(m[key].b))
    else Err(m[key])
  }

  /** The request `importAliases` builds for one entry, or None when building
      it throws: the entry's value is not a JSON object, or one of the three
      keys holds a value of the wrong type. `filter` and `is_hidden` are never
      read. */
  function ImportRequest(index: string, name: string, def: Json): (r: Option<PutAlias>)
    ensures r.Some? ==> r.value.index == index && r.value.name == name && r.value.filter.None?
    ensures r.Some? <==> (def.JObj?
      && StringField(def.fields, "index_routing").Ok?
      && StringField(def.fields, "search_routing").Ok?
      && BoolField(def.fields, "is_write_index").Ok?)
  {
    match def
    case JObj(m) =>
      var ir, sr, w := StringField(m, "index_routing"), StringField(m, "search_routing"), BoolField(m, "is_write_index");
      if ir.Err? || sr.Err? || w.Err? then None
      else Some(PutAlias(index, name, ir.value, sr.value, w.value, None))
    case _ => None
  }

  /** Importing what an export recorded gives back the routing values and
      the write-index flag, while the filter (and `is_hidden`) are lost. */
  lemma ExportThenImport(engine: ClusterType, index: string, name: string, d: AliasDefinition)
    ensures ImportRequest(index, name, JObj(ExportAliasDef(engine, d)))
      == Some(PutAlias(index, name, d.indexRouting, d.searchRouting, d.isWriteIndex, None))
  {
    var m := ExportAliasDef(engine, d);
    assert StringField(m, "index_routing") == Ok(d.indexRouting);
    assert StringField(m, "search_routing") == Ok(d.searchRouting);
    assert BoolField(m, "is_write_index") == Ok(d.isWriteIndex);
  }

  function ImportRequests(index: string, aliases: map<string, Json>): (r: map<string, Option<PutAlias>>)
    ensures r.Keys == aliases.Keys
  {
    map name | name in aliases :: ImportRequest(index, name, aliases[name])
  }

  // ---------------------------------------------------------------------------
  // Copying aliases cluster to cluster (`transferBetweenClusters`)
  // ---------------------------------------------------------------------------

  /** The request the transfer builds: the three fields and the filter, each
      only when present; `is_hidden` is not copied. */
  function TransferRequest(index: string, name: string, d: AliasDefinition): PutAlias
  {
    PutAlias(index, name, d.indexRouting, d.searchRouting, d.isWriteIndex, d.filter)
  }

  /** Re-importing an exported `aliases` object builds, for every alias, the
      request the direct transfer builds, without its filter. */
  lemma ExportedAliasesReimport(engine: ClusterType, index: string, aliases: map<string, AliasDefinition>)
    ensures ImportRequests(index, ExportAliasMap(engine, aliases))
      == map name | name in aliases :: Some(TransferRequest(index, name, aliases[name]).(filter := None))
  {
    forall name | name in aliases
      ensures ImportRequests(index, ExportAliasMap(engine, aliases))[name] == Some(TransferRequest(index, name, aliases[name]).(filter := None))
    {
      TransferKeepsFilter(engine, index, name, aliases[name]);
    }
  }

  function TransferRequests(index: string, aliases: map<string, AliasDefinition>): (r: map<string, Option<PutAlias>>)
    ensures r.Keys == aliases.Keys
  {
    map name | name in aliases :: Some(TransferRequest(index, name, aliases[name]))
  }

  /** The direct transfer and an export followed by an import build the same
      request except for the filter, which only the direct transfer keeps. */
  lemma TransferKeepsFilter(engine: ClusterType, index: string, name: string, d: AliasDefinition)
    ensures TransferRequest(index, name, d).filter == d.filter
    ensures ImportRequest(index, name, JObj(ExportAliasDef(engine, d))) == Some(TransferRequest(index, name, d).(filter := None))
  {
    ExportThenImport(engine, index, name, d);
  }

  // ---------------------------------------------------------------------------
  // The loop both paths share: one try around all the puts
  // ---------------------------------------------------------------------------

  /** The requests built for `names`, in order, skipping names without one. */
  function RequestsOf(reqs: map<string, Option<PutAlias>>, names: seq<string>): (r: seq<PutAlias>)
    ensures |r| <= |names|
    ensures (forall i | 0 <= i < |names| :: names[i] in reqs && reqs[names[i]].Some?) ==>
      |r| == |names| && forall i | 0 <= i < |names| :: r[i] == reqs[names[i]].value
  {
    if names == [] then []
    else
      var last := names[|names| - 1];
      RequestsOf(reqs, names[..|names| - 1]) + (if last in reqs && reqs[last].Some? then [reqs[last].value] else [])
  }

  /** Whether the put for `req` goes through: it was built, and the cluster accepts it. */
  predicate Accepted(rejected: set<(string, string)>, req: Option<PutAlias>)
  {
    req.Some? && (req.value.index, req.value.name) !in rejected
  }

  /** The puts of `importAliases` / the alias block of
      `transferBetweenClusters`: the aliases are visited in the map's
      iteration order (any order), and the first one whose request cannot be
      built or is rejected ends the loop; the exception is swallowed. Returns
      the names applied, in order, and the name that failed, if any. */
  method PutAliases(cluster: TargetCluster, reqs: map<string, Option<PutAlias>>)
    returns (applied: seq<string>, failed: Option<string>)
    modifies cluster
    ensures forall i, k | 0 <= i < k < |applied| :: applied[i] != applied[k]
    ensures forall i | 0 <= i < |applied| :: applied[i] in reqs && Accepted(cluster.rejectedAliases, reqs[applied[i]])
    ensures cluster.aliasPuts == old(cluster.aliasPuts) + RequestsOf(reqs, applied)
    ensures failed.None? ==> forall name | name in reqs :: name in applied
    ensures failed.Some? ==>
      failed.value in reqs && failed.value !in applied && !Accepted(cluster.rejectedAliases, reqs[failed.value])
    ensures cluster.indices == old(cluster.indices)
    ensures cluster.createRequests == old(cluster.createRequests) && cluster.bulkRequests == old(cluster.bulkRequests)
  {
    applied, failed := [], None;
    var remaining := reqs.Keys;
    while remaining != {} && failed.None?
      invariant remaining <= reqs.Keys
      invariant forall name | name in reqs :: name in applied <==> name !in remaining
      invariant forall i, k | 0 <= i < k < |applied| :: applied[i] != applied[k]
      invariant forall i | 0 <= i < |applied| :: applied[i] in reqs && Accepted(cluster.rejectedAliases, reqs[applied[i]])
      invariant cluster.aliasPuts == old(cluster.aliasPuts) + RequestsOf(reqs, applied)
      invariant failed.Some? ==>
        failed.value in reqs && failed.value !in applied && !Accepted(cluster.rejectedAliases, reqs[failed.value])
      invariant cluster.indices == old(cluster.indices)
      invariant cluster.createRequests == old(cluster.createRequests) && cluster.bulkRequests == old(cluster.bulkRequests)
      decreases remaining, if failed.None? then 1 else 0
    {
      var aliasName :| aliasName in remaining;
      var req := reqs[aliasName];
      if req.None? {
        failed := Some(aliasName);
      } else {
        var ok := cluster.PutAliasRequest(req.value);
        if ok {
          applied := applied + [aliasName];
          remaining := remaining - {aliasName};
        } else {
          failed := Some(aliasName);
        }
      }
    }
  }

  /** `importAliases(client, indexName, aliases)`. */
  method ImportAliases(cluster: TargetCluster, index: string, aliases: map<string, Json>)
    returns (applied: seq<string>, failed: Option<string>)
    modifies cluster
    ensures forall i | 0 <= i < |applied| ::
      applied[i] in aliases && Accepted(cluster.rejectedAliases, ImportRequest(index, applied[i], aliases[applied[i]]))
    ensures cluster.aliasPuts == old(cluster.aliasPuts) + RequestsOf(ImportRequests(index, aliases), applied)
    ensures failed.None? ==> forall name | name in aliases :: name in applied
    ensures failed.Some? ==>
      failed.value in aliases && failed.value !in applied && !Accepted(cluster.rejectedAliases, ImportRequest(index, failed.value, aliases[failed.value]))
    ensures cluster.indices == old(cluster.indices)
    ensures cluster.createRequests == old(cluster.createRequests) && cluster.bulkRequests == old(cluster.bulkRequests)
  {
    applied, failed := PutAliases(cluster, ImportRequests(index, aliases));
  }

  /** The alias block of `transferBetweenClusters`, given the aliases the
      source reported for the index (the block does nothing when there are none). */
  method TransferAliases(cluster: TargetCluster, index: string, aliases: map<string, AliasDefinition>)
    returns (applied: seq<string>, failed: Option<string>)
    modifies cluster
    ensures forall i | 0 <= i < |applied| :: applied[i] in aliases
    ensures cluster.aliasPuts == old(cluster.aliasPuts) + RequestsOf(TransferRequests(index, aliases), applied)
    ensures failed.None? ==> forall name | name in aliases :: name in applied
    ensures failed.Some? ==>
      failed.value in aliases && failed.value !in applied && (index, failed.value) in cluster.rejectedAliases
    ensures cluster.indices == old(cluster.indices)
    ensures cluster.createRequests == old(cluster.createRequests) && cluster.bulkRequests == old(cluster.bulkRequests)
  {
    applied, failed := PutAliases(cluster, TransferRequests(index, aliases));
  }
}
