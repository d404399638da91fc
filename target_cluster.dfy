/** The cluster side of the services, as seen through the client calls the
    core makes: documents and their estimated sizes, the bulk, create-index
    and put-alias requests, and a target cluster that records every request
    it accepts. */
module TargetClusters {
  import opened Util

  /** One search hit or one exported document: its `_id`, its `_source`,
      and the estimated byte size of the serialized source. */
  datatype Doc = Doc(id: Option<string>, source: Json, size: nat)

  /** One `bulk` call: an index operation for every document, all into `index`. */
  datatype BulkRequest = BulkRequest(index: string, docs: seq<Doc>)

  /** One `putAlias` call with the optional parts the builder was given. */
  datatype PutAlias = PutAlias(
    index: string,
    name: string,
    indexRouting: Option<string>,
    searchRouting: Option<string>,
    isWriteIndex: Option<bool>,
    filter: Option<Json>)

  /** A cluster receiving writes. `rejectedAliases` are the (index, alias)
      pairs whose `putAlias` the cluster answers with an error, whatever the
      cause (a missing index, an invalid routing value, ...). */
  class TargetCluster {
    var indices: set<string>
    var createRequests: seq<string>
    var bulkRequests: seq<BulkRequest>
    var aliasPuts: seq<PutAlias>
    const rejectedAliases: set<(string, string)>

    constructor (indices: set<string>, rejectedAliases: set<(string, string)>)
      ensures this.indices == indices && this.rejectedAliases == rejectedAliases
      ensures createRequests == [] && bulkRequests == [] && aliasPuts == []
    {
      this.indices := indices;
      this.rejectedAliases := rejectedAliases;
      createRequests := [];
      bulkRequests := [];
      aliasPuts := [];
    }

    /** `indices().exists(name)`. */
    method Exists(name: string) returns (b: bool)
      ensures b <==> name in indices
    {
      b := name in indices;
    }

    /** `indices().create(name)`: the request carries the name only; it fails
        when the index already exists. */
    method CreateIndex(name: string) returns (ok: bool)
      modifies this
      ensures ok <==> name !in old(indices)
      ensures createRequests == old(createRequests) + [name]
      ensures indices == old(indices) + {name}
      ensures bulkRequests == old(bulkRequests) && aliasPuts == old(aliasPuts)
    {
      ok := name !in indices;
      createRequests := createRequests + [name];
      indices := indices + {name};
    }

    /** `bulk(...)`: indexing into a missing index creates it. */
    method Bulk(index: string, docs: seq<Doc>)
      modifies this
      ensures bulkRequests == old(bulkRequests) + [BulkRequest(index, docs)]
      ensures indices == old(indices) + {index}
      ensures createRequests == old(createRequests) && aliasPuts == old(aliasPuts)
    {
      bulkRequests := bulkRequests + [BulkRequest(index, docs)];
      indices := indices + {index};
    }

    /** `indices().putAlias(...)`: accepted unless the cluster rejects it. */
    method PutAliasRequest(req: PutAlias) returns (ok: bool)
      modifies this
      ensures ok <==> (req.index, req.name) !in rejectedAliases
      ensures aliasPuts == if ok then old(aliasPuts) + [req] else old(aliasPuts)
      ensures indices == old(indices)
      ensures createRequests == old(createRequests) && bulkRequests == old(bulkRequests)
    {
      ok := (req.index, req.name) !in rejectedAliases;
      if ok {
        aliasPuts := aliasPuts + [req];
      }
    }
  }
}
