/** The read-only calls of both services: `getClusterInfo`, `listIndices`
    (mapping the cat-indices records and sorting them by name) and
    `searchDocuments` (paging and query shaping). The cluster's answers are
    inputs. */
module ClusterServices {
  import opened Util
  import opened ClusterConfigs
  import opened IndexInfos

  // ---------------------------------------------------------------------------
  // getClusterInfo
  // ---------------------------------------------------------------------------

  /** The parts of the `info()` answer the services read. */
  datatype InfoResponse = InfoResponse(clusterName: string, clusterUuid: string, versionNumber: string, luceneVersion: string)

  /** ClusterInfo; the builder leaves the fields it is not given at null or 0. */
  datatype ClusterInfo = ClusterInfo(
    clusterName: Option<string>,
    clusterUuid: Option<string>,
    version: Option<string>,
    luceneVersion: Option<string>,
    numberOfNodes: int,
    numberOfDataNodes: int,
    status: Option<string>,
    totalIndices: int,
    totalDocuments: int,
    totalSize: Option<string>)

  /** `getClusterInfo`: name, uuid and version number from the answer; only
      the Elasticsearch service also records the Lucene version. */
  function ClusterInfoOf(engine: ClusterType, info: InfoResponse): (r: ClusterInfo)
    ensures r.clusterName == Some(info.clusterName) && r.clusterUuid == Some(info.clusterUuid)
    ensures r.version == Some(info.versionNumber)
    ensures r.luceneVersion.Some? <==> engine == Elasticsearch
    ensures r.luceneVersion.Some? ==> r.luceneVersion.value == info.luceneVersion
    ensures r.numberOfNodes == 0 && r.numberOfDataNodes == 0 && r.totalIndices == 0 && r.totalDocuments == 0
    ensures r.status.None? && r.totalSize.None?
  {
    ClusterInfo(Some(info.clusterName), Some(info.clusterUuid), Some(info.versionNumber),
      if engine == Elasticsearch then Some(info.luceneVersion) else None,
      0, 0, None, 0, 0, None)
  }

  // ---------------------------------------------------------------------------
  // listIndices: record mapping
  // ---------------------------------------------------------------------------

  /** One record of `cat().indices()`; every column may be null. The
      OpenSearch health column is an enum whose `toString()` is taken here. */
  datatype CatRecord = CatRecord(
    index: string,
    docsCount: Option<string>,
    storeSize: Option<string>,
    health: Option<string>,
    status: Option<string>)

  /** The message of the NumberFormatException `Long.parseLong(s)` throws. */
  function ForInputString(s: string): string
  {
    "For input string: \"" + s + "\""
  }

  /** The IndexInfo built for one record, or the parse error of its
      `docsCount`: a null count is 0, a null store size "0", a null health
      "unknown"; the status is copied; shards, replicas and the selection
      keep their builder defaults. */
  function InfoOf(rec: CatRecord): (r: Result<IndexInfo, string>)
    ensures r.Err? <==> rec.docsCount.Some? && ParseLong(rec.docsCount.value).None?
    ensures r.Err? ==> r.error == ForInputString(rec.docsCount.value)
    ensures r.Ok? ==> r.value.name == rec.index && r.value.status == rec.status
    ensures r.Ok? ==> r.value.documentCount == (if rec.docsCount.None? then 0 else ParseLong(rec.docsCount.value).value)
    ensures r.Ok? ==> r.value.size == Some(if rec.storeSize.None? then "0" else rec.storeSize.value)
    ensures r.Ok? ==> r.value.health == Some(if rec.health.None? then "unknown" else rec.health.value)
    ensures r.Ok? ==> r.value.numberOfShards == 0 && r.value.numberOfReplicas == 0 && !r.value.selected
  {
    var count := if rec.docsCount.None? then Some(0) else ParseLong(rec.docsCount.value);
    if count.None? then Err(ForInputString(rec.docsCount.value))
    else
      Ok(IndexInfo(rec.index, count.value,
        Some(if rec.storeSize.None? then "0" else rec.storeSize.value),
        0, 0,
        Some(if rec.health.None? then "unknown" else rec.health.value),
        rec.status, false))
  }

  /** A record whose count parses maps to an info whose count reads back as
      the record's text, so no count is invented. */
  lemma InfoOfCountRoundTrip(rec: CatRecord, n: int)
    requires LongMin <= n <= LongMax && rec.docsCount == Some(IntToString(n))
    ensures InfoOf(rec).Ok? && InfoOf(rec).value.documentCount == n
  {
    ParseLongOfIntToString(n);
  }

  // ---------------------------------------------------------------------------
  // listIndices: the sort by name (String.compareTo, stable)
  // ---------------------------------------------------------------------------

  /** `a.compareTo(b) <= 0`: char by char, a proper prefix first. */
  predicate NameLe(a: string, b: string)
    decreases |a|
  {
    a == [] || (b != [] && (a[0] < b[0] || (a[0] == b[0] && NameLe(a[1..], b[1..]))))
  }

  lemma {:induction false} NameLeTotal(a: string, b: string)
    ensures NameLe(a, b) || NameLe(b, a)
    decreases |a|
  {
    if a != [] && b != [] && a[0] == b[0] {
      NameLeTotal(a[1..], b[1..]);
    }
  }

  lemma {:induction false} NameLeTrans(a: string, b: string, c: string)
    requires NameLe(a, b) && NameLe(b, c)
    ensures NameLe(a, c)
    decreases |a|
  {
    if a != [] && b != [] && c != [] && a[0] == b[0] == c[0] {
      NameLeTrans(a[1..], b[1..], c[1..]);
    }
  }

  /** Neighbours are in name order. */
  predicate SortedByName(s: seq<IndexInfo>)
    decreases |s|
  {
    |s| <= 1 || (NameLe(s[0].name, s[1].name) && SortedByName(s[1..]))
  }

  /** `x` goes before the first element whose name is not smaller, so it
      stays ahead of elements with an equal name. */
  function InsertByName(x: IndexInfo, s: seq<IndexInfo>): (r: seq<IndexInfo>)
    ensures multiset(r) == multiset(s) + multiset{x}
    ensures |r| == |s| + 1
  {
    if s == [] then [x]
    else if NameLe(x.name, s[0].name) then [x] + s
    else
      assert s == [s[0]] + s[1..];
      [s[0]] + InsertByName(x, s[1..])
  }

  lemma {:induction false} InsertByNameSorted(x: IndexInfo, s: seq<IndexInfo>)
    requires SortedByName(s)
    ensures SortedByName(InsertByName(x, s))
    ensures InsertByName(x, s)[0] == x || (s != [] && InsertByName(x, s)[0] == s[0])
  {
    if s != [] && !NameLe(x.name, s[0].name) {
      NameLeTotal(x.name, s[0].name);
      InsertByNameSorted(x, s[1..]);
    }
  }

  /** `indices.sort(Comparator.comparing(IndexInfo::getName))`. */
  function SortByName(s: seq<IndexInfo>): seq<IndexInfo>
  {
    if s == [] then [] else InsertByName(s[0], SortByName(s[1..]))
  }

  /** The sorted list is in name order and holds exactly the same entries. */
  lemma {:induction false} SortByNameSpec(s: seq<IndexInfo>)
    ensures SortedByName(SortByName(s))
    ensures multiset(SortByName(s)) == multiset(s)
  {
    if s != [] {
      SortByNameSpec(s[1..]);
      InsertByNameSorted(s[0], SortByName(s[1..]));
      assert s == [s[0]] + s[1..];
    }
  }

  /** Name order between neighbours is name order between any two positions. */
  lemma {:induction false} SortedPairwise(s: seq<IndexInfo>, i: int, j: int)
    requires SortedByName(s) && 0 <= i < j < |s|
    ensures NameLe(s[i].name, s[j].name)
    decreases |s|
  {
    if i == 0 {
      if j > 1 {
        SortedPairwise(s[1..], 0, j - 1);
        NameLeTrans(s[0].name, s[1].name, s[j].name);
      }
    } else {
      SortedPairwise(s[1..], i - 1, j - 1);
    }
  }

  /** `listIndices`: the records mapped in answer order, then sorted by name.
      The first count that does not parse fails the call with the wrapped
      NumberFormatException message. */
  method ListIndices(records: seq<CatRecord>) returns (r: Result<seq<IndexInfo>, string>)
    ensures r.Err? <==> exists k | 0 <= k < |records| :: InfoOf(records[k]).Err?
    ensures r.Err? ==> exists k | 0 <= k < |records| ::
      InfoOf(records[k]).Err? && r.error == "Failed to list indices: " + InfoOf(records[k]).error
      && forall j | 0 <= j < k :: InfoOf(records[j]).Ok?
    ensures r.Ok? ==> SortedByName(r.value) && |r.value| == |records|
    ensures r.Ok? ==> multiset(r.value) == multiset(seq(|records|, k requires 0 <= k < |records| && InfoOf(records[k]).Ok? => InfoOf(records[k]).value))
  {
    var indices: seq<IndexInfo> := [];
    var k := 0;
    while k < |records|
      invariant 0 <= k <= |records| && |indices| == k
      invariant forall j | 0 <= j < k :: InfoOf(records[j]).Ok? && indices[j] == InfoOf(records[j]).value
    {
      var info := InfoOf(records[k]);
      if info.Err? {
        return Err("Failed to list indices: " + info.error);
      }
      indices := indices + [info.value];
      k := k + 1;
    }
    assert indices == seq(|records|, k requires 0 <= k < |records| && InfoOf(records[k]).Ok? => InfoOf(records[k]).value);
    SortByNameSpec(indices);
    var sorted := SortByName(indices);
    assert |sorted| == |multiset(sorted)| == |indices|;
    r := Ok(sorted);
  }

  // ---------------------------------------------------------------------------
  // searchDocuments
  // ---------------------------------------------------------------------------

  const Int32Modulus: int := 0x1_0000_0000

  /** Java `int` arguments. */
  newtype Int32 = x: int | -0x8000_0000 <= x < 0x8000_0000

  /** Java `int` multiplication: the exact product reduced to 32 bits, two's complement. */
  function MulInt32(a: Int32, b: Int32): (r: int)
    ensures -0x8000_0000 <= r < 0x8000_0000
    ensures (r - a as int * b as int) % Int32Modulus == 0
    ensures -0x8000_0000 <= a as int * b as int < 0x8000_0000 ==> r == a as int * b as int
  {
    var p := a as int * b as int;
    (p + 0x8000_0000) % Int32Modulus - 0x8000_0000
  }

  /** A page far enough out overflows the offset into a negative number. */
  lemma OffsetOverflows()
    ensures MulInt32(65536, 32768) == -0x8000_0000
  {
  }

  datatype Query = MatchAll | QueryString(text: string)

  datatype SearchRequest = SearchRequest(index: string, from: int, size: int, query: Query)

  /** The request `searchDocuments` sends: offset `page * size`, and a
      match-all query for a null or blank query, otherwise the query string
      wrapped in `*`. */
  function SearchRequestFor(index: string, query: Option<string>, page: Int32, size: Int32): (r: SearchRequest)
    ensures r.index == index && r.size == size as int
    ensures r.from == MulInt32(page, size)
    ensures r.query == MatchAll <==> query.None? || Trim(query.value) == []
    ensures r.query != MatchAll ==> r.query.text == "*" + query.value + "*"
  {
    var q := if query != None && Trim(query.value) != [] then QueryString("*" + query.value + "*") else MatchAll;
    SearchRequest(index, MulInt32(page, size), size as int, q)
  }

  /** The query is match-all exactly when it is null or made only of
      chars `trim` drops. */
  lemma BlankQueryMatchesAll(index: string, query: Option<string>, page: Int32, size: Int32)
    ensures SearchRequestFor(index, query, page, size).query == MatchAll
      <==> query.None? || forall i | 0 <= i < |query.value| :: IsTrimmable(query.value[i])
  {
    if query.Some? {
      TrimEmptyIff(query.value);
    }
  }

  /** One search hit as the client returns it. */
  datatype SearchHit = SearchHit(id: Option<string>, index: string, source: Json)

  /** The hits and the (nullable) total of one search answer. */
  datatype SearchResponse = SearchResponse(hits: seq<SearchHit>, total: Option<int>)

  /** The result map: documents, total, and the page and size echoed back. */
  datatype SearchResult = SearchResult(documents: seq<SearchHit>, total: int, page: int, size: int)

  /** The document recorded for one hit: the Elasticsearch service passes the
      source through `convertToMap` (a null source becomes `{}`), the
      OpenSearch service records it as it is. */
  function ResultDoc(engine: ClusterType, hit: SearchHit): (r: SearchHit)
    ensures r.id == hit.id && r.index == hit.index
    ensures engine == OpenSearch || hit.source != JNull ==> r.source == hit.source
    ensures engine == Elasticsearch && hit.source == JNull ==> r.source == JObj(map[])
  {
    if engine == Elasticsearch && hit.source == JNull then hit.(source := JObj(map[])) else hit
  }

  /** `searchDocuments`: builds the request, asks the cluster (`answer`), and
      copies each hit into the result in order; a null total is 0. */
  method SearchDocuments(engine: ClusterType, answer: SearchRequest -> SearchResponse,
                         index: string, query: Option<string>, page: Int32, size: Int32)
    returns (request: SearchRequest, result: SearchResult)
    ensures request == SearchRequestFor(index, query, page, size)
    ensures |result.documents| == |answer(request).hits|
    ensures forall i | 0 <= i < |result.documents| :: result.documents[i] == ResultDoc(engine, answer(request).hits[i])
    ensures result.total == (if answer(request).total.None? then 0 else answer(request).total.value)
    ensures result.page == page as int && result.size == size as int
  {
    request := SearchRequestFor(index, query, page, size);
    var response := answer(request);
    var documents: seq<SearchHit> := [];
    for i := 0 to |response.hits|
      invariant |documents| == i
      invariant forall j | 0 <= j < i :: documents[j] == ResultDoc(engine, response.hits[j])
    {
      documents := documents + [ResultDoc(engine, response.hits[i])];
    }
    var total := if response.total.None? then 0 else response.total.value;
    result := SearchResult(documents, total, page as int, size as int);
  }
}
