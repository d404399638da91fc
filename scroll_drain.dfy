/** The scroll-drain loop of `exportSingleIndex`, `exportToFile` and
    `transferBetweenClusters`, exactly as written: the response of the
    initial search is never replaced inside the loop, so every pass handles
    the first page's hits again and scrolls with the first page's id. The
    cursor is the first page plus the answers to successive scroll calls. */
module ScrollDrain {
  import opened Util
  import opened TargetClusters
  import opened BulkBatching

  datatype Page = Page(hits: seq<Doc>, scrollId: Option<string>)

  /** The answer to scroll call number `j` (from 0); a cursor that has run
      out answers with no hits. */
  function PageAt(pages: seq<Page>, j: int): Page
  {
    if 0 <= j < |pages| then pages[j] else Page([], None)
  }

  /** After handling the first page the loop scrolls only when that page has
      an id and at least one hit. */
  predicate FirstContinues(first: Page)
  {
    first.scrollId.Some? && first.hits != []
  }

  /** A scroll answer after which the loop goes round again: hits and an id. */
  predicate Continues(p: Page)
  {
    p.hits != [] && p.scrollId.Some?
  }

  /** What the loop does from the point where `j` scroll calls have been
      made: the hit lists it handles, in order, the number of further scroll
      calls, and the value `scrollId` holds when the loop ends. */
  datatype Drain = Drain(handled: seq<seq<Doc>>, scrollCalls: nat, finalScrollId: Option<string>)

  function DrainFrom(first: Page, pages: seq<Page>, j: nat): Drain
    decreases |pages| - j
  {
    if !FirstContinues(first) then Drain([first.hits], 0, first.scrollId)
    else
      var p := PageAt(pages, j);
      if p.hits == [] then Drain([first.hits], 1, first.scrollId)
      else if p.scrollId.None? then Drain([first.hits, p.hits], 1, None)
      else
        var rest := DrainFrom(first, pages, j + 1);
        Drain([first.hits, p.hits] + rest.handled, 1 + rest.scrollCalls, rest.finalScrollId)
  }

  /** The whole loop as written. */
  function AsWritten(first: Page, pages: seq<Page>): Drain
  {
    DrainFrom(first, pages, 0)
  }

  /** The documents an export collects: every handled hit list, in order. */
  function ExportedDocuments(first: Page, pages: seq<Page>): seq<Doc>
  {
    Flatten(AsWritten(first, pages).handled)
  }

  // ---------------------------------------------------------------------------
  // What the loop does, stated without the recursion
  // ---------------------------------------------------------------------------

  /** Pass `i` of a loop that goes on scrolling: the first page's hits again,
      then the hits of scroll answer `i`. */
  function Pass(first: Page, pages: seq<Page>, i: int): seq<Doc>
  {
    first.hits + PageAt(pages, i).hits
  }

  function Passes(first: Page, pages: seq<Page>, from: nat, n: nat): seq<seq<Doc>>
  {
    seq(n, i requires 0 <= i < n => Pass(first, pages, from + i))
  }

  /** From `j` scroll calls on, a loop that scrolls makes at least one more
      call, goes on while the answers continue, and stops at the first one
      that does not; `scrollId` ends null exactly when that answer had hits. */
  lemma {:induction false} DrainFromCalls(first: Page, pages: seq<Page>, j: nat)
    requires FirstContinues(first)
    ensures var d := DrainFrom(first, pages, j); var last := PageAt(pages, j + d.scrollCalls - 1);
      d.scrollCalls >= 1
      && (forall i | j <= i < j + d.scrollCalls - 1 :: Continues(PageAt(pages, i)))
      && !Continues(last)
      && (d.finalScrollId.None? <==> last.hits != [])
      && (d.finalScrollId.Some? ==> d.finalScrollId == first.scrollId)
    decreases |pages| - j
  {
    var d := DrainFrom(first, pages, j);
    if Continues(PageAt(pages, j)) {
      assert j < |pages|;
      var rest := DrainFrom(first, pages, j + 1);
      DrainFromCalls(first, pages, j + 1);
      assert d.scrollCalls == 1 + rest.scrollCalls && d.finalScrollId == rest.finalScrollId;
      forall i | j <= i < j + d.scrollCalls - 1
        ensures Continues(PageAt(pages, i))
      {
        if i > j {
          assert j + 1 <= i < j + 1 + rest.scrollCalls - 1;
        }
      }
    } else {
      assert d.scrollCalls == 1;
    }
  }

  /** From `j` scroll calls on, the documents collected are the passes'. */
  lemma {:induction false} DrainFromDocuments(first: Page, pages: seq<Page>, j: nat)
    requires FirstContinues(first)
    ensures var d := DrainFrom(first, pages, j);
      d.scrollCalls >= 1 && Flatten(d.handled) == Flatten(Passes(first, pages, j, d.scrollCalls))
    decreases |pages| - j
  {
    var d := DrainFrom(first, pages, j);
    var p := PageAt(pages, j);
    DrainUnfold(first, pages, j);
    if Continues(p) {
      assert j < |pages|;
      var rest := DrainFrom(first, pages, j + 1);
      DrainFromDocuments(first, pages, j + 1);
      var ps := Passes(first, pages, j, d.scrollCalls);
      var tail := Passes(first, pages, j + 1, rest.scrollCalls);
      assert ps == [Pass(first, pages, j)] + tail by {
        forall i | 0 <= i < |tail|
          ensures ps[i + 1] == tail[i]
        {
          assert ps[i + 1] == Pass(first, pages, j + 1 + i);
        }
      }
      FlattenCons(first.hits, [p.hits] + rest.handled);
      FlattenCons(p.hits, rest.handled);
      FlattenCons(Pass(first, pages, j), tail);
      AppendAssoc(first.hits, p.hits, Flatten(rest.handled));
    } else {
      var ps := Passes(first, pages, j, 1);
      assert |ps| == 1 && ps[0] == Pass(first, pages, j);
      assert ps == [first.hits + p.hits];
      FlattenOne(first.hits + p.hits);
      if p.hits == [] {
        FlattenOne(first.hits);
        assert first.hits + p.hits == first.hits;
      } else {
        FlattenCons(first.hits, [p.hits]);
        FlattenOne(p.hits);
      }
    }
  }

  /** The loop as written, in closed form. When the first page has no id or
      no hits, it is collected once, nothing is scrolled, and `scrollId` ends
      as the first page's id. Otherwise the loop makes K >= 1 scroll calls:
      answers 0 .. K-2 all have hits and an id, and answer K-1 has no hits or
      no id. Every pass collects the first page's hits again, followed by
      that pass's answer, so the export is pass 0 + ... + pass K-1. The final
      `scrollId` is null exactly when the last answer had hits but no id;
      otherwise it is the first page's id. */
  lemma DrainSpec(first: Page, pages: seq<Page>)
    ensures var d := AsWritten(first, pages);
      !FirstContinues(first) ==>
        d.scrollCalls == 0 && ExportedDocuments(first, pages) == first.hits && d.finalScrollId == first.scrollId
    ensures var d := AsWritten(first, pages); var k := d.scrollCalls; var last := PageAt(pages, k - 1);
      FirstContinues(first) ==>
        k >= 1
        && (forall i | 0 <= i < k - 1 :: Continues(PageAt(pages, i)))
        && !Continues(last)
        && ExportedDocuments(first, pages) == Flatten(Passes(first, pages, 0, k))
        && (d.finalScrollId.None? <==> last.hits != [])
        && (d.finalScrollId.Some? ==> d.finalScrollId == first.scrollId)
  {
    if FirstContinues(first) {
      DrainFromCalls(first, pages, 0);
      DrainFromDocuments(first, pages, 0);
    } else {
      assert Flatten([first.hits]) == first.hits + Flatten([first.hits][1..]);
    }
  }

  /** The scroll calls stay within the cursor: at most one past its last page. */
  lemma {:induction false} ScrollCallsBound(first: Page, pages: seq<Page>, j: nat)
    requires j <= |pages|
    ensures DrainFrom(first, pages, j).scrollCalls <= |pages| - j + 1
    decreases |pages| - j
  {
    if FirstContinues(first) && Continues(PageAt(pages, j)) {
      ScrollCallsBound(first, pages, j + 1);
    }
  }

  // ---------------------------------------------------------------------------
  // The loops
  // ---------------------------------------------------------------------------

  lemma FlattenCons<T>(x: seq<T>, rest: seq<seq<T>>)
    ensures Flatten([x] + rest) == x + Flatten(rest)
  {
    assert ([x] + rest)[1..] == rest;
  }

  /** One pass of the loop, read off the definition of `DrainFrom`. */
  lemma DrainUnfold(first: Page, pages: seq<Page>, j: nat)
    ensures var d := DrainFrom(first, pages, j); var p := PageAt(pages, j);
      (!FirstContinues(first) ==> d.handled == [first.hits] && d.scrollCalls == 0 && d.finalScrollId == first.scrollId)
      && (FirstContinues(first) && p.hits == [] ==>
            d.handled == [first.hits] && d.scrollCalls == 1 && d.finalScrollId == first.scrollId)
      && (FirstContinues(first) && p.hits != [] && p.scrollId.None? ==>
            d.handled == [first.hits] + [p.hits] && d.scrollCalls == 1 && d.finalScrollId.None?)
      && (FirstContinues(first) && Continues(p) ==>
            var rest := DrainFrom(first, pages, j + 1);
            d.handled == [first.hits] + ([p.hits] + rest.handled)
            && d.scrollCalls == 1 + rest.scrollCalls && d.finalScrollId == rest.finalScrollId)
  {
    var p := PageAt(pages, j);
    if FirstContinues(first) && Continues(p) {
      var rest := DrainFrom(first, pages, j + 1);
      assert [first.hits, p.hits] + rest.handled == [first.hits] + ([p.hits] + rest.handled);
    }
  }

  lemma FlattenOne<T>(x: seq<T>)
    ensures Flatten([x]) == x
  {
    FlattenCons(x, []);
  }

  lemma FlattenSnoc<T>(xss: seq<seq<T>>, x: seq<T>)
    ensures Flatten(xss + [x]) == Flatten(xss) + x
  {
    FlattenAppend(xss, [x]);
    FlattenOne(x);
  }

  /** The export loop (`exportSingleIndex`, `exportToFile`): returns the
      collected documents, the ids the scroll calls were made with, and the
      final `scrollId`, which the caller clears when it is non-null. */
  method DrainToDocuments(first: Page, pages: seq<Page>)
    returns (documents: seq<Doc>, scrollCalls: seq<string>, scrollId: Option<string>)
    ensures documents == ExportedDocuments(first, pages)
    ensures |scrollCalls| == AsWritten(first, pages).scrollCalls
    ensures forall k | 0 <= k < |scrollCalls| :: first.scrollId == Some(scrollCalls[k])
    ensures scrollId == AsWritten(first, pages).finalScrollId
  {
    ghost var total := AsWritten(first, pages);
    ghost var sent: seq<seq<Doc>> := [];
    documents, scrollCalls, scrollId := [], [], None;
    var hasMoreData := true;
    var j: nat := 0;
    while hasMoreData
      invariant j <= |pages| + 1 && (hasMoreData ==> j <= |pages|)
      invariant j == |scrollCalls|
      invariant j > 0 ==> FirstContinues(first)
      invariant forall k | 0 <= k < |scrollCalls| :: first.scrollId == Some(scrollCalls[k])
      invariant documents == Flatten(sent)
      invariant hasMoreData ==> sent + DrainFrom(first, pages, j).handled == total.handled
      invariant hasMoreData ==> j + DrainFrom(first, pages, j).scrollCalls == total.scrollCalls
      invariant hasMoreData ==> DrainFrom(first, pages, j).finalScrollId == total.finalScrollId
      invariant !hasMoreData ==> sent == total.handled && j == total.scrollCalls && scrollId == total.finalScrollId
      decreases |pages| + 1 - j, hasMoreData
    {
      DrainUnfold(first, pages, j);
      ghost var rest := DrainFrom(first, pages, j + 1).handled;
      ghost var sent0 := sent;
      var hits := first.hits;
      FlattenSnoc(sent, hits);
      documents := documents + hits;
      sent := sent + [hits];
      scrollId := first.scrollId;
      if scrollId.None? || hits == [] {
        hasMoreData := false;
      } else {
        scrollCalls := scrollCalls + [scrollId.value];
        var scrollResponse := PageAt(pages, j);
        j := j + 1;
        if scrollResponse.hits == [] {
          hasMoreData := false;
        } else {
          FlattenSnoc(sent, scrollResponse.hits);
          documents := documents + scrollResponse.hits;
          sent := sent + [scrollResponse.hits];
          scrollId := scrollResponse.scrollId;
          if scrollId.None? {
            hasMoreData := false;
          } else {
            AppendAssoc(sent0, [hits], [scrollResponse.hits] + rest);
            AppendAssoc(sent0 + [hits], [scrollResponse.hits], rest);
          }
        }
      }
    }
  }

  /** The bulk requests for a sequence of handled hit lists: each list is
      batched on its own (one `processScrollHits` call per list). */
  function HandledRequests(index: string, handled: seq<seq<Doc>>): seq<BulkRequest>
  {
    if handled == [] then []
    else Requests(index, Batches(handled[0], MaxBulkSizeBytes, MaxBulkDocCount)) + HandledRequests(index, handled[1..])
  }

  /** The documents carried by a sequence of bulk requests, in order. */
  function RequestDocs(rs: seq<BulkRequest>): seq<Doc>
  {
    if rs == [] then [] else rs[0].docs + RequestDocs(rs[1..])
  }

  lemma {:induction false} RequestDocsAppend(a: seq<BulkRequest>, b: seq<BulkRequest>)
    ensures RequestDocs(a + b) == RequestDocs(a) + RequestDocs(b)
  {
    if a == [] {
      assert a + b == b;
    } else {
      assert (a + b)[1..] == a[1..] + b;
      RequestDocsAppend(a[1..], b);
    }
  }

  lemma {:induction false} RequestDocsOfRequests(index: string, bs: seq<seq<Doc>>)
    ensures RequestDocs(Requests(index, bs)) == Flatten(bs)
  {
    if bs != [] {
      assert Requests(index, bs)[1..] == Requests(index, bs[1..]);
      RequestDocsOfRequests(index, bs[1..]);
    }
  }

  /** Every document of every handled list reaches the target, in order. */
  lemma {:induction false} HandledRequestDocs(index: string, handled: seq<seq<Doc>>)
    ensures RequestDocs(HandledRequests(index, handled)) == Flatten(handled)
  {
    if handled != [] {
      var bs := Batches(handled[0], MaxBulkSizeBytes, MaxBulkDocCount);
      RequestDocsAppend(Requests(index, bs), HandledRequests(index, handled[1..]));
      RequestDocsOfRequests(index, bs);
      BatchesSpec(handled[0], MaxBulkSizeBytes, MaxBulkDocCount);
      HandledRequestDocs(index, handled[1..]);
    }
  }

  lemma HandledRequestsCons(index: string, x: seq<Doc>, rest: seq<seq<Doc>>)
    ensures HandledRequests(index, [x] + rest)
      == Requests(index, Batches(x, MaxBulkSizeBytes, MaxBulkDocCount)) + HandledRequests(index, rest)
  {
    assert ([x] + rest)[1..] == rest;
    assert HandledRequests(index, []) == [];
  }

  lemma HandledRequestsSnoc(index: string, sent: seq<seq<Doc>>, x: seq<Doc>)
    ensures HandledRequests(index, sent + [x])
      == HandledRequests(index, sent) + Requests(index, Batches(x, MaxBulkSizeBytes, MaxBulkDocCount))
  {
    HandledRequestsAppend(index, sent, [x]);
    HandledRequestsCons(index, x, []);
    assert [x] + [] == [x];
  }

  lemma {:induction false} HandledRequestsAppend(index: string, a: seq<seq<Doc>>, b: seq<seq<Doc>>)
    ensures HandledRequests(index, a + b) == HandledRequests(index, a) + HandledRequests(index, b)
  {
    if a == [] {
      assert a + b == b;
    } else {
      assert (a + b)[1..] == a[1..] + b;
      HandledRequestsAppend(index, a[1..], b);
    }
  }

  /** A cluster-to-cluster transfer sends, across all its bulk requests and
      in order, exactly the documents an export of the same cursor collects,
      first-page repeats included; and every request stays within the limits. */
  lemma TransferMatchesExport(index: string, first: Page, pages: seq<Page>)
    ensures RequestDocs(HandledRequests(index, AsWritten(first, pages).handled)) == ExportedDocuments(first, pages)
  {
    HandledRequestDocs(index, AsWritten(first, pages).handled);
  }

  /** The transfer loop (`transferBetweenClusters`): each handled hit list
      goes through the batcher into `cluster`. */
  /** One `processScrollHits` call of the transfer loop, with the running
      account of the hit lists handled so far. */
  method SendHandled(cluster: TargetCluster, index: string, hits: seq<Doc>,
                     ghost start: seq<BulkRequest>, ghost sent: seq<seq<Doc>>)
    requires cluster.bulkRequests == start + HandledRequests(index, sent)
    modifies cluster
    ensures cluster.bulkRequests == start + HandledRequests(index, sent + [hits])
    ensures cluster.indices == old(cluster.indices) + (if hits != [] then {index} else {})
    ensures cluster.createRequests == old(cluster.createRequests) && cluster.aliasPuts == old(cluster.aliasPuts)
  {
    BulkIndex(cluster, index, hits, MaxBulkSizeBytes, MaxBulkDocCount);
    HandledRequestsSnoc(index, sent, hits);
  }

  method DrainToCluster(cluster: TargetCluster, index: string, first: Page, pages: seq<Page>)
    returns (scrollCalls: seq<string>, scrollId: Option<string>)
    modifies cluster
    ensures cluster.bulkRequests == old(cluster.bulkRequests) + HandledRequests(index, AsWritten(first, pages).handled)
    ensures |scrollCalls| == AsWritten(first, pages).scrollCalls
    ensures forall k | 0 <= k < |scrollCalls| :: first.scrollId == Some(scrollCalls[k])
    ensures scrollId == AsWritten(first, pages).finalScrollId
    ensures cluster.indices == old(cluster.indices) + (if first.hits != [] then {index} else {})
    ensures cluster.createRequests == old(cluster.createRequests) && cluster.aliasPuts == old(cluster.aliasPuts)
  {
    ghost var total := AsWritten(first, pages);
    ghost var start := cluster.bulkRequests;
    ghost var sent: seq<seq<Doc>> := [];
    scrollCalls, scrollId := [], None;
    var hasMoreData := true;
    var j: nat := 0;
    while hasMoreData
      invariant j <= |pages| + 1 && (hasMoreData ==> j <= |pages|)
      invariant j == |scrollCalls|
      invariant j > 0 ==> FirstContinues(first)
      invariant forall k | 0 <= k < |scrollCalls| :: first.scrollId == Some(scrollCalls[k])
      invariant cluster.bulkRequests == start + HandledRequests(index, sent)
      invariant hasMoreData ==> sent + DrainFrom(first, pages, j).handled == total.handled
      invariant hasMoreData ==> j + DrainFrom(first, pages, j).scrollCalls == total.scrollCalls
      invariant hasMoreData ==> DrainFrom(first, pages, j).finalScrollId == total.finalScrollId
      invariant !hasMoreData ==> sent == total.handled && j == total.scrollCalls && scrollId == total.finalScrollId
      invariant hasMoreData || sent != []
      invariant hasMoreData && sent != [] ==> first.hits != []
      invariant cluster.indices == old(cluster.indices) + (if sent != [] && first.hits != [] then {index} else {})
      invariant cluster.createRequests == old(cluster.createRequests) && cluster.aliasPuts == old(cluster.aliasPuts)
      decreases |pages| + 1 - j, hasMoreData
    {
      DrainUnfold(first, pages, j);
      ghost var rest := DrainFrom(first, pages, j + 1).handled;
      ghost var sent0 := sent;
      var hits := first.hits;
      SendHandled(cluster, index, hits, start, sent);
      sent := sent + [hits];
      scrollId := first.scrollId;
      if scrollId.None? || hits == [] {
        hasMoreData := false;
      } else {
        scrollCalls := scrollCalls + [scrollId.value];
        var scrollResponse := PageAt(pages, j);
        j := j + 1;
        if scrollResponse.hits == [] {
          hasMoreData := false;
        } else {
          SendHandled(cluster, index, scrollResponse.hits, start, sent);
          sent := sent + [scrollResponse.hits];
          scrollId := scrollResponse.scrollId;
          if scrollId.None? {
            hasMoreData := false;
          } else {
            AppendAssoc(sent0, [hits], [scrollResponse.hits] + rest);
            AppendAssoc(sent0 + [hits], [scrollResponse.hits], rest);
          }
        }
      }
    }
  }

  // ---------------------------------------------------------------------------
  // The loop as evidently intended: the current page is replaced by each answer
  // ---------------------------------------------------------------------------

  /** The documents collected when each pass handles the latest answer instead
      of the first page; `j` scroll calls have been made before `current`. */
  function CorrectedFrom(current: Page, pages: seq<Page>, j: nat): seq<Doc>
    decreases |pages| - j
  {
    if current.scrollId.None? || current.hits == [] then current.hits
    else
      var p := PageAt(pages, j);
      if p.hits == [] then current.hits
      else if p.scrollId.None? then current.hits + p.hits
      else current.hits + CorrectedFrom(p, pages, j + 1)
  }

  function Corrected(first: Page, pages: seq<Page>): seq<Doc>
  {
    CorrectedFrom(first, pages, 0)
  }

  /** The loop with the fix: each pass handles the current page, and a
      scroll answer with hits becomes the current page. */
  method DrainCorrected(first: Page, pages: seq<Page>) returns (documents: seq<Doc>)
    ensures documents == Corrected(first, pages)
  {
    documents := [];
    var current := first;
    var hasMoreData := true;
    var j: nat := 0;
    while hasMoreData
      invariant hasMoreData ==> j <= |pages| && documents + CorrectedFrom(current, pages, j) == Corrected(first, pages)
      invariant !hasMoreData ==> documents == Corrected(first, pages)
      decreases if hasMoreData then |pages| + 1 - j else 0
    {
      ghost var before := documents;
      documents := documents + current.hits;
      if current.scrollId.None? || current.hits == [] {
        hasMoreData := false;
      } else {
        var p := PageAt(pages, j);
        j := j + 1;
        if p.hits == [] {
          hasMoreData := false;
        } else {
          AppendAssoc(before, current.hits, CorrectedFrom(p, pages, j));
          current := p;
        }
      }
    }
  }

  /** The hit lists of a sequence of pages. */
  function HitLists(ps: seq<Page>): (r: seq<seq<Doc>>)
    ensures |r| == |ps| && forall i | 0 <= i < |ps| :: r[i] == ps[i].hits
  {
    seq(|ps|, i requires 0 <= i < |ps| => ps[i].hits)
  }

  lemma {:induction false} CorrectedFromPrefix(current: Page, pages: seq<Page>, j: nat)
    requires j <= |pages|
    ensures exists n {:trigger pages[j..n]} ::
      j <= n <= |pages| && CorrectedFrom(current, pages, j) == Flatten(HitLists([current] + pages[j..n]))
    decreases |pages| - j
  {
    var p := PageAt(pages, j);
    if current.scrollId.None? || current.hits == [] || p.hits == [] {
      assert pages[j..j] == [] && [current] + pages[j..j] == [current];
      assert Flatten(HitLists([current])) == current.hits + Flatten(HitLists([current])[1..]);
    } else if p.scrollId.None? {
      var ps := [current] + pages[j..j + 1];
      assert ps == [current, p];
      assert HitLists(ps) == [current.hits, p.hits];
      assert Flatten(HitLists(ps)) == current.hits + Flatten(HitLists(ps)[1..]);
      assert Flatten(HitLists(ps)[1..]) == p.hits + Flatten(HitLists(ps)[2..]);
    } else {
      CorrectedFromPrefix(p, pages, j + 1);
      var n :| j + 1 <= n <= |pages| && CorrectedFrom(p, pages, j + 1) == Flatten(HitLists([p] + pages[j + 1..n]));
      var ps := [current] + pages[j..n];
      assert pages[j..n] == [p] + pages[j + 1..n];
      assert HitLists(ps)[1..] == HitLists([p] + pages[j + 1..n]);
      assert Flatten(HitLists(ps)) == current.hits + Flatten(HitLists(ps)[1..]);
    }
  }

  /** The intended drain collects each page the cursor serves exactly once,
      in order: the first page followed by a prefix of the scroll answers. */
  lemma CorrectedCollectsPrefix(first: Page, pages: seq<Page>)
    ensures exists n {:trigger pages[..n]} :: 0 <= n <= |pages| && Corrected(first, pages) == Flatten(HitLists([first] + pages[..n]))
  {
    CorrectedFromPrefix(first, pages, 0);
    var n :| 0 <= n <= |pages| && CorrectedFrom(first, pages, 0) == Flatten(HitLists([first] + pages[0..n]));
    assert pages[0..n] == pages[..n];
  }

  predicate DistinctIds(docs: seq<Doc>)
  {
    forall i, k | 0 <= i < k < |docs| :: docs[i].id != docs[k].id
  }

  lemma {:induction false} FlattenPrefix<T>(xss: seq<seq<T>>, n: nat)
    requires n <= |xss|
    ensures |Flatten(xss[..n])| <= |Flatten(xss)| && Flatten(xss[..n]) == Flatten(xss)[..|Flatten(xss[..n])|]
  {
    assert xss == xss[..n] + xss[n..];
    FlattenAppend(xss[..n], xss[n..]);
  }

  /** When the cursor never serves an id twice, the intended drain exports
      no id twice. */
  lemma CorrectedNoDuplicates(first: Page, pages: seq<Page>)
    requires DistinctIds(Flatten(HitLists([first] + pages)))
    ensures DistinctIds(Corrected(first, pages))
  {
    CorrectedCollectsPrefix(first, pages);
    var n :| 0 <= n <= |pages| && Corrected(first, pages) == Flatten(HitLists([first] + pages[..n]));
    var all := [first] + pages;
    assert [first] + pages[..n] == all[..n + 1];
    assert HitLists(all[..n + 1]) == HitLists(all)[..n + 1];
    FlattenPrefix(HitLists(all), n + 1);
  }

  /** Whenever the cursor serves a second page with an id, the loop as
      written collects the first page's hits a second time right after it. */
  lemma AsWrittenRepeatsFirstPage(first: Page, pages: seq<Page>)
    requires FirstContinues(first) && |pages| >= 1 && Continues(pages[0])
    ensures var docs := ExportedDocuments(first, pages); var n := |first.hits| + |pages[0].hits|;
      |docs| >= n + |first.hits| && docs[..n] == first.hits + pages[0].hits && docs[n..n + |first.hits|] == first.hits
  {
    var d := AsWritten(first, pages);
    var rest := DrainFrom(first, pages, 1);
    assert d.handled == [first.hits, pages[0].hits] + rest.handled;
    assert rest.handled[0] == first.hits;
    var docs := Flatten(d.handled);
    assert docs == first.hits + Flatten(d.handled[1..]);
    assert Flatten(d.handled[1..]) == pages[0].hits + Flatten(d.handled[2..]);
    assert d.handled[2..] == rest.handled;
    assert Flatten(rest.handled) == first.hits + Flatten(rest.handled[1..]);
    assert docs == first.hits + pages[0].hits + first.hits + Flatten(rest.handled[1..]);
  }

  /** A concrete cursor: a first page with document a and id "s", and one
      scroll answer with document b and the same id. The loop as written
      exports a, b, a (and scrolls twice); the intended loop exports a, b. */
  lemma DuplicateExample(a: Doc, b: Doc)
    ensures var first := Page([a], Some("s")); var pages := [Page([b], Some("s"))];
      ExportedDocuments(first, pages) == [a, b, a]
      && AsWritten(first, pages).scrollCalls == 2
      && Corrected(first, pages) == [a, b]
  {
    var first := Page([a], Some("s"));
    var pages := [Page([b], Some("s"))];
    var rest := DrainFrom(first, pages, 1);
    assert PageAt(pages, 1).hits == [];
    assert rest.handled == [[a]];
    assert AsWritten(first, pages).handled == [[a], [b], [a]];
    assert Flatten([[a], [b], [a]]) == [a] + Flatten([[b], [a]]);
    assert Flatten([[b], [a]]) == [b] + Flatten([[a]]);
    assert Flatten([[a]]) == [a] + Flatten([]);
    assert CorrectedFrom(Page([b], Some("s")), pages, 1) == [b];
  }
}
