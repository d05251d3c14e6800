/** `api/fresh-sitemap.js`: the full sitemap. The active routes are read in
    batches of 1000 rows until a batch comes back short, then written after the
    five static pages; a failed batch ends the request with a 500. */
module FreshSitemap {
  import opened Base
  import opened Catalog
  import opened SitemapXml

  const PageSize: nat := 1000

  /** The five pages written into the template before the routes. */
  const StaticEntries: seq<Element> := [
    UrlEntry(SiteBase, "daily", "1.0"),
    UrlEntry(SiteBase + "/about", "monthly", "0.6"),
    UrlEntry(SiteBase + "/contact", "monthly", "0.6"),
    UrlEntry(SiteBase + "/privacy", "monthly", "0.4"),
    UrlEntry(SiteBase + "/terms", "monthly", "0.4") ]

  /** The entry of one route; `day` is the date part of the request time. */
  function RouteEntry(url: string, day: string): Element
  {
    Element("url", [("loc", SiteBase + url), ("changefreq", "daily"), ("priority", "0.8"), ("lastmod", day)])
  }

  function RouteEntries(routes: seq<Connection>, day: string): (r: seq<Element>)
    requires forall i :: 0 <= i < |routes| ==> routes[i].templateUrl.Some?
    ensures |r| == |routes|
    ensures forall i :: 0 <= i < |r| ==> r[i] == RouteEntry(routes[i].templateUrl.value, day)
  {
    seq(|routes|, i requires 0 <= i < |routes| => RouteEntry(routes[i].templateUrl.value, day))
  }

  // ---- the batches --------------------------------------------------------

  /** Batch `k`: `.range(k * 1000, (k + 1) * 1000 - 1)` over the rows the query
      sees (active, with a URL, in the service's order). */
  function Batch(catalog: seq<Connection>, k: nat): seq<Connection>
  {
    RangeRows(catalog, k * PageSize, (k + 1) * PageSize - 1)
  }

  /** The index of the batch that comes back short and ends the loop. */
  function LastPage(n: nat): nat
  {
    n / PageSize
  }

  /** The first `count` batches, concatenated in order. */
  function Batches(catalog: seq<Connection>, count: nat): seq<Connection>
  {
    if count == 0 then [] else Batches(catalog, count - 1) + Batch(catalog, count - 1)
  }

  /** A batch is full exactly when the catalog reaches past its end. */
  lemma BatchSize(catalog: seq<Connection>, k: nat)
    ensures (k + 1) * PageSize <= |catalog| ==> |Batch(catalog, k)| == PageSize
    ensures (k + 1) * PageSize > |catalog| ==> |Batch(catalog, k)| < PageSize
    ensures k * PageSize <= |catalog| ==> Batch(catalog, k) == catalog[k * PageSize..Min((k + 1) * PageSize, |catalog|)]
  {
  }

  function Min(a: int, b: int): int
  {
    if a <= b then a else b
  }

  /** Every batch before the last is full and the last is short, so the loop
      makes `|catalog| / 1000 + 1` queries. */
  lemma OnlyLastBatchShort(catalog: seq<Connection>, k: nat)
    ensures k < LastPage(|catalog|) ==> |Batch(catalog, k)| == PageSize
    ensures k == LastPage(|catalog|) ==> |Batch(catalog, k)| < PageSize
  {
    BatchSize(catalog, k);
    if k < LastPage(|catalog|) {
      assert (k + 1) * PageSize <= LastPage(|catalog|) * PageSize <= |catalog|;
    }
  }

  /** One turn of the loop: a batch that starts inside the catalog is read
      before the short one, and only the short one ends the loop. */
  lemma LoopStep(catalog: seq<Connection>, page: nat)
    requires page * PageSize <= |catalog|
    ensures page <= LastPage(|catalog|)
    ensures |Batch(catalog, page)| == PageSize ==> (page + 1) * PageSize <= |catalog|
    ensures |Batch(catalog, page)| != PageSize ==> page == LastPage(|catalog|)
  {
    BatchSize(catalog, page);
    OnlyLastBatchShort(catalog, page);
  }

  /** Consecutive batches are adjacent, disjoint windows: the first `count`
      batches are the first `count * 1000` rows. */
  lemma {:induction false} BatchesArePrefix(catalog: seq<Connection>, count: nat)
    ensures Batches(catalog, count) == catalog[..Min(count * PageSize, |catalog|)]
  {
    if count > 0 {
      BatchesArePrefix(catalog, count - 1);
      BatchSize(catalog, count - 1);
      var lo := Min((count - 1) * PageSize, |catalog|);
      var hi := Min(count * PageSize, |catalog|);
      if (count - 1) * PageSize <= |catalog| {
        assert catalog[..lo] + catalog[lo..hi] == catalog[..hi];
      } else {
        assert Batch(catalog, count - 1) == [];
      }
    }
  }

  /** All the batches the loop reads add up to the whole catalog, in order. */
  lemma BatchesCoverCatalog(catalog: seq<Connection>)
    ensures Batches(catalog, LastPage(|catalog|) + 1) == catalog
  {
    BatchesArePrefix(catalog, LastPage(|catalog|) + 1);
    assert (LastPage(|catalog|) + 1) * PageSize > |catalog|;
  }

  // ---- the handler --------------------------------------------------------

  /** Some batch the loop reads fails; `failing` holds the batch indices whose
      query errs. */
  predicate FailsWithin(failing: set<nat>, last: nat)
  {
    exists k :: 0 <= k <= last && k in failing
  }

  const ErrorResponse: Response := Response(500, [], "Error generating sitemap")

  /** The response of `handler` for a connection table, the failing batches and
      the day of the request. */
  function Sitemap(table: seq<Connection>, failing: set<nat>, day: string): (r: Response)
    ensures r.status == 200 || r == ErrorResponse
  {
    var catalog := ActiveRoutes(table);
    if FailsWithin(failing, LastPage(|catalog|)) then ErrorResponse
    else Response(200, [XmlHeader, HourCacheHeader], Document("urlset", StaticEntries, RouteEntries(catalog, day)))
  }

  /** `handler(req, res)`: the `while (hasMore)` loop over the batches, then
      the document. */
  method Handler(table: seq<Connection>, failing: set<nat>, day: string) returns (res: Response)
    ensures res == Sitemap(table, failing, day)
  {
    var catalog := ActiveRoutes(table);
    var allRoutes: seq<Connection> := [];
    var page: nat := 0;
    var hasMore := true;
    while hasMore
      invariant allRoutes == Batches(catalog, page)
      invariant hasMore ==> page * PageSize <= |catalog|
      invariant !hasMore ==> page == LastPage(|catalog|) + 1
      invariant forall k :: 0 <= k < page ==> k !in failing
      decreases LastPage(|catalog|) + 1 - page
    {
      LoopStep(catalog, page);
      if page in failing {
        assert FailsWithin(failing, LastPage(|catalog|));
        return ErrorResponse;
      }
      var routes := Batch(catalog, page);
      allRoutes := allRoutes + routes;
      hasMore := |routes| == PageSize;
      page := page + 1;
    }
    BatchesCoverCatalog(catalog);
    res := Response(200, [XmlHeader, HourCacheHeader], Document("urlset", StaticEntries, RouteEntries(allRoutes, day)));
  }

  // ---- properties of the response -----------------------------------------

  /** Without failures the sitemap lists the five static pages, then one entry
      per active route, in the service's order. */
  lemma SitemapListsEveryRoute(table: seq<Connection>, failing: set<nat>, day: string)
    requires forall k :: k in failing ==> k > LastPage(|ActiveRoutes(table)|)
    ensures var catalog := ActiveRoutes(table);
            var r := Sitemap(table, failing, day);
            && r.status == 200
            && r.headers == [("Content-Type", "application/xml"), ("Cache-Control", "public, max-age=3600, s-maxage=3600")]
            && r.body == Document("urlset", StaticEntries, RouteEntries(catalog, day))
            && |RouteEntries(catalog, day)| == |catalog|
            && forall i :: 0 <= i < |catalog| ==>
                 RouteEntries(catalog, day)[i].children[0] == ("loc", SiteBase + catalog[i].templateUrl.value)
  {
  }

  /** A failure in any batch that is read gives the 500 response. */
  lemma FailedBatchGives500(table: seq<Connection>, failing: set<nat>, day: string, k: nat)
    requires k in failing && k <= LastPage(|ActiveRoutes(table)|)
    ensures Sitemap(table, failing, day) == Response(500, [], "Error generating sitemap")
  {
  }

  /** A failure configured for a batch after the short one is never seen. */
  lemma LaterFailureUnseen(table: seq<Connection>, day: string, k: nat)
    requires k > LastPage(|ActiveRoutes(table)|)
    ensures Sitemap(table, {k}, day).status == 200
  {
  }
}
