/** `api/sitemap-page.js`: one shard of the sitemap. Page `p` (1 when the
    parameter is missing) lists the routes in rows `(p - 1) * 10000` to
    `p * 10000 - 1`, with no static pages and no cache header. */
module SitemapPage {
  import opened Base
  import opened Catalog
  import opened SitemapXml

  const ShardSize: nat := 10000

  /** `parseInt(req.query.page || '1', 10)` for a parameter that is missing,
      empty or a decimal integer. */
  function PageNumber(param: Option<int>): (p: int)
    ensures param.None? ==> p == 1
    ensures param.Some? ==> p == param.value
  {
    if param.None? then 1 else param.value
  }

  function FromRow(page: int): int
  {
    (page - 1) * ShardSize
  }

  function ToRow(page: int): int
  {
    FromRow(page) + ShardSize - 1
  }

  /** The rows page `page` reads. */
  function Shard(catalog: seq<Connection>, page: int): seq<Connection>
  {
    RangeRows(catalog, FromRow(page), ToRow(page))
  }

  function Min(a: int, b: int): int
  {
    if a <= b then a else b
  }

  /** Page `p` is the window of 10000 rows that starts at row `(p - 1) * 10000`. */
  lemma ShardWindow(catalog: seq<Connection>, page: int)
    requires page >= 1
    ensures FromRow(page) >= 0 && ToRow(page) - FromRow(page) + 1 == ShardSize
    ensures Shard(catalog, page) ==
            catalog[Min(FromRow(page), |catalog|)..Min(page * ShardSize, |catalog|)]
  {
  }

  /** Pages `p` and `p + 1` are adjacent, disjoint windows. */
  lemma ShardsAdjacent(catalog: seq<Connection>, page: int)
    requires page >= 1
    ensures FromRow(page + 1) == ToRow(page) + 1
    ensures Shard(catalog, page) + Shard(catalog, page + 1) == RangeRows(catalog, FromRow(page), ToRow(page + 1))
  {
    ShardWindow(catalog, page);
    ShardWindow(catalog, page + 1);
    var a := Min(FromRow(page), |catalog|);
    var b := Min(page * ShardSize, |catalog|);
    var c := Min((page + 1) * ShardSize, |catalog|);
    assert catalog[a..b] + catalog[b..c] == catalog[a..c];
  }

  /** Pages 1 to `count`, concatenated in order. */
  function Shards(catalog: seq<Connection>, count: nat): seq<Connection>
  {
    if count == 0 then [] else Shards(catalog, count - 1) + Shard(catalog, count)
  }

  /** Pages 1 to `count` together are the first `count * 10000` rows, each once. */
  lemma {:induction false} ShardsArePrefix(catalog: seq<Connection>, count: nat)
    ensures Shards(catalog, count) == catalog[..Min(count * ShardSize, |catalog|)]
  {
    if count > 0 {
      ShardsArePrefix(catalog, count - 1);
      ShardWindow(catalog, count);
      var lo := Min((count - 1) * ShardSize, |catalog|);
      var hi := Min(count * ShardSize, |catalog|);
      assert catalog[..lo] + catalog[lo..hi] == catalog[..hi];
    }
  }

  /** The response of `handler` for a connection table, the page parameter and
      whether the query fails. */
  function SitemapPage(table: seq<Connection>, param: Option<int>, queryFails: bool): (r: Response)
    ensures queryFails <==> r.status == 500
  {
    if queryFails then Response(500, [], "Error fetching data")
    else
      var rows := Shard(ActiveRoutes(table), PageNumber(param));
      Response(200, [XmlHeader], Document("urlset", [], RouteUrlEntries(rows)))
  }

  /** A missing page parameter serves page 1. */
  lemma MissingPageIsFirst(table: seq<Connection>, queryFails: bool)
    ensures SitemapPage(table, None, queryFails) == SitemapPage(table, Some(1), queryFails)
  {
  }

  /** A served page lists exactly the routes of its window, in order, and sets
      only the content type. */
  lemma PageListsItsWindow(table: seq<Connection>, page: int)
    requires page >= 1
    ensures var catalog := ActiveRoutes(table);
            var rows := catalog[Min(FromRow(page), |catalog|)..Min(page * ShardSize, |catalog|)];
            var r := SitemapPage(table, Some(page), false);
            && r.headers == [("Content-Type", "application/xml")]
            && r.body == Document("urlset", [], RouteUrlEntries(rows))
            && |RouteUrlEntries(rows)| == |rows| <= ShardSize
  {
    ShardWindow(ActiveRoutes(table), page);
  }

  /** A page past the end of the catalog is an empty `urlset`, not an error. */
  lemma PagePastEndIsEmpty(table: seq<Connection>, page: int)
    requires page >= 1 && FromRow(page) >= |ActiveRoutes(table)|
    ensures SitemapPage(table, Some(page), false) == Response(200, [XmlHeader], Document("urlset", [], []))
  {
  }
}
