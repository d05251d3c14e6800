/** `api/sitemap-index.js`: the sitemap index, a fixed list of eight shard
    URLs that reads no data and ignores the request. */
module SitemapIndex {
  import opened Base
  import opened Strings
  import opened Catalog
  import opened SitemapXml
  import opened SitemapPage

  const TotalPages: nat := 8

  /** The `loc` of entry `i` (0-based): the shard page `i + 1`. */
  function ShardLoc(i: nat): string
  {
    SiteBase + "/sitemaps/page-" + NatToString(i + 1) + ".xml"
  }

  function IndexEntry(i: nat): Element
  {
    Element("sitemap", [("loc", ShardLoc(i))])
  }

  function IndexEntries(): (r: seq<Element>)
    ensures |r| == TotalPages
    ensures forall i :: 0 <= i < |r| ==> r[i] == IndexEntry(i)
  {
    seq(TotalPages, i requires 0 <= i < TotalPages => IndexEntry(i))
  }

  /** `handler(req, res)`: there is no input, so the response is a constant. */
  function SitemapIndex(): (r: Response)
    ensures r.status == 200 && r.headers == [("Content-Type", "application/xml")]
  {
    Response(200, [XmlHeader], Document("sitemapindex", [], IndexEntries()))
  }

  /** The eight entries name eight different pages. */
  lemma ShardLocsDistinct(i: nat, j: nat)
    requires ShardLoc(i) == ShardLoc(j)
    ensures i == j
  {
    var prefix := SiteBase + "/sitemaps/page-";
    var a := NatToString(i + 1);
    var b := NatToString(j + 1);
    assert ShardLoc(i) == prefix + a + ".xml";
    assert ShardLoc(j) == prefix + b + ".xml";
    assert |a| == |b|;
    assert a == ShardLoc(i)[|prefix|..|prefix| + |a|];
    assert b == ShardLoc(j)[|prefix|..|prefix| + |b|];
    NatToStringInjective(i + 1, j + 1);
  }

  /** The first entry is page-1. */
  lemma IndexNamesPageOne()
    ensures ShardLoc(0) == "https://biletaavioni.himatravel.com/sitemaps/page-1.xml"
  {
    assert NatToString(0 + 1) == "1";
  }

  /** The last entry is page-8. */
  lemma IndexNamesPageEight()
    ensures ShardLoc(TotalPages - 1) == "https://biletaavioni.himatravel.com/sitemaps/page-8.xml"
  {
    assert NatToString(8) == "8";
  }

  /** The pages the index names serve every route exactly when there are at
      most 80000 of them; routes past row 80000 are in no listed page. */
  lemma IndexCoversCatalogIffSmall(table: seq<Connection>)
    ensures Shards(ActiveRoutes(table), TotalPages) == ActiveRoutes(table) <==> |ActiveRoutes(table)| <= 80000
  {
    var catalog := ActiveRoutes(table);
    ShardsArePrefix(catalog, TotalPages);
    if |catalog| > 80000 {
      assert |Shards(catalog, TotalPages)| == 80000;
    }
  }
}
