/** `api/sitemap.ts`: the single-query sitemap. One static entry for the home
    page, then one entry per active route. */
module SitemapSingle {
  import opened Base
  import opened Catalog
  import opened SitemapXml

  const HomeEntry: Element := UrlEntry(SiteBase, "daily", "1.0")

  /** What the query answers when it succeeds on a table: the active routes
      with a URL, in the service's order. */
  function RoutesQuery(table: seq<Connection>): Result<Option<seq<Connection>>>
  {
    Ok(Some(ActiveRoutes(table)))
  }

  /** The response of `handler` for the query's answer; `None` is a null
      `data`. */
  function Sitemap(answer: Result<Option<seq<Connection>>>): (r: Response)
    ensures answer.Err? <==> r == Response(500, [], "Error generating sitemap")
    ensures answer.Ok? ==> r.status == 200 && r.headers == [XmlHeader, HourCacheHeader]
  {
    match answer
    case Err(_) => Response(500, [], "Error generating sitemap")
    case Ok(data) =>
      var routes := if data.Some? then data.value else [];
      Response(200, [XmlHeader, HourCacheHeader], Document("urlset", [HomeEntry], RouteUrlEntries(routes)))
  }

  /** A null answer is an empty route list. */
  lemma NullDataIsNoRoutes()
    ensures Sitemap(Ok(None)) == Sitemap(Ok(Some([])))
  {
  }

  /** The home page first, then exactly one entry per active route, in order. */
  lemma ListsEveryActiveRoute(table: seq<Connection>)
    ensures var routes := ActiveRoutes(table);
            && Sitemap(RoutesQuery(table)).body == Document("urlset", [HomeEntry], RouteUrlEntries(routes))
            && |RouteUrlEntries(routes)| == |routes|
            && forall i :: 0 <= i < |routes| ==>
                 RouteUrlEntries(routes)[i] == UrlEntry(SiteBase + routes[i].templateUrl.value, "daily", "0.8")
  {
  }
}
