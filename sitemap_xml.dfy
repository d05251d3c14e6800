/** The pieces every sitemap handler shares: the Sitemaps XML protocol 0.9
    document (`urlset` of `url` entries, or `sitemapindex` of `sitemap`
    entries) written exactly as the handlers' template literals write it, the
    HTTP response they send, and the `.range(from, to)` row window of the data
    service. */
module SitemapXml {
  import opened Base
  import opened Catalog

  const SiteBase: string := "https://biletaavioni.himatravel.com"
  const Prolog: string := "<?xml version=\"1.0\" encoding=\"UTF-8\"?>"
  const Namespace: string := "http://www.sitemaps.org/schemas/sitemap/0.9"

  /** An entry element and its child elements (tag, text), in document order. */
  datatype Element = Element(name: string, children: seq<(string, string)>)

  /** `<url>` with `loc`, `changefreq` and `priority` children. */
  function UrlEntry(loc: string, changefreq: string, priority: string): Element
  {
    Element("url", [("loc", loc), ("changefreq", changefreq), ("priority", priority)])
  }

  /** The entry `api/sitemap.ts` and `api/sitemap-page.js` write for a route;
      `${route.template_url}` prints a null URL as "null". */
  function RouteUrlEntry(url: Option<string>): Element
  {
    UrlEntry(SiteBase + Interp(url), "daily", "0.8")
  }

  function RouteUrlEntries(routes: seq<Connection>): (r: seq<Element>)
    ensures |r| == |routes|
    ensures forall i :: 0 <= i < |r| ==> r[i] == RouteUrlEntry(routes[i].templateUrl)
  {
    seq(|routes|, i requires 0 <= i < |routes| => RouteUrlEntry(routes[i].templateUrl))
  }

  /** Mapping routes to entries commutes with concatenation. */
  lemma RouteUrlEntriesAppend(a: seq<Connection>, b: seq<Connection>)
    ensures RouteUrlEntries(a + b) == RouteUrlEntries(a) + RouteUrlEntries(b)
  {
  }

  // ---- the text of a document ---------------------------------------------

  function ChildXml(c: (string, string)): string
  {
    "\n    <" + c.0 + ">" + c.1 + "</" + c.0 + ">"
  }

  function ChildrenXml(cs: seq<(string, string)>): string
    decreases |cs|
  {
    if cs == [] then "" else ChildXml(cs[0]) + ChildrenXml(cs[1..])
  }

  function ElementXml(e: Element): string
  {
    "\n  <" + e.name + ">" + ChildrenXml(e.children) + "\n  </" + e.name + ">"
  }

  /** `entries.map(e => `...`).join('')`. */
  function ElementsXml(es: seq<Element>): string
    decreases |es|
  {
    if es == [] then "" else ElementXml(es[0]) + ElementsXml(es[1..])
  }

  /** The entries are written one after another: the text of a concatenation is
      the concatenation of the texts. */
  lemma {:induction false} ElementsXmlAppend(a: seq<Element>, b: seq<Element>)
    ensures ElementsXml(a + b) == ElementsXml(a) + ElementsXml(b)
    decreases |a|
  {
    if a == [] {
      assert a + b == b;
    } else {
      ElementsXmlAppend(a[1..], b);
      assert (a + b)[0] == a[0];
      assert (a + b)[1..] == a[1..] + b;
      var x, y, z := ElementXml(a[0]), ElementsXml(a[1..]), ElementsXml(b);
      assert x + (y + z) == (x + y) + z;
    }
  }

  /** The whole document: the prolog, the root element with the protocol's
      namespace, the entries written out literally in the template, then the
      mapped entries after a line break and two spaces. */
  function Document(root: string, fixed: seq<Element>, mapped: seq<Element>): string
  {
    Prolog + "\n<" + root + " xmlns=\"" + Namespace + "\">" + ElementsXml(fixed)
    + "\n  " + ElementsXml(mapped) + "\n</" + root + ">"
  }

  // ---- the response -------------------------------------------------------

  /** What a handler sends: the status, the headers in the order they are set,
      and the body. */
  datatype Response = Response(status: int, headers: seq<(string, string)>, body: string)

  const XmlHeader: (string, string) := ("Content-Type", "application/xml")
  const HourCacheHeader: (string, string) := ("Cache-Control", "public, max-age=3600, s-maxage=3600")

  // ---- the row window -----------------------------------------------------

  function Clamp(x: int, n: nat): (r: nat)
    ensures r <= n
    ensures 0 <= x <= n ==> r == x
  {
    if x < 0 then 0 else if x > n then n else x
  }

  /** `.range(from, to)`: the rows with index `from` to `to` inclusive that
      exist, in order. */
  function RangeRows<T>(rows: seq<T>, from: int, to: int): (r: seq<T>)
    ensures 0 <= from <= to + 1 <= |rows| ==> r == rows[from..to + 1]
    ensures 0 <= from <= |rows| <= to + 1 ==> r == rows[from..]
    ensures |rows| <= from ==> r == []
  {
    var lo := Clamp(from, |rows|);
    var hi := Clamp(to + 1, |rows|);
    if lo <= hi then rows[lo..hi] else []
  }
}
