/** The rows of the location/route catalog that the SEO pages, the sitemaps and
    the home page read. Every field the source declares `string | null` is an
    `Option<string>`. */
module Catalog {
  import opened Base

  /** A location as joined into a connection row (`from_location`, `to_location`).
      `kind` is the row's `type` column ('city' or 'state'); `ngaFormat` and
      `perFormat` are the prewritten "from X" / "to X" phrases. */
  datatype Location = Location(
    id: string,
    kind: string,
    city: Option<string>,
    state: string,
    ngaFormat: Option<string>,
    perFormat: Option<string>)

  /** The two endpoints of a resolved connection. */
  datatype LocationData = LocationData(fromLocation: Location, toLocation: Location)

  datatype TemplateType = TemplateType(id: string, name: string, slug: string)

  /** A row of `seo_location_connections` with its joins resolved. */
  datatype Connection = Connection(
    id: string,
    templateUrl: Option<string>,
    status: string,
    fromLocation: Location,
    toLocation: Location,
    templateType: TemplateType)

  predicate IsActive(c: Connection)
  {
    c.status == "active"
  }

  /** `.eq('status', 'active').not('template_url', 'is', null)`: the rows every
      sitemap and the home page list, in the order the service returns them. */
  function ActiveRoutes(table: seq<Connection>): (r: seq<Connection>)
    ensures forall i :: 0 <= i < |r| ==> IsActive(r[i]) && r[i].templateUrl.Some? && r[i] in table
    ensures forall i :: 0 <= i < |table| && IsActive(table[i]) && table[i].templateUrl.Some? ==> table[i] in r
    ensures |r| <= |table|
    decreases |table|
  {
    if table == [] then []
    else
      var rest := ActiveRoutes(table[1..]);
      assert table == [table[0]] + table[1..];
      if IsActive(table[0]) && table[0].templateUrl.Some? then [table[0]] + rest else rest
  }

  /** The listing keeps the table's order and multiplicity: listing two parts
      of a table in sequence is listing the whole. */
  lemma {:induction false} ActiveRoutesAppend(a: seq<Connection>, b: seq<Connection>)
    ensures ActiveRoutes(a + b) == ActiveRoutes(a) + ActiveRoutes(b)
    decreases |a|
  {
    if a == [] {
      assert a + b == b;
    } else {
      assert (a + b)[1..] == a[1..] + b;
      ActiveRoutesAppend(a[1..], b);
    }
  }

  /** A one-row table is listed exactly when the row is active and has a page. */
  lemma ActiveRoutesSingle(c: Connection)
    ensures ActiveRoutes([c]) == if IsActive(c) && c.templateUrl.Some? then [c] else []
  {
    assert [c][1..] == [];
  }

  /** The `template_url` of each listed route, in order. */
  function Urls(routes: seq<Connection>): (r: seq<string>)
    requires forall i :: 0 <= i < |routes| ==> routes[i].templateUrl.Some?
    ensures |r| == |routes|
    ensures forall i :: 0 <= i < |r| ==> r[i] == routes[i].templateUrl.value
  {
    seq(|routes|, i requires 0 <= i < |routes| => routes[i].templateUrl.value)
  }
}
