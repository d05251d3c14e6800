/** `fetchPageData` of the SEO route page and the screen the page then shows:
    the connection for the request path, the IATA codes and prices of the route,
    the template and its components, each step setting part of the page state,
    and the first failure ending the load with an error message. */
module SeoPage {
  import opened Base
  import opened Collections
  import opened Catalog
  import opened Placeholders
  import opened RouteResolver
  import opened PageAssembler

  /** A row of `seo_page_templates`. */
  datatype TemplateRow = TemplateRow(id: string, templateTypeId: string, seoTitle: string, metaDescription: string)

  /** What each query of the load returns. Both IATA lookups read the same
      `airports` outcome; `noSingleRow` is what `.single()` reports when the
      template query does not match exactly one row. */
  datatype Db = Db(
    connections: Result<seq<Connection>>,
    airports: Result<seq<Airport>>,
    prices: Result<seq<PriceRow>>,
    templates: Result<seq<TemplateRow>>,
    components: Result<seq<ComponentRow>>,
    noSingleRow: Failure)

  const NotFoundMessage: string := "Page data not found"
  const PriceTitleText: string := "{nga_city} {per_state}"

  /** `err instanceof Error ? err.message : 'Failed to load page'`. */
  function ErrorText(f: Failure): (r: string)
    ensures f.isErrorInstance ==> r == f.message
    ensures !f.isErrorInstance ==> r == "Failed to load page"
  {
    if f.isErrorInstance then f.message else "Failed to load page"
  }

  /** The connection query; a failed query finds nothing. */
  function FindConnection(db: Db, path: string): (r: Option<Catalog.Connection>)
    ensures db.connections.Err? ==> r.None?
    ensures r.Some? ==> r.value in db.connections.value && IsActive(r.value)
  {
    if db.connections.Err? then None
    else Resolve(db.connections.value, path)
  }

  function Projected(rows: seq<PriceRow>): (r: seq<FlightPrice>)
    ensures |r| == |rows|
    ensures forall i :: 0 <= i < |r| ==>
              r[i] == FlightPrice(rows[i].airline, rows[i].flightDate, rows[i].totalPrice)
  {
    seq(|rows|, i requires 0 <= i < |rows| => FlightPrice(rows[i].airline, rows[i].flightDate, rows[i].totalPrice))
  }

  /** The row test of `.eq('template_type_id', id)`. */
  function OfType(typeId: string): TemplateRow -> bool
  {
    (t: TemplateRow) => t.templateTypeId == typeId
  }

  /** `.from('seo_page_templates').eq('template_type_id', id).single()`: a row
      exactly when one row matches, and that row. */
  function TemplateFor(db: Db, typeId: string): (r: Result<TemplateRow>)
    ensures db.templates.Err? ==> r == Err(db.templates.failure)
    ensures r.Ok? <==> db.templates.Ok? && |Filter(db.templates.value, OfType(typeId))| == 1
    ensures r.Ok? ==> r.value in db.templates.value && r.value.templateTypeId == typeId
  {
    match db.templates
    case Err(f) => Err(f)
    case Ok(rows) =>
      var matches := Filter(rows, OfType(typeId));
      if |matches| == 1 then
        assert matches[0] in rows by {
          FilterSubset(rows, OfType(typeId), 0);
        }
        Ok(matches[0])
      else Err(db.noSingleRow)
  }

  /** Two matching rows make `.single()` fail. */
  lemma TemplateForTwoMatchesFails(db: Db, typeId: string, i: nat, j: nat)
    requires db.templates.Ok? && i < j < |db.templates.value|
    requires db.templates.value[i].templateTypeId == typeId && db.templates.value[j].templateTypeId == typeId
    ensures TemplateFor(db, typeId) == Err(db.noSingleRow)
  {
    var rows := db.templates.value;
    var a, b := rows[..i + 1], rows[i + 1..];
    assert rows == a + b;
    FilterAppend(a, b, OfType(typeId));
    assert a[i] == rows[i] && b[j - i - 1] == rows[j];
    FilterComplete(a, OfType(typeId), i);
    FilterComplete(b, OfType(typeId), j - i - 1);
  }

  /** The row test of `.eq('template_id', id).eq('status', 'active')`. */
  function ShownIn(templateId: string): ComponentRow -> bool
  {
    (c: ComponentRow) => c.templateId == templateId && c.status == "active"
  }

  /** `.eq('template_id', id).eq('status', 'active').order('display_order')`:
      the matching rows, each as often as in the table, sorted; rows with the
      same order keep the table's order. */
  function ComponentsFor(db: Db, templateId: string): (r: Result<seq<ComponentRow>>)
    ensures db.components.Err? ==> r == Err(db.components.failure)
    ensures r.Ok? ==> SortedBy(r.value, DisplayOrder)
    ensures r.Ok? ==> multiset(r.value) == multiset(Filter(db.components.value, ShownIn(templateId)))
    ensures r.Ok? ==> forall i :: 0 <= i < |r.value| ==>
              r.value[i].templateId == templateId && r.value[i].status == "active"
  {
    match db.components
    case Err(f) => Err(f)
    case Ok(rows) =>
      var keep := ShownIn(templateId);
      SortedFilterKeeps(rows, DisplayOrder, keep);
      Ok(SortBy(Filter(rows, keep), DisplayOrder))
  }

  /** Every active component of the template is loaded. */
  lemma ComponentsForComplete(db: Db, templateId: string, j: nat)
    requires db.components.Ok? && j < |db.components.value|
    requires db.components.value[j].templateId == templateId && db.components.value[j].status == "active"
    ensures ComponentsFor(db, templateId).Ok?
    ensures db.components.value[j] in ComponentsFor(db, templateId).value
  {
    FilterComplete(db.components.value, ShownIn(templateId), j);
    var r := ComponentsFor(db, templateId).value;
    assert db.components.value[j] in multiset(r);
  }

  // ---- the page state -----------------------------------------------------

  datatype PageState = PageState(
    loading: bool,
    error: Option<string>,
    templateData: Option<TemplateData>,
    components: seq<ComponentRow>,
    locationData: Option<LocationData>,
    flightPrices: seq<FlightPrice>,
    priceTitle: Option<string>)

  const Initial: PageState := PageState(true, None, None, [], None, [], None)

  /** Ends a load at a thrown failure: the fields set so far stay set. */
  function Failed(s: PageState, f: Failure): PageState
  {
    s.(error := Some(ErrorText(f)), loading := false)
  }

  /** The IATA codes of both ends of a connection. */
  function Codes(db: Db, c: Catalog.Connection): (Option<string>, Option<string>)
  {
    (GetIataCode(c.fromLocation.city, db.airports), GetIataCode(c.toLocation.city, db.airports))
  }

  /** The price step: when both cities have a code, the prices of the route
      are stored, or the price query's failure is thrown; otherwise nothing. */
  function Priced(located: PageState, db: Db, c: Catalog.Connection): (r: Result<PageState>)
    ensures r.Ok? ==> r.value.(flightPrices := located.flightPrices) == located
  {
    var (fromIata, toIata) := Codes(db, c);
    if fromIata.Some? && toIata.Some? then
      match db.prices
      case Err(f) => Err(f)
      case Ok(rows) => Ok(located.(flightPrices := Projected(PriceQuery(rows, fromIata.value, toIata.value))))
    else Ok(located)
  }

  /** The template and component steps, then the expanded texts; the first
      failing query ends the load. */
  function Templated(p: PageState, db: Db, c: Catalog.Connection, d: LocationData): (r: PageState)
    ensures !r.loading
    ensures r.flightPrices == p.flightPrices && r.locationData == p.locationData
  {
    match TemplateFor(db, c.templateType.id)
    case Err(f) => Failed(p, f)
    case Ok(t) => WithComponents(p, db, t, c, d)
  }

  /** The component step for the template found, then the expanded texts. */
  function WithComponents(p: PageState, db: Db, t: TemplateRow, c: Catalog.Connection, d: LocationData): (r: PageState)
    ensures !r.loading
    ensures r.flightPrices == p.flightPrices && r.locationData == p.locationData
  {
    match ComponentsFor(db, t.id)
    case Err(f) => Failed(p, f)
    case Ok(rows) =>
      p.(priceTitle := Some(ReplacePlaceholders(PriceTitleText, d)),
         templateData := Some(TemplateData(ReplacePlaceholders(t.seoTitle, d),
                                           ReplacePlaceholders(t.metaDescription, d),
                                           c.templateType)),
         components := rows,
         loading := false)
  }

  /** The state after `fetchPageData` ran on `s`: the specification the method
      below is proved against. */
  function Fetched(s: PageState, path: string, db: Db): (r: PageState)
    ensures !r.loading
  {
    var started := s.(loading := true, error := None);
    match FindConnection(db, path)
    case None => started.(error := Some(NotFoundMessage), loading := false)
    case Some(c) =>
      var d := LocationData(c.fromLocation, c.toLocation);
      var located := started.(locationData := Some(d));
      match Priced(located, db, c)
      case Err(f) => Failed(located, f)
      case Ok(p) => Templated(p, db, c, d)
  }

  // ---- the component ------------------------------------------------------

  class SeoPageComponent {
    var loading: bool
    var error: Option<string>
    var templateData: Option<TemplateData>
    var components: seq<ComponentRow>
    var locationData: Option<LocationData>
    var flightPrices: seq<FlightPrice>
    var priceTitle: Option<string>

    function State(): PageState
      reads this
    {
      PageState(loading, error, templateData, components, locationData, flightPrices, priceTitle)
    }

    /** The `useState` initial values. */
    constructor()
      ensures State() == Initial
    {
      loading := true;
      error := None;
      templateData := None;
      components := [];
      locationData := None;
      flightPrices := [];
      priceTitle := None;
    }

    /** `fetchPageData()` for the request path `path`, with `db` answering the queries. */
    method FetchPageData(path: string, db: Db)
      modifies this
      ensures State() == Fetched(old(State()), path, db)
    {
      loading := true;
      error := None;
      var connection := FindConnection(db, path);
      if connection.None? {
        error := Some(NotFoundMessage);
        loading := false;
        return;
      }
      var c := connection.value;
      var d := LocationData(c.fromLocation, c.toLocation);
      locationData := Some(d);
      var priced := FetchPrices(db, c);
      if priced {
        LoadTemplate(db, c, d);
      }
    }

    /** The IATA lookups and, when both codes exist, the price query. */
    method FetchPrices(db: Db, c: Catalog.Connection) returns (ok: bool)
      modifies this
      ensures ok <==> Priced(old(State()), db, c).Ok?
      ensures ok ==> State() == Priced(old(State()), db, c).value
      ensures !ok ==> State() == Failed(old(State()), Priced(old(State()), db, c).failure)
    {
      var fromIata := GetIataCode(c.fromLocation.city, db.airports);
      var toIata := GetIataCode(c.toLocation.city, db.airports);
      if fromIata.Some? && toIata.Some? {
        if db.prices.Err? {
          error := Some(ErrorText(db.prices.failure));
          loading := false;
          return false;
        }
        flightPrices := Projected(PriceQuery(db.prices.value, fromIata.value, toIata.value));
      }
      return true;
    }

    /** The template query, then the component step. */
    method LoadTemplate(db: Db, c: Catalog.Connection, d: LocationData)
      modifies this
      ensures State() == Templated(old(State()), db, c, d)
    {
      var template := TemplateFor(db, c.templateType.id);
      if template.Err? {
        error := Some(ErrorText(template.failure));
        loading := false;
        return;
      }
      LoadComponents(db, template.value, c, d);
    }

    /** The component query and the expanded texts. */
    method LoadComponents(db: Db, t: TemplateRow, c: Catalog.Connection, d: LocationData)
      modifies this
      ensures State() == WithComponents(old(State()), db, t, c, d)
    {
      var rows := ComponentsFor(db, t.id);
      if rows.Err? {
        error := Some(ErrorText(rows.failure));
        loading := false;
        return;
      }
      var formattedTitle := ReplacePlaceholders(t.seoTitle, d);
      priceTitle := Some(ReplacePlaceholders(PriceTitleText, d));
      var formattedDescription := ReplacePlaceholders(t.metaDescription, d);
      templateData := Some(TemplateData(formattedTitle, formattedDescription, c.templateType));
      components := rows.value;
      loading := false;
    }
  }

  // ---- what the page shows ------------------------------------------------

  datatype Screen = Spinner | NotFound(message: string) | Content(blocks: seq<Block>)

  function View(s: PageState, path: string): PageView
  {
    PageView(s.locationData, s.templateData, s.flightPrices, s.priceTitle, path)
  }

  /** The spinner while loading, the not-found panel when there is an error or
      something is missing, else the sorted components. */
  function ScreenOf(s: PageState, path: string): (r: Screen)
    ensures r.Content? ==> !s.loading && !Truthy(s.error) && s.templateData.Some? && s.locationData.Some?
    ensures r.NotFound? && Truthy(s.error) ==> r.message == s.error.value
  {
    if s.loading then Spinner
    else if Truthy(s.error) || s.templateData.None? || s.locationData.None? then
      NotFound(OrElse(s.error, "The requested page could not be found."))
    else Content(RenderPage(View(s, path), s.components))
  }

  // ---- properties of a load -----------------------------------------------

  /** An unknown path (after the retry without the trailing slash) ends with
      'Page data not found'; the rest of the state is left as it was. */
  lemma UnknownPathNotFound(s: PageState, path: string, db: Db)
    requires FindConnection(db, path).None?
    ensures Fetched(s, path, db) == s.(loading := false, error := Some(NotFoundMessage))
    ensures ScreenOf(Fetched(s, path, db), path) == NotFound(NotFoundMessage)
  {
  }

  /** Prices change only when both cities have an IATA code, and then they are
      at most ten prices of that route, cheapest first. */
  lemma PricesNeedBothCodes(s: PageState, path: string, db: Db)
    requires Fetched(s, path, db).flightPrices != s.flightPrices
    ensures FindConnection(db, path).Some?
    ensures var (fromIata, toIata) := Codes(db, FindConnection(db, path).value);
            && fromIata.Some? && toIata.Some? && db.prices.Ok?
            && Fetched(s, path, db).flightPrices == Projected(PriceQuery(db.prices.value, fromIata.value, toIata.value))
  {
    if FindConnection(db, path).Some? {
      var c := FindConnection(db, path).value;
      var d := LocationData(c.fromLocation, c.toLocation);
      var located := s.(loading := true, error := None, locationData := Some(d));
      var priced := Priced(located, db, c);
      if priced.Ok? {
        assert Fetched(s, path, db) == Templated(priced.value, db, c, d);
      }
    }
  }

  lemma PricesAreCheapestOfRoute(s: PageState, path: string, db: Db)
    requires Fetched(s, path, db).flightPrices != s.flightPrices
    ensures var r := Fetched(s, path, db).flightPrices;
            && |r| <= 10
            && forall i, j :: 0 <= i < j < |r| ==> r[i].totalPrice <= r[j].totalPrice
    ensures FindConnection(db, path).Some? && db.prices.Ok?
    ensures Codes(db, FindConnection(db, path).value).0.Some? && Codes(db, FindConnection(db, path).value).1.Some?
    ensures var (fromIata, toIata) := Codes(db, FindConnection(db, path).value);
            var r := Fetched(s, path, db).flightPrices;
            var route := OnRoute(db.prices.value, fromIata.value, toIata.value);
            var q := PriceQuery(db.prices.value, fromIata.value, toIata.value);
            && |r| == (if |route| <= 10 then |route| else 10)
            && forall i :: 0 <= i < |r| ==>
                 q[i] in route && r[i] == FlightPrice(q[i].airline, q[i].flightDate, q[i].totalPrice)
  {
    PricesNeedBothCodes(s, path, db);
    var (fromIata, toIata) := Codes(db, FindConnection(db, path).value);
    ProjectedPricesOfRoute(db.prices.value, fromIata.value, toIata.value);
  }

  /** The prices shown for a route: at most ten, each the projection of a
      row of that route. */
  lemma ProjectedPricesOfRoute(rows: seq<PriceRow>, origin: string, destination: string)
    ensures var q := PriceQuery(rows, origin, destination);
            var r := Projected(q);
            var route := OnRoute(rows, origin, destination);
            && |r| == (if |route| <= 10 then |route| else 10)
            && forall i :: 0 <= i < |r| ==>
                 q[i] in route && r[i] == FlightPrice(q[i].airline, q[i].flightDate, q[i].totalPrice)
  {
    PriceQueryShape(rows, origin, destination);
    var route := OnRoute(rows, origin, destination);
    var q := PriceQuery(rows, origin, destination);
    forall i | 0 <= i < |q|
      ensures q[i] in route
    {
      assert q[i] == SortBy(route, Price)[i];
      assert q[i] in multiset(route);
    }
  }

  /** A load where every query succeeds shows the template's components in
      `display_order`, with the title, description and price title expanded,
      and the route's prices when both cities have a code (the previous
      prices otherwise). */
  lemma SuccessfulLoad(s: PageState, path: string, db: Db, c: Catalog.Connection, t: TemplateRow)
    requires FindConnection(db, path) == Some(c)
    requires var (fromIata, toIata) := Codes(db, c); fromIata.Some? && toIata.Some? ==> db.prices.Ok?
    requires TemplateFor(db, c.templateType.id) == Ok(t)
    requires ComponentsFor(db, t.id).Ok?
    ensures var r := Fetched(s, path, db);
            var d := LocationData(c.fromLocation, c.toLocation);
            && r.error.None?
            && r.locationData == Some(d)
            && r.templateData == Some(TemplateData(ReplacePlaceholders(t.seoTitle, d),
                                                   ReplacePlaceholders(t.metaDescription, d), c.templateType))
            && r.priceTitle == Some(ReplacePlaceholders(PriceTitleText, d))
            && r.components == ComponentsFor(db, t.id).value
            && !r.loading
            && var (fromIata, toIata) := Codes(db, c);
               r.flightPrices == if fromIata.Some? && toIata.Some?
                                 then Projected(PriceQuery(db.prices.value, fromIata.value, toIata.value))
                                 else s.flightPrices
  {
    var d := LocationData(c.fromLocation, c.toLocation);
    var located := s.(loading := true, error := None, locationData := Some(d));
    var priced := Priced(located, db, c);
    assert Fetched(s, path, db) == Templated(priced.value, db, c, d);
  }

  /** Such a load then shows the template's components in `display_order`. */
  lemma SuccessfulLoadShowsComponents(s: PageState, path: string, db: Db, c: Catalog.Connection, t: TemplateRow)
    requires FindConnection(db, path) == Some(c)
    requires var (fromIata, toIata) := Codes(db, c); fromIata.Some? && toIata.Some? ==> db.prices.Ok?
    requires TemplateFor(db, c.templateType.id) == Ok(t)
    requires ComponentsFor(db, t.id).Ok?
    ensures var r := Fetched(s, path, db);
            ScreenOf(r, path) == Content(RenderPage(View(r, path), ComponentsFor(db, t.id).value))
  {
    SuccessfulLoad(s, path, db, c, t);
  }

  /** The service already orders the components, so the page's own sort
      leaves them as they are. */
  lemma PageSortKeepsServiceOrder(db: Db, templateId: string)
    requires ComponentsFor(db, templateId).Ok?
    ensures SortBy(ComponentsFor(db, templateId).value, DisplayOrder) == ComponentsFor(db, templateId).value
  {
    SortBySortedIsIdentity(ComponentsFor(db, templateId).value, DisplayOrder);
  }

  /** A failing template query ends the load with the thrown message, or
      'Failed to load page' for a value that is not an `Error`; the location
      found stays set. */
  lemma QueryFailureMessage(s: PageState, path: string, db: Db, c: Catalog.Connection)
    requires FindConnection(db, path) == Some(c)
    requires db.templates.Err?
    requires var (fromIata, toIata) := Codes(db, c); fromIata.Some? && toIata.Some? ==> db.prices.Ok?
    ensures var r := Fetched(s, path, db);
            && r.error == Some(if db.templates.failure.isErrorInstance then db.templates.failure.message
                               else "Failed to load page")
            && r.locationData == Some(LocationData(c.fromLocation, c.toLocation))
            && r.templateData == s.templateData
  {
  }
}
