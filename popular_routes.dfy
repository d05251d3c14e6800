/** `src/components/home/PopularRoutes.tsx`: the home page's list of at most six
    routes, each shown as a "from" label and a "to" label, which navigates to the
    route's page when clicked. */
module PopularRoutes {
  import opened Base
  import opened Strings
  import opened Collections
  import opened Catalog
  import opened Placeholders

  /** `.limit(6)`. */
  const RouteLimit: nat := 6
  const LoadError: string := "Failed to load popular routes"

  // ---- the labels ---------------------------------------------------------

  /** What a label names when no phrase is written: the city for a location of
      type 'city' (a null city prints as "null"), the state otherwise. */
  function Subject(l: Location): string
  {
    if l.kind == "city" then Interp(l.city) else l.state
  }

  /** `format || (type === 'city' ? `${prefix}${city}` : `${prefix}${state}`)`. */
  function Label(format: Option<string>, prefix: string, l: Location): (r: string)
    ensures Truthy(format) ==> r == format.value
    ensures !Truthy(format) ==> |prefix| <= |r| && r[..|prefix|] == prefix && r[|prefix|..] == Subject(l)
  {
    if Truthy(format) then format.value
    else
      var r := prefix + (if l.kind == "city" then Interp(l.city) else l.state);
      assert r[|prefix|..] == Subject(l);
      r
  }

  /** `fromName`: the written "nga" phrase, else "nga " and the city or state. */
  function FromName(l: Location): string
  {
    Label(l.ngaFormat, "nga ", l)
  }

  /** `toName`: the written "per" phrase, else "per " and the city or state. */
  function ToName(l: Location): string
  {
    Label(l.perFormat, "per ", l)
  }

  /** The two labels of a route's button. */
  function Card(c: Connection): (string, string)
  {
    (FromName(c.fromLocation), ToName(c.toLocation))
  }

  function Cards(routes: seq<Connection>): (r: seq<(string, string)>)
    ensures |r| == |routes|
    ensures forall i :: 0 <= i < |r| ==> r[i] == Card(routes[i])
  {
    seq(|routes|, i requires 0 <= i < |routes| => Card(routes[i]))
  }

  /** A label reads the written phrase when there is one; otherwise it is the
      prefix followed by the city for a 'city' location and by the state for any
      other type, and nothing else of the location matters. */
  lemma LabelFallback(l: Location, m: Location)
    requires !Truthy(l.ngaFormat) && !Truthy(m.perFormat)
    requires l.kind == m.kind && l.city == m.city && l.state == m.state
    ensures FromName(l)[4..] == ToName(m)[4..]
    ensures l.kind == "city" ==> FromName(l) == "nga " + Interp(l.city) && ToName(m) == "per " + Interp(l.city)
    ensures l.kind != "city" ==> FromName(l) == "nga " + l.state && ToName(m) == "per " + l.state
  {
    var f, t := FromName(l), ToName(m);
    assert f == f[..4] + f[4..];
    assert t == t[..4] + t[4..];
  }

  /** Unlike the `{nga_city}` token of the route page, which falls back to the
      bare city, the home page's label adds "nga " before it. The two agree
      exactly when a phrase is written. */
  lemma FromNameVersusPlaceholder(d: LocationData)
    requires d.fromLocation.kind == "city"
    ensures Truthy(d.fromLocation.ngaFormat) ==> FromName(d.fromLocation) == NgaCityPhrase(d)
    ensures !Truthy(d.fromLocation.ngaFormat) ==> FromName(d.fromLocation) == "nga " + NgaCityPhrase(d)
  {
    if !Truthy(d.fromLocation.ngaFormat) {
      var f := FromName(d.fromLocation);
      assert f == f[..4] + f[4..];
    }
  }

  // ---- the click ----------------------------------------------------------

  /** `handleRouteClick`: the path navigated to, if any. */
  function ClickTarget(c: Connection): (r: Option<string>)
    ensures r.Some? <==> Truthy(c.templateUrl)
    ensures r.Some? ==> r.value == c.templateUrl.value && r.value != ""
  {
    if Truthy(c.templateUrl) then Some(c.templateUrl.value) else None
  }

  // ---- loading ------------------------------------------------------------

  /** The request: active rows with a URL, at most six of them. */
  function RoutesQuery(table: seq<Connection>): Result<Option<seq<Connection>>>
  {
    Ok(Some(Take(ActiveRoutes(table), RouteLimit)))
  }

  datatype ListState = ListState(routes: seq<Connection>, loading: bool, error: Option<string>)

  const Initial: ListState := ListState([], true, None)

  /** The state after `fetchRoutes` got `answer`: the rows (`data || []`), or
      the error message; either way loading has ended. */
  function Fetched(s: ListState, answer: Result<Option<seq<Connection>>>): (r: ListState)
    ensures !r.loading
    ensures answer.Err? ==> r.routes == s.routes && r.error == Some(LoadError)
    ensures answer.Ok? ==> r.error == s.error
  {
    match answer
    case Err(_) => s.(error := Some(LoadError), loading := false)
    case Ok(data) => s.(routes := if data.Some? then data.value else [], loading := false)
  }

  class PopularRoutesComponent {
    var routes: seq<Connection>
    var loading: bool
    var error: Option<string>

    function State(): ListState
      reads this
    {
      ListState(routes, loading, error)
    }

    constructor ()
      ensures State() == Initial
    {
      routes := [];
      loading := true;
      error := None;
    }

    /** `fetchRoutes`: `setRoutes(data || [])`, or `setError` in the catch, and
        `setLoading(false)` in the finally. */
    method FetchRoutes(answer: Result<Option<seq<Connection>>>)
      modifies this
      ensures State() == Fetched(old(State()), answer)
    {
      if answer.Err? {
        error := Some(LoadError);
      } else {
        var data := answer.value;
        routes := if data.Some? then data.value else [];
      }
      loading := false;
    }
  }

  // ---- properties of a load -----------------------------------------------

  /** A successful load lists at most six routes, every one active and with a
      URL, and they are the first such rows of the table. */
  lemma LoadedRoutesAreActive(table: seq<Connection>)
    ensures var r := Fetched(Initial, RoutesQuery(table));
            && |r.routes| <= RouteLimit
            && r.routes == ActiveRoutes(table)[..|r.routes|]
            && (forall i :: 0 <= i < |r.routes| ==> IsActive(r.routes[i]) && r.routes[i].templateUrl.Some?)
            && (|ActiveRoutes(table)| <= RouteLimit ==> r.routes == ActiveRoutes(table))
            && r.error == None && !r.loading
  {
    var all := ActiveRoutes(table);
    var r := Take(all, RouteLimit);
    forall i | 0 <= i < |r|
      ensures IsActive(r[i]) && r[i].templateUrl.Some?
    {
      assert r[i] == all[i];
    }
  }

  /** A listed route navigates on click unless its URL is the empty string. */
  lemma LoadedRouteClick(table: seq<Connection>, i: nat)
    requires i < |Fetched(Initial, RoutesQuery(table)).routes|
    ensures var c := Fetched(Initial, RoutesQuery(table)).routes[i];
            ClickTarget(c) == (if c.templateUrl.value == "" then None else Some(c.templateUrl.value))
  {
    LoadedRoutesAreActive(table);
  }

  /** A failed load shows the error and keeps the (empty) list; a load whose
      data is null shows no routes and no error. */
  lemma FailedOrEmptyLoad(f: Failure)
    ensures Fetched(Initial, Err(f)) == ListState([], false, Some("Failed to load popular routes"))
    ensures Fetched(Initial, Ok(None)) == ListState([], false, None)
  {
  }
}
