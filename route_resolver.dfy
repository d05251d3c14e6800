/** The lookups of the SEO route page before anything is rendered: the
    connection for a request path (with one retry without a trailing slash), the
    IATA code chosen for a city, and the price query for a pair of codes. */
module RouteResolver {
  import opened Base
  import opened Strings
  import opened Collections
  import opened Catalog

  // ---- the connection for a path ------------------------------------------

  /** `path.replace(/\/$/, '')`: one trailing '/' is removed, nothing else. */
  function StripTrailingSlash(path: string): (r: string)
    ensures |path| > 0 && path[|path| - 1] == '/' ==> r + "/" == path
    ensures !(|path| > 0 && path[|path| - 1] == '/') ==> r == path
  {
    if |path| > 0 && path[|path| - 1] == '/' then path[..|path| - 1] else path
  }

  /** The rows `.eq('template_url', url).eq('status', 'active')` selects. */
  function ActiveWithUrl(table: seq<Connection>, url: string): (r: seq<Connection>)
    ensures forall i :: 0 <= i < |r| ==> r[i] in table && IsActive(r[i]) && r[i].templateUrl == Some(url)
    ensures forall i :: 0 <= i < |table| && IsActive(table[i]) && table[i].templateUrl == Some(url) ==> table[i] in r
    decreases |table|
  {
    if table == [] then []
    else
      var rest := ActiveWithUrl(table[1..], url);
      assert table == [table[0]] + table[1..];
      if IsActive(table[0]) && table[0].templateUrl == Some(url) then [table[0]] + rest else rest
  }

  /** `.single()`: the one matching row; no row or several rows is an error. */
  function FindActive(table: seq<Connection>, url: string): (r: Option<Connection>)
    ensures r.Some? ==> r.value in table && IsActive(r.value) && r.value.templateUrl == Some(url)
    ensures r.Some? <==> |ActiveWithUrl(table, url)| == 1
  {
    var rows := ActiveWithUrl(table, url);
    if |rows| == 1 then Some(rows[0]) else None
  }

  /** The exact path first, then the path without its trailing slash; `None`
      is the 'Page data not found' outcome. */
  function Resolve(table: seq<Connection>, path: string): (r: Option<Connection>)
    ensures r.Some? ==> r.value in table && IsActive(r.value)
    ensures r.Some? ==> r.value.templateUrl == Some(path) || r.value.templateUrl == Some(StripTrailingSlash(path))
  {
    var exact := FindActive(table, path);
    if exact.Some? then exact else FindActive(table, StripTrailingSlash(path))
  }

  /** The exact path is tried first, and the retry happens only when it finds
      nothing: a connection stored under the exact path wins over one stored
      without the slash. */
  lemma ResolveTriesExactFirst(table: seq<Connection>, path: string)
    ensures FindActive(table, path).Some? ==> Resolve(table, path) == FindActive(table, path)
    ensures FindActive(table, path).None? ==> Resolve(table, path) == FindActive(table, StripTrailingSlash(path))
  {
  }

  /** A path with a trailing slash that neither lookup finds is not found. */
  lemma ResolveBothMissNotFound(table: seq<Connection>, path: string)
    requires FindActive(table, path + "/").None? && FindActive(table, path).None?
    ensures Resolve(table, path + "/").None?
  {
    assert StripTrailingSlash(path + "/") == path;
  }

  /** A request with a trailing slash finds the connection stored without it. */
  lemma TrailingSlashTolerated(table: seq<Connection>, path: string, c: Connection)
    requires FindActive(table, path + "/").None?
    requires FindActive(table, path) == Some(c)
    ensures Resolve(table, path + "/") == Some(c)
  {
    assert StripTrailingSlash(path + "/") == path;
  }

  /** The retry only ever removes a slash: a request without one never finds a
      connection whose `template_url` ends in '/'. */
  lemma NoSlashAdded(table: seq<Connection>, path: string)
    requires path == "" || path[|path| - 1] != '/'
    ensures Resolve(table, path) == FindActive(table, path)
  {
  }

  /** So with a single active connection at "/x/", "/x/" resolves and "/x" does not. */
  lemma SlashToleranceIsOneWay(c: Connection)
    requires IsActive(c) && c.templateUrl == Some("/x/")
    ensures Resolve([c], "/x/") == Some(c)
    ensures Resolve([c], "/x") == None
  {
    assert ActiveWithUrl([c], "/x/") == [c];
    assert "/x/" != "/x";
    assert ActiveWithUrl([c], "/x") == [];
  }

  // ---- the IATA code of a city --------------------------------------------

  /** A row of `airports`; `iata_code` may be null. */
  datatype Airport = Airport(city: string, iataCode: Option<string>)

  /** The codes `.from('airports').select('iata_code').eq('city', city)` returns,
      in table order. */
  function CodesOf(airports: seq<Airport>, city: string): (r: seq<Option<string>>)
    ensures |r| <= |airports|
    ensures forall j :: 0 <= j < |airports| && airports[j].city == city ==> airports[j].iataCode in r
    decreases |airports|
  {
    if airports == [] then []
    else
      var rest := CodesOf(airports[1..], city);
      assert airports == [airports[0]] + airports[1..];
      (if airports[0].city == city then [airports[0].iataCode] else []) + rest
  }

  /** Every code returned is the code of an airport of that city. */
  lemma {:induction false} CodesOfSound(airports: seq<Airport>, city: string, i: nat)
    requires i < |CodesOf(airports, city)|
    ensures exists j :: 0 <= j < |airports| && airports[j].city == city && airports[j].iataCode == CodesOf(airports, city)[i]
    decreases |airports|
  {
    var rest := CodesOf(airports[1..], city);
    if airports[0].city == city && i == 0 {
      assert airports[0].iataCode == CodesOf(airports, city)[0];
    } else {
      var k := if airports[0].city == city then i - 1 else i;
      assert CodesOf(airports, city)[i] == rest[k];
      CodesOfSound(airports[1..], city, k);
      var j :| 0 <= j < |airports[1..]| && airports[1..][j].city == city && airports[1..][j].iataCode == rest[k];
      assert airports[j + 1] == airports[1..][j];
    }
  }

  /** The codes of two tables in sequence are the codes of each, in sequence:
      the query keeps the table's order. */
  lemma {:induction false} CodesOfAppend(a: seq<Airport>, b: seq<Airport>, city: string)
    ensures CodesOf(a + b, city) == CodesOf(a, city) + CodesOf(b, city)
    decreases |a|
  {
    if a != [] {
      assert (a + b)[1..] == a[1..] + b;
      CodesOfAppend(a[1..], b, city);
    } else {
      assert a + b == b;
    }
  }

  /** Every code of the list is present (not null). */
  predicate AllPresent(data: seq<Option<string>>)
  {
    forall i :: 0 <= i < |data| ==> data[i].Some?
  }

  function Present(data: seq<Option<string>>): (r: seq<string>)
    requires AllPresent(data)
    ensures |r| == |data|
    ensures forall i :: 0 <= i < |r| ==> Some(r[i]) == data[i]
  {
    seq(|data|, i requires 0 <= i < |data| => data[i].value)
  }

  /** A main airport code: three characters, none of them 'X'. */
  predicate IsMainCode(code: string)
  {
    |code| == 3 && 'X' !in code
  }

  /** `data.filter(a => !a.iata_code.includes('X') && a.iata_code.length === 3)`. */
  function MainAirports(codes: seq<string>): (r: seq<string>)
    ensures forall i :: 0 <= i < |r| ==> IsMainCode(r[i]) && r[i] in codes
    ensures r == [] <==> forall i :: 0 <= i < |codes| ==> !IsMainCode(codes[i])
    decreases |codes|
  {
    if codes == [] then []
    else
      var rest := MainAirports(codes[1..]);
      assert codes == [codes[0]] + codes[1..];
      if IsMainCode(codes[0]) then [codes[0]] + rest else rest
  }

  /** The first kept code is the first main code of the list. */
  lemma {:induction false} MainAirportsFirst(codes: seq<string>)
    ensures MainAirports(codes) != [] ==>
              exists i :: 0 <= i < |codes| && codes[i] == MainAirports(codes)[0] &&
                          forall j :: 0 <= j < i ==> !IsMainCode(codes[j])
    decreases |codes|
  {
    if codes != [] && MainAirports(codes) != [] && !IsMainCode(codes[0]) {
      var tail := codes[1..];
      MainAirportsFirst(tail);
      var i :| 0 <= i < |tail| && tail[i] == MainAirports(tail)[0] &&
               forall j :: 0 <= j < i ==> !IsMainCode(tail[j]);
      assert codes[i + 1] == MainAirports(codes)[0];
      forall j | 0 <= j < i + 1
        ensures !IsMainCode(codes[j])
      {
        if j > 0 {
          assert codes[j] == tail[j - 1];
        }
      }
    }
  }

  /** `getIataCode(city)`: null for a null or empty city, for a failed query and
      for a city without airports; null too when a candidate's code is null,
      since `.includes` then throws inside the filter and the catch returns
      null; otherwise the first main code, or failing that the first
      candidate's code (an empty code counts as null). */
  function GetIataCode(city: Option<string>, airports: Result<seq<Airport>>): (r: Option<string>)
    ensures !Truthy(city) || airports.Err? ==> r.None?
    ensures r.Some? ==> r.value != "" && r in CodesOf(airports.value, city.value)
  {
    if !Truthy(city) then None
    else match airports
      case Err(_) => None
      case Ok(rows) =>
        var data := CodesOf(rows, city.value);
        if data == [] || !AllPresent(data) then None
        else
          var codes := Present(data);
          var main := MainAirports(codes);
          var chosen := if main != [] then main[0] else codes[0];
          assert chosen in codes;
          if chosen == "" then None
          else
            var k :| 0 <= k < |codes| && codes[k] == chosen;
            assert data[k] == Some(chosen);
            Some(chosen)
  }

  /** When every candidate has a code and one is a main airport, the first main
      code is chosen. */
  lemma IataPrefersMainCode(city: string, rows: seq<Airport>)
    requires city != ""
    requires AllPresent(CodesOf(rows, city))
    requires exists i :: 0 <= i < |CodesOf(rows, city)| && IsMainCode(CodesOf(rows, city)[i].value)
    ensures GetIataCode(Some(city), Ok(rows)).Some?
    ensures var code := GetIataCode(Some(city), Ok(rows)).value;
            var data := Present(CodesOf(rows, city));
            IsMainCode(code) &&
            exists i :: 0 <= i < |data| && data[i] == code && forall j :: 0 <= j < i ==> !IsMainCode(data[j])
  {
    var data := Present(CodesOf(rows, city));
    var i :| 0 <= i < |CodesOf(rows, city)| && IsMainCode(CodesOf(rows, city)[i].value);
    assert IsMainCode(data[i]);
    MainAirportsFirst(data);
  }

  /** Without a main airport the first candidate is taken as it is. */
  lemma IataFallsBackToFirst(city: string, rows: seq<Airport>)
    requires city != ""
    requires CodesOf(rows, city) != [] && AllPresent(CodesOf(rows, city))
    requires forall i :: 0 <= i < |CodesOf(rows, city)| ==> !IsMainCode(CodesOf(rows, city)[i].value)
    ensures GetIataCode(Some(city), Ok(rows)) ==
            if CodesOf(rows, city)[0].value == "" then None else CodesOf(rows, city)[0]
  {
    var data := Present(CodesOf(rows, city));
    assert forall i :: 0 <= i < |data| ==> !IsMainCode(data[i]);
  }

  /** A null code among the candidates makes the lookup give null, even when
      another candidate is a main airport. */
  lemma IataNullCodeGivesNull(city: string, rows: seq<Airport>, k: nat)
    requires k < |CodesOf(rows, city)| && CodesOf(rows, city)[k].None?
    ensures GetIataCode(Some(city), Ok(rows)).None?
  {
  }

  // ---- the prices of a route ----------------------------------------------

  /** A row of `processed_flight_prices`. */
  datatype PriceRow = PriceRow(airline: string, flightDate: string, totalPrice: int,
                               origin: string, destination: string)

  function Price(p: PriceRow): int
  {
    p.totalPrice
  }

  /** The row test of `.eq('origin', o).eq('destination', d)`. */
  function OnRouteTest(origin: string, destination: string): PriceRow -> bool
  {
    (p: PriceRow) => p.origin == origin && p.destination == destination
  }

  /** `.eq('origin', o).eq('destination', d)`: the route's rows, in table order. */
  function OnRoute(rows: seq<PriceRow>, origin: string, destination: string): (r: seq<PriceRow>)
    ensures forall i :: 0 <= i < |r| ==> r[i] in rows && r[i].origin == origin && r[i].destination == destination
    ensures forall i :: 0 <= i < |rows| && rows[i].origin == origin && rows[i].destination == destination ==> rows[i] in r
  {
    var r := Filter(rows, OnRouteTest(origin, destination));
    forall i | 0 <= i < |r|
      ensures r[i] in rows
    {
      FilterSubset(rows, OnRouteTest(origin, destination), i);
    }
    forall i | 0 <= i < |rows| && rows[i].origin == origin && rows[i].destination == destination
      ensures rows[i] in r
    {
      FilterComplete(rows, OnRouteTest(origin, destination), i);
    }
    r
  }

  /** The route's rows keep the table's order and multiplicity: selecting from
      two parts in sequence is selecting from the whole. */
  lemma OnRouteAppend(a: seq<PriceRow>, b: seq<PriceRow>, origin: string, destination: string)
    ensures OnRoute(a + b, origin, destination) == OnRoute(a, origin, destination) + OnRoute(b, origin, destination)
  {
    FilterAppend(a, b, OnRouteTest(origin, destination));
  }

  /** A one-row table gives that row exactly when it is of the route. */
  lemma OnRouteSingle(p: PriceRow, origin: string, destination: string)
    ensures OnRoute([p], origin, destination) == if p.origin == origin && p.destination == destination then [p] else []
  {
    assert [p][1..] == [];
  }

  /** `.eq('origin', o).eq('destination', d).order('total_price', { ascending: true }).limit(10)`. */
  function PriceQuery(rows: seq<PriceRow>, origin: string, destination: string): seq<PriceRow>
  {
    Take(SortBy(OnRoute(rows, origin, destination), Price), 10)
  }

  /** At most ten prices, all of them of the route asked for, cheapest first. */
  lemma PriceQueryShape(rows: seq<PriceRow>, origin: string, destination: string)
    ensures var r := PriceQuery(rows, origin, destination);
            var m := OnRoute(rows, origin, destination);
            && |r| == (if |m| <= 10 then |m| else 10)
            && r == SortBy(m, Price)[..|r|]
            && SortedBy(r, Price)
            && forall i :: 0 <= i < |r| ==> r[i] in rows && r[i].origin == origin && r[i].destination == destination
  {
    var m := OnRoute(rows, origin, destination);
    var s := SortBy(m, Price);
    var r := Take(s, 10);
    forall i | 0 <= i < |r|
      ensures r[i] in rows && r[i].origin == origin && r[i].destination == destination
    {
      assert r[i] == s[i];
      assert s[i] in multiset(m);
    }
  }

  /** No price of the route that was left out is cheaper than a price kept. */
  lemma PriceQueryCheapest(rows: seq<PriceRow>, origin: string, destination: string, x: PriceRow)
    requires x in OnRoute(rows, origin, destination)
    requires x !in PriceQuery(rows, origin, destination)
    ensures forall i :: 0 <= i < |PriceQuery(rows, origin, destination)| ==>
              PriceQuery(rows, origin, destination)[i].totalPrice <= x.totalPrice
  {
    var m := OnRoute(rows, origin, destination);
    var s := SortBy(m, Price);
    var r := Take(s, 10);
    assert x in multiset(s);
    var k :| 0 <= k < |s| && s[k] == x;
    assert k >= |r|;
    forall i | 0 <= i < |r|
      ensures r[i].totalPrice <= x.totalPrice
    {
      assert r[i] == s[i];
      assert Price(s[i]) <= Price(s[k]);
    }
  }

  /** A route with at most ten prices keeps all of them. */
  lemma PriceQueryKeepsFewPrices(rows: seq<PriceRow>, origin: string, destination: string)
    requires |OnRoute(rows, origin, destination)| <= 10
    ensures multiset(PriceQuery(rows, origin, destination)) == multiset(OnRoute(rows, origin, destination))
  {
  }
}
