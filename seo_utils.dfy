/** `src/utils/seo.ts`: the head data of a flight-search result page, and a
    sitemap whose URLs are built from the lowered city names of each route. */
module SeoUtils {
  import opened Base
  import opened Strings
  import opened Collections
  import opened SeoHead
  import opened SeoHeadTemplate
  import opened SitemapXml

  // ---- generateSEOSitemap -------------------------------------------------

  datatype SlugRoute = SlugRoute(from: string, to: string)

  /** `${baseUrl}/bileta-avioni-${from.toLowerCase()}-${to.toLowerCase()}`. */
  function SlugLoc(r: SlugRoute): string
  {
    SiteBase + "/bileta-avioni-" + Lower(r.from) + "-" + Lower(r.to)
  }

  /** The entry of one route: `loc`, then `lastmod`, `changefreq` and `priority`. */
  function SlugEntry(r: SlugRoute, day: string): Element
  {
    Element("url", [("loc", SlugLoc(r)), ("lastmod", day), ("changefreq", "daily"), ("priority", "0.8")])
  }

  function SlugEntries(routes: seq<SlugRoute>, day: string): (r: seq<Element>)
    ensures |r| == |routes|
    ensures forall i :: 0 <= i < |r| ==> r[i] == SlugEntry(routes[i], day)
  {
    seq(|routes|, i requires 0 <= i < |routes| => SlugEntry(routes[i], day))
  }

  /** `generateSEOSitemap(routes)`, with `day` the date part of the current time. */
  function GenerateSeoSitemap(routes: seq<SlugRoute>, day: string): string
  {
    Document("urlset", [], SlugEntries(routes, day))
  }

  /** The sitemap of two route lists is the sitemap of each list's entries,
      one after the other. */
  lemma SlugSitemapConcat(a: seq<SlugRoute>, b: seq<SlugRoute>, day: string)
    ensures GenerateSeoSitemap(a + b, day) == Document("urlset", [], SlugEntries(a, day) + SlugEntries(b, day))
  {
    assert SlugEntries(a + b, day) == SlugEntries(a, day) + SlugEntries(b, day);
  }

  /** Names that differ only in case give the same URL. */
  lemma SlugIgnoresCase(r: SlugRoute, s: SlugRoute)
    requires Lower(r.from) == Lower(s.from) && Lower(r.to) == Lower(s.to)
    ensures SlugLoc(r) == SlugLoc(s)
  {
  }

  /** Every URL is in lower case once its names are: lowering the names first
      changes nothing. */
  lemma SlugOfLoweredNames(r: SlugRoute)
    ensures SlugLoc(SlugRoute(Lower(r.from), Lower(r.to))) == SlugLoc(r)
  {
    LowerIdempotent(r.from);
    LowerIdempotent(r.to);
  }

  /** The '-' between the names is ambiguous: two different routes can share a URL. */
  lemma SlugHyphenAmbiguous()
    ensures SlugRoute("a-b", "c") != SlugRoute("a", "b-c")
    ensures SlugLoc(SlugRoute("a-b", "c")) == SlugLoc(SlugRoute("a", "b-c"))
  {
    assert Lower("a-b") == "a-b";
    assert Lower("c") == "c";
    assert Lower("a") == "a";
    assert Lower("b-c") == "b-c";
    assert "a-b" + "-" + "c" == "a" + "-" + "b-c";
  }

  // ---- generateFlightSEOData ----------------------------------------------

  /** The fields of a search that the head data reads. */
  datatype SearchParams = SearchParams(
    fromLocation: string,
    toLocation: string,
    fromCode: string,
    toCode: string,
    departureDate: string,
    returnDate: Option<string>,
    tripType: string)

  /** A result: its total price and the number of flight segments it has. */
  datatype FlightOption = FlightOption(price: int, segments: nat)

  datatype SeoData = SeoData(title: string, description: string, canonicalUrl: string, structuredData: Fields)

  function Prices(flights: seq<FlightOption>): (r: seq<int>)
    ensures |r| == |flights|
    ensures forall i :: 0 <= i < |r| ==> r[i] == flights[i].price
  {
    seq(|flights|, i requires 0 <= i < |flights| => flights[i].price)
  }

  /** `flights.some(f => f.flights.length === 1)`. */
  function HasDirect(flights: seq<FlightOption>): (r: bool)
    ensures r <==> exists i :: 0 <= i < |flights| && flights[i].segments == 1
    decreases |flights|
  {
    if flights == [] then false
    else
      assert flights == [flights[0]] + flights[1..];
      flights[0].segments == 1 || HasDirect(flights[1..])
  }

  /** `${cheapestPrice}`: the number, or "Infinity" for no flights. */
  function CheapestText(flights: seq<FlightOption>): string
  {
    var m := MinOf(Prices(flights));
    if m.Some? then IntToString(m.value) else "Infinity"
  }

  /** The price in the record; `JSON.stringify` prints the `Infinity` of an
      empty list as null. */
  function CheapestJson(flights: seq<FlightOption>): Json
  {
    var m := MinOf(Prices(flights));
    if m.Some? then JNumber(m.value) else JNull
  }

  function IsRoundTrip(p: SearchParams): bool
  {
    p.tripType == "roundTrip"
  }

  function RouteName(p: SearchParams): string
  {
    p.fromLocation + " - " + p.toLocation
  }

  const DirectPhrase: string := " me fluturime direkte"

  function TitleHead(p: SearchParams): string
  {
    "Bileta Avioni " + RouteName(p)
  }

  /** What follows the route name: the trip kind, then the cheapest price. */
  function TitleTail(p: SearchParams, cheapest: string): string
  {
    (if IsRoundTrip(p) then " | Vajtje-Ardhje nga " else " | Nga ") + cheapest + "€"
  }

  function Title(p: SearchParams, cheapest: string): string
  {
    TitleHead(p) + TitleTail(p, cheapest)
  }

  function DescriptionHead(p: SearchParams): string
  {
    "Rezervoni bileta avioni " + RouteName(p)
  }

  function DescriptionTail(p: SearchParams, cheapest: string): (r: string)
    ensures |r| > 0 && r[0] == '.'
  {
    ". ✈️ Çmime nga " + cheapest + "€. " + (if IsRoundTrip(p) then "Vajtje-ardhje" else "Vetëm vajtje")
    + ". Rezervoni online!"
  }

  function Description(p: SearchParams, direct: bool, cheapest: string): string
  {
    DescriptionHead(p) + (if direct then DirectPhrase else "") + DescriptionTail(p, cheapest)
  }

  function Airport(code: string, name: string): Json
  {
    JObject([("@type", JString("Airport")), ("iataCode", JString(code)), ("name", JString(name))])
  }

  function Offer(price: Json): Json
  {
    JObject([("@type", JString("Offer")), ("price", price), ("priceCurrency", JString("EUR")),
             ("availability", JString("https://schema.org/InStock"))])
  }

  /** The `Flight` record: `returnTime` is spread in only for a round trip with
      a return date. */
  function FlightRecord(p: SearchParams, price: Json): Fields
  {
    var opening := [
      ("@context", JString("https://schema.org")),
      ("@type", JString("Flight")),
      ("name", JString(p.fromLocation + " to " + p.toLocation)),
      ("departureAirport", Airport(p.fromCode, p.fromLocation)),
      ("arrivalAirport", Airport(p.toCode, p.toLocation)),
      ("departureTime", JString(p.departureDate)) ];
    var withReturn := if IsRoundTrip(p) && Truthy(p.returnDate)
                      then opening + [("returnTime", JString(p.returnDate.value))] else opening;
    withReturn + [("offers", Offer(price))]
  }

  const CanonicalPrefix: string := "/results?batch_id="

  /** `generateFlightSEOData(searchParams, flights, batchId)`. */
  function GenerateFlightSeoData(p: SearchParams, flights: seq<FlightOption>, batchId: string): (r: SeoData)
    ensures |r.canonicalUrl| == |CanonicalPrefix| + |batchId|
    ensures r.canonicalUrl[..|CanonicalPrefix|] == CanonicalPrefix
    ensures r.canonicalUrl[|CanonicalPrefix|..] == batchId
  {
    var cheapest := CheapestText(flights);
    SeoData(Title(p, cheapest), Description(p, HasDirect(flights), cheapest),
            CanonicalPrefix + batchId, FlightRecord(p, CheapestJson(flights)))
  }

  // ---- properties of the head data ----------------------------------------

  /** Right after the route name, the title reads " | Vajtje-Ardhje nga "
      exactly for a round trip (and " | Nga " otherwise). */
  lemma TitleRoundTripForm(p: SearchParams, flights: seq<FlightOption>, batchId: string)
    ensures var t := GenerateFlightSeoData(p, flights, batchId).title;
            var k := |TitleHead(p)|;
            && k <= |t|
            && (StartsWith(t[k..], " | Vajtje-Ardhje nga ") <==> IsRoundTrip(p))
            && (StartsWith(t[k..], " | Nga ") <==> !IsRoundTrip(p))
  {
    var c := CheapestText(flights);
    var t := Title(p, c);
    var tail := TitleTail(p, c);
    assert t[|TitleHead(p)|..] == tail;
    if IsRoundTrip(p) {
      assert tail == " | Vajtje-Ardhje nga " + (c + "€");
      assert tail[3] == 'V';
    } else {
      assert tail == " | Nga " + (c + "€");
      assert tail[3] == 'N';
    }
  }

  /** Right after the route name, the description reads " me fluturime
      direkte" exactly when it is told there is a direct flight. */
  lemma DescriptionDirectAt(p: SearchParams, direct: bool, cheapest: string)
    ensures var d := Description(p, direct, cheapest);
            var k := |DescriptionHead(p)|;
            k <= |d| && (StartsWith(d[k..], DirectPhrase) <==> direct)
  {
    var head := DescriptionHead(p);
    var tail := DescriptionTail(p, cheapest);
    var d := Description(p, direct, cheapest);
    var k := |head|;
    if direct {
      assert d == head + (DirectPhrase + tail);
      assert d[k..] == DirectPhrase + tail;
    } else {
      assert d == head + tail;
      assert d[k..] == tail;
      assert DirectPhrase[0] == ' ';
    }
  }

  /** So the description names direct flights exactly when some result has a
      single segment. */
  lemma DescriptionDirectForm(p: SearchParams, flights: seq<FlightOption>, batchId: string)
    ensures var d := GenerateFlightSeoData(p, flights, batchId).description;
            var k := |DescriptionHead(p)|;
            && k <= |d|
            && (StartsWith(d[k..], DirectPhrase) <==> exists i :: 0 <= i < |flights| && flights[i].segments == 1)
  {
    DescriptionDirectAt(p, HasDirect(flights), CheapestText(flights));
  }

  /** `returnTime` is in the record exactly for a round trip with a return
      date, and then it is that date. */
  lemma ReturnTimeOnlyForRoundTrips(p: SearchParams, flights: seq<FlightOption>, batchId: string)
    ensures var rec := GenerateFlightSeoData(p, flights, batchId).structuredData;
            && (Field(rec, "returnTime").Some? <==> IsRoundTrip(p) && Truthy(p.returnDate))
            && (Field(rec, "returnTime").Some? ==> Field(rec, "returnTime") == Some(JString(p.returnDate.value)))
  {
    var rec := FlightRecord(p, CheapestJson(flights));
    if IsRoundTrip(p) && Truthy(p.returnDate) {
      assert |rec| == 8 && rec[6] == ("returnTime", JString(p.returnDate.value));
      assert forall j :: 0 <= j < 6 ==> |rec[j].0| != |"returnTime"|;
      FieldAt(rec, 6, "returnTime");
    } else {
      assert |rec| == 7;
      assert forall j :: 0 <= j < 7 ==> |rec[j].0| != |"returnTime"|;
      FieldAbsent(rec, "returnTime");
    }
  }

  /** The offer's price is the cheapest result: no result is cheaper and one
      costs exactly that. */
  lemma OfferIsCheapest(p: SearchParams, flights: seq<FlightOption>, batchId: string)
    requires flights != []
    ensures var rec := GenerateFlightSeoData(p, flights, batchId).structuredData;
            exists lo ::
              && Field(rec, "offers") == Some(Offer(JNumber(lo)))
              && (exists i :: 0 <= i < |flights| && flights[i].price == lo)
              && (forall i :: 0 <= i < |flights| ==> lo <= flights[i].price)
  {
    var m := MinOf(Prices(flights));
    var lo := m.value;
    var rec := FlightRecord(p, JNumber(lo));
    var a :| 0 <= a < |Prices(flights)| && Prices(flights)[a] == lo;
    assert flights[a].price == lo;
    forall i | 0 <= i < |flights|
      ensures lo <= flights[i].price
    {
      assert Prices(flights)[i] in Prices(flights);
    }
    assert rec[|rec| - 1] == ("offers", Offer(JNumber(lo)));
    assert forall j :: 0 <= j < |rec| - 1 ==> |rec[j].0| != |"offers"| || rec[j].0 == "@context";
    FieldAt(rec, |rec| - 1, "offers");
  }

  /** The value of a key that no earlier field has. */
  lemma {:induction false} FieldAt(fields: Fields, i: nat, key: string)
    requires i < |fields| && fields[i].0 == key
    requires forall j :: 0 <= j < i ==> fields[j].0 != key
    ensures Field(fields, key) == Some(fields[i].1)
    decreases i
  {
    if i > 0 {
      FieldAt(fields[1..], i - 1, key);
    }
  }

  /** Without results the title and description quote "Infinity€" and the
      record's price is null. */
  lemma NoFlightsPrintInfinity(p: SearchParams, batchId: string)
    ensures GenerateFlightSeoData(p, [], batchId).title == Title(p, "Infinity")
    ensures GenerateFlightSeoData(p, [], batchId).description == Description(p, false, "Infinity")
    ensures FlightRecord(p, CheapestJson([])) == GenerateFlightSeoData(p, [], batchId).structuredData
    ensures CheapestJson([]) == JNull
  {
  }
}
