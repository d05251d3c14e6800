/** What the SEO route page renders once its data is loaded: the template
    components in `display_order`, each dispatched on its `component_name`
    (unknown names render nothing), with the labels, price lines, FAQ texts and
    head record each block is given. */
module PageAssembler {
  import opened Base
  import opened Strings
  import opened Collections
  import opened Catalog
  import opened SeoHead
  import opened SeoHeadTemplate

  // ---- the loaded page ----------------------------------------------------

  /** The template row after its title and description went through the
      placeholder expansion. */
  datatype TemplateData = TemplateData(seoTitle: string, metaDescription: string, templateType: TemplateType)

  /** A price as the page keeps it (`airline, flight_date, total_price`). */
  datatype FlightPrice = FlightPrice(airline: string, flightDate: string, totalPrice: int)

  /** A row of `seo_template_components`. */
  datatype ComponentRow = ComponentRow(templateId: string, componentName: string, displayOrder: int, status: string)

  /** The page state `renderComponent` reads, and the request path. */
  datatype PageView = PageView(
    location: Option<LocationData>,
    template: Option<TemplateData>,
    prices: seq<FlightPrice>,
    priceTitle: Option<string>,
    pathname: string)

  // ---- component names ----------------------------------------------------

  datatype ComponentKind =
    | SeoHeadKind | HeaderKind | FlightSearchKind | PricingTableKind
    | StateCityPricingKind | StatePricingKind | RouteInfoKind | StateRouteInfoKind
    | FaqKind | StateFaqKind | RelatedDestinationsKind | FooterKind

  /** The `component_name` each case of the dispatch matches. */
  function KindName(k: ComponentKind): string
  {
    match k
    case SeoHeadKind => "SEOHead"
    case HeaderKind => "HeaderComponent"
    case FlightSearchKind => "FlightSearchComponent"
    case PricingTableKind => "PricingTableComponent"
    case StateCityPricingKind => "StateCityPricingComponent"
    case StatePricingKind => "StatePricingComponent"
    case RouteInfoKind => "RouteInfoComponent"
    case StateRouteInfoKind => "StateRouteInfoComponent"
    case FaqKind => "FAQComponent"
    case StateFaqKind => "StateFAQComponent"
    case RelatedDestinationsKind => "RelatedDestinationsComponent"
    case FooterKind => "FooterComponent"
  }

  /** The `switch` on `component_name`; `None` is the `default` case. */
  function KindOf(name: string): (r: Option<ComponentKind>)
    ensures r.Some? ==> KindName(r.value) == name
    ensures r.None? <==> forall k :: KindName(k) != name
  {
    if name == "SEOHead" then Some(SeoHeadKind)
    else if name == "HeaderComponent" then Some(HeaderKind)
    else if name == "FlightSearchComponent" then Some(FlightSearchKind)
    else if name == "PricingTableComponent" then Some(PricingTableKind)
    else if name == "StateCityPricingComponent" then Some(StateCityPricingKind)
    else if name == "StatePricingComponent" then Some(StatePricingKind)
    else if name == "RouteInfoComponent" then Some(RouteInfoKind)
    else if name == "StateRouteInfoComponent" then Some(StateRouteInfoKind)
    else if name == "FAQComponent" then Some(FaqKind)
    else if name == "StateFAQComponent" then Some(StateFaqKind)
    else if name == "RelatedDestinationsComponent" then Some(RelatedDestinationsKind)
    else if name == "FooterComponent" then Some(FooterKind)
    else None
  }

  /** Every kind is reached by its own name. */
  lemma KindNameRoundTrip(k: ComponentKind)
    ensures KindOf(KindName(k)) == Some(k)
  {
    if CaseIndex(k) < 6 {
      KindFoundEarly(k);
    } else if CaseIndex(k) < 9 {
      KindFoundMiddle(k);
    } else if CaseIndex(k) < 11 {
      KindFoundLate(k);
    } else {
      assert k == FooterKind;
      assert KindOf("FooterComponent") == Some(FooterKind);
    }
  }

  /** The place of a kind's `case` in the `switch`. */
  function CaseIndex(k: ComponentKind): nat
  {
    match k
    case SeoHeadKind => 0
    case HeaderKind => 1
    case FlightSearchKind => 2
    case PricingTableKind => 3
    case StateCityPricingKind => 4
    case StatePricingKind => 5
    case RouteInfoKind => 6
    case StateRouteInfoKind => 7
    case FaqKind => 8
    case StateFaqKind => 9
    case RelatedDestinationsKind => 10
    case FooterKind => 11
  }

  lemma KindFoundEarly(k: ComponentKind)
    requires CaseIndex(k) < 6
    ensures KindOf(KindName(k)) == Some(k)
  {
  }

  lemma KindFoundMiddle(k: ComponentKind)
    requires 6 <= CaseIndex(k) < 9
    ensures KindOf(KindName(k)) == Some(k)
  {
  }

  lemma KindFoundLate(k: ComponentKind)
    requires 9 <= CaseIndex(k) < 11
    ensures KindOf(KindName(k)) == Some(k)
  {
  }

  predicate IsKnown(c: ComponentRow)
  {
    KindOf(c.componentName).Some?
  }

  function DisplayOrder(c: ComponentRow): int
  {
    c.displayOrder
  }

  // ---- labels -------------------------------------------------------------

  /** `location.city || location.state`: the label the city-based blocks get. */
  function CityOrState(l: Location): (r: string)
    ensures Truthy(l.city) ==> r == l.city.value
    ensures !Truthy(l.city) ==> r == l.state
  {
    OrElse(l.city, l.state)
  }

  /** `city || undefined`: an empty or missing city is not passed on. */
  function CityIfAny(l: Location): (r: Option<string>)
    ensures Truthy(r) <==> Truthy(l.city)
    ensures r.Some? ==> r == l.city
  {
    if Truthy(l.city) then l.city else None
  }

  // ---- the blocks ---------------------------------------------------------

  datatype PriceLine = PriceLine(airline: string, date: string, price: int)
  datatype Question = Question(question: string, answer: string)
  datatype FooterLink = FooterLink(text: string, url: string, category: string)

  datatype Body =
    | HeadBody(props: TemplateProps)
    | HeaderBody(heading: string, subtitle: string)
    | CityPairBody(fromCity: string, toCity: string)
    | PricingBody(fromCity: string, toCity: string, lines: seq<PriceLine>, title: Option<string>)
    | LocationsBody(fromLocation: Location, toLocation: Location, title: Option<string>)
    | RouteInfoBody(fromCity: string, toCity: string, airlines: seq<string>, duration: string,
                    title: Option<string>, isDirect: bool)
    | FaqBody(fromCity: string, toCity: string, questions: seq<Question>, title: Option<string>)
    | FooterBody(fromCity: string, toCity: string, seoText: string, links: seq<FooterLink>)

  /** One rendered component: which case of the dispatch produced it and the
      props it was given. */
  datatype Block = Block(kind: ComponentKind, body: Body)

  /** `templateData?.seo_title ?? ''` and `templateData?.meta_description ?? ''`. */
  function TitleOrEmpty(view: PageView): string
  {
    if view.template.Some? then view.template.value.seoTitle else ""
  }

  function DescriptionOrEmpty(view: PageView): string
  {
    if view.template.Some? then view.template.value.metaDescription else ""
  }

  /** The props of the head block: the path as canonical URL, the cities only
      when non-empty, the states always. */
  function HeadProps(view: PageView, d: LocationData): TemplateProps
  {
    TemplateProps(
      title := TitleOrEmpty(view),
      description := DescriptionOrEmpty(view),
      canonicalUrl := Some(view.pathname),
      structuredData := None,
      imageUrl := None,
      pageType := None,
      fromCity := CityIfAny(d.fromLocation),
      toCity := CityIfAny(d.toLocation),
      fromState := Some(d.fromLocation.state),
      toState := Some(d.toLocation.state))
  }

  function PriceLines(prices: seq<FlightPrice>): (r: seq<PriceLine>)
    ensures |r| == |prices|
    ensures forall i :: 0 <= i < |r| ==>
              r[i] == PriceLine(prices[i].airline, prices[i].flightDate, prices[i].totalPrice)
  {
    seq(|prices|, i requires 0 <= i < |prices| =>
      PriceLine(prices[i].airline, prices[i].flightDate, prices[i].totalPrice))
  }

  function Airlines(prices: seq<FlightPrice>): (r: seq<string>)
    ensures |r| == |prices|
    ensures forall i :: 0 <= i < |r| ==> r[i] == prices[i].airline
  {
    seq(|prices|, i requires 0 <= i < |prices| => prices[i].airline)
  }

  function Totals(prices: seq<FlightPrice>): (r: seq<int>)
    ensures |r| == |prices|
    ensures forall i :: 0 <= i < |r| ==> r[i] == prices[i].totalPrice
  {
    seq(|prices|, i requires 0 <= i < |prices| => prices[i].totalPrice)
  }

  /** `Array.from(new Set(prices.map(p => p.airline)))`. */
  function AirlineList(prices: seq<FlightPrice>): (r: seq<string>)
    ensures NoDuplicates(r)
    ensures forall i :: 0 <= i < |prices| ==> prices[i].airline in r
    ensures forall i :: 0 <= i < |r| ==> exists j :: 0 <= j < |prices| && prices[j].airline == r[i]
  {
    var names := Airlines(prices);
    var r := Distinct(names);
    assert forall i :: 0 <= i < |prices| ==> prices[i].airline == names[i];
    forall i | 0 <= i < |r|
      ensures exists j :: 0 <= j < |prices| && prices[j].airline == r[i]
    {
      var j := FirstIndex(names, r[i]);
      assert prices[j].airline == r[i];
    }
    r
  }

  /** `${Math.min(...)}` / `${Math.max(...)}`: the number, or the text of the
      infinity an empty list gives. */
  function PriceText(m: Option<int>, empty: string): string
  {
    if m.Some? then IntToString(m.value) else empty
  }

  const PriceAsk: string := "Sa kushton një biletë "
  const PriceFrom: string := "Çmimet për fluturime "
  const PriceStart: string := " fillojnë nga "
  const PriceUpTo: string := "€ dhe mund të arrijnë deri në "
  const PriceSeason: string := "€, në varësi të sezonit dhe disponueshmërisë."
  const BookingAsk: string := "si mund te rezervojme bileta "
  const BookingTickets: string := "Biletat "
  const BookingStaff: string := " mund ti rezervoni duke kontaktuar me stafin tone."
  const AirlinesAsk: string := "Cilat kompani ajrore operojnë në këtë rrugë?"
  const AirlinesMain: string := "Kompanitë kryesore që operojnë fluturime "
  const AirlinesAre: string := " janë "
  const DirectAsk: string := "A ka fluturime direkte "
  const DirectContact: string := "Kontaktoni me stafin tone tone per tu informuar rreth fluturimeve per bileta avioni "
  const WhenAsk: string := "Kur duhet të rezervoj biletën time?"
  const WhenAnswer: string :=
    "Rekomandohet të rezervoni biletën tuaj të paktën 2-3 muaj përpara për të gjetur çmimet më të mira. "
    + "Gjatë sezonit të lartë (verë dhe festa), është mirë të rezervoni edhe më herët."

  function PriceQuestion(t: string, lo: string, hi: string): Question
  {
    Question(PriceAsk + t + "?", PriceFrom + t + PriceStart + lo + PriceUpTo + hi + PriceSeason)
  }

  function BookingQuestion(t: string): Question
  {
    Question(BookingAsk + t + "?", BookingTickets + t + BookingStaff)
  }

  function AirlinesQuestion(t: string, names: seq<string>): Question
  {
    Question(AirlinesAsk, AirlinesMain + t + AirlinesAre + Join(names, ", ") + ".")
  }

  function DirectQuestion(t: string): Question
  {
    Question(DirectAsk + t + "?", DirectContact + t + ".")
  }

  function WhenQuestion(): Question
  {
    Question(WhenAsk, WhenAnswer)
  }

  /** The five questions of the FAQ block, in order; `${priceTitle}` prints a
      missing title as "null". */
  function FaqQuestions(priceTitle: Option<string>, prices: seq<FlightPrice>): (qs: seq<Question>)
    ensures |qs| == 5
  {
    var t := Interp(priceTitle);
    [ PriceQuestion(t, PriceText(MinOf(Totals(prices)), "Infinity"), PriceText(MaxOf(Totals(prices)), "-Infinity")),
      BookingQuestion(t),
      AirlinesQuestion(t, AirlineList(prices)),
      DirectQuestion(t),
      WhenQuestion() ]
  }

  /** The first question quotes the cheapest and the dearest price of the list. */
  lemma FaqQuotesPriceRange(priceTitle: Option<string>, prices: seq<FlightPrice>, lo: int, hi: int)
    requires lo in Totals(prices) && forall i :: 0 <= i < |prices| ==> lo <= prices[i].totalPrice
    requires hi in Totals(prices) && forall i :: 0 <= i < |prices| ==> prices[i].totalPrice <= hi
    ensures FaqQuestions(priceTitle, prices)[0] ==
            PriceQuestion(Interp(priceTitle), IntToString(lo), IntToString(hi))
  {
    MinOfIsLeast(Totals(prices), lo);
    MaxOfIsGreatest(Totals(prices), hi);
  }

  /** With no prices the first question prints JavaScript's infinities. */
  lemma FaqWithoutPrices(priceTitle: Option<string>)
    ensures FaqQuestions(priceTitle, [])[0] == PriceQuestion(Interp(priceTitle), "Infinity", "-Infinity")
  {
  }

  /** The third question names each airline once, in the order of first appearance. */
  lemma FaqNamesAirlinesOnce(priceTitle: Option<string>, prices: seq<FlightPrice>)
    ensures var names := AirlineList(prices);
            && FaqQuestions(priceTitle, prices)[2] == AirlinesQuestion(Interp(priceTitle), names)
            && NoDuplicates(names)
            && (forall i :: 0 <= i < |prices| ==> prices[i].airline in names)
  {
  }

  const FooterLinks: seq<FooterLink> := [
    FooterLink("Tirana - London", "/bileta-avioni-tirana-ne-london", "Popular"),
    FooterLink("Tirana - Paris", "/bileta-avioni-tirana-ne-paris", "Popular"),
    FooterLink("FAQ", "/pyetjet-e-bera-shpesh", "Quick") ]

  const FooterOpening: string := "Rezervoni biletat tuaja për fluturime të lira nga "
  const FooterClosing: string := ". Ne ofrojmë çmimet më të mira dhe shërbimin më të mirë për udhëtarët tanë."

  function FooterText(fromCity: string, toCity: string): string
  {
    FooterOpening + fromCity + " në " + toCity + FooterClosing
  }

  /** The props one case of the dispatch passes to its component. */
  function RenderKind(view: PageView, d: LocationData, k: ComponentKind): (b: Block)
    ensures b.kind == k
  {
    var fromCity := CityOrState(d.fromLocation);
    var toCity := CityOrState(d.toLocation);
    var body := match k
      case SeoHeadKind => HeadBody(HeadProps(view, d))
      case HeaderKind => HeaderBody(TitleOrEmpty(view), DescriptionOrEmpty(view))
      case FlightSearchKind => CityPairBody(fromCity, toCity)
      case PricingTableKind => PricingBody(fromCity, toCity, PriceLines(view.prices), view.priceTitle)
      case RouteInfoKind =>
        RouteInfoBody(fromCity, toCity, AirlineList(view.prices), "1h 40m", view.priceTitle, true)
      case FaqKind => FaqBody(fromCity, toCity, FaqQuestions(view.priceTitle, view.prices), view.priceTitle)
      case FooterKind => FooterBody(fromCity, toCity, FooterText(fromCity, toCity), FooterLinks)
      case _ => LocationsBody(d.fromLocation, d.toLocation, view.priceTitle);
    Block(k, body)
  }

  /** The cases that label each end by its city, falling back to its state. */
  predicate CityBased(k: ComponentKind)
  {
    k.FlightSearchKind? || k.PricingTableKind? || k.RouteInfoKind? || k.FaqKind? || k.FooterKind?
  }

  /** The cases that get both locations whole. */
  predicate StateBased(k: ComponentKind)
  {
    k.StateCityPricingKind? || k.StatePricingKind? || k.StateRouteInfoKind? || k.StateFaqKind? ||
    k.RelatedDestinationsKind?
  }

  /** The city-based blocks name each end by its city when it has a non-empty
      one, and by its state otherwise. */
  lemma RenderKindCityLabels(view: PageView, d: LocationData, k: ComponentKind)
    requires CityBased(k)
    ensures var b := RenderKind(view, d, k).body;
            && (b.CityPairBody? || b.PricingBody? || b.RouteInfoBody? || b.FaqBody? || b.FooterBody?)
            && b.fromCity == (if Truthy(d.fromLocation.city) then d.fromLocation.city.value else d.fromLocation.state)
            && b.toCity == (if Truthy(d.toLocation.city) then d.toLocation.city.value else d.toLocation.state)
  {
  }

  /** The state-based blocks get both locations unchanged and the price title. */
  lemma RenderKindLocations(view: PageView, d: LocationData, k: ComponentKind)
    requires StateBased(k)
    ensures RenderKind(view, d, k).body == LocationsBody(d.fromLocation, d.toLocation, view.priceTitle)
  {
  }

  /** The pricing table gets one line per price, in order, and the price title. */
  lemma RenderKindPricingTable(view: PageView, d: LocationData)
    ensures var b := RenderKind(view, d, PricingTableKind).body;
            && b.PricingBody? && |b.lines| == |view.prices| && b.title == view.priceTitle
            && forall i :: 0 <= i < |b.lines| ==>
                 b.lines[i] == PriceLine(view.prices[i].airline, view.prices[i].flightDate, view.prices[i].totalPrice)
  {
  }

  /** The route info gets each airline of the prices once, a fixed duration, a
      direct flag and the price title. */
  lemma RenderKindRouteInfo(view: PageView, d: LocationData)
    ensures var b := RenderKind(view, d, RouteInfoKind).body;
            && b.RouteInfoBody? && b.airlines == AirlineList(view.prices) && b.title == view.priceTitle
            && b.isDirect && b.duration == "1h 40m"
  {
  }

  /** The FAQ gets the five questions built from the prices and the price title. */
  lemma RenderKindFaq(view: PageView, d: LocationData)
    ensures var b := RenderKind(view, d, FaqKind).body;
            && b.FaqBody? && b.questions == FaqQuestions(view.priceTitle, view.prices) && b.title == view.priceTitle
  {
  }

  /** The footer's text names both of its labels; its links are fixed. */
  lemma RenderKindFooter(view: PageView, d: LocationData)
    ensures var b := RenderKind(view, d, FooterKind).body;
            && b.FooterBody? && b.seoText == FooterText(b.fromCity, b.toCity) && b.links == FooterLinks
  {
  }

  /** The header gets the page's title and description, empty when there is
      no template. */
  lemma RenderKindHeader(view: PageView, d: LocationData)
    ensures var b := RenderKind(view, d, HeaderKind).body;
            && b.HeaderBody?
            && b.heading == (if view.template.Some? then view.template.value.seoTitle else "")
            && b.subtitle == (if view.template.Some? then view.template.value.metaDescription else "")
  {
  }

  /** The head block gets the page's title and description, the path as
      canonical URL, the cities only when non-empty and the states always. */
  lemma RenderKindHead(view: PageView, d: LocationData)
    ensures var b := RenderKind(view, d, SeoHeadKind).body;
            && b.HeadBody?
            && b.props.title == (if view.template.Some? then view.template.value.seoTitle else "")
            && b.props.description == (if view.template.Some? then view.template.value.metaDescription else "")
            && b.props.canonicalUrl == Some(view.pathname)
            && b.props.fromCity == (if Truthy(d.fromLocation.city) then d.fromLocation.city else None)
            && b.props.toCity == (if Truthy(d.toLocation.city) then d.toLocation.city else None)
            && b.props.fromState == Some(d.fromLocation.state) && b.props.toState == Some(d.toLocation.state)
  {
  }

  /** `renderComponent`: nothing without location data or for an unknown name. */
  function RenderComponent(view: PageView, c: ComponentRow): (r: Option<Block>)
    ensures r.Some? <==> view.location.Some? && IsKnown(c)
    ensures r.Some? ==> KindName(r.value.kind) == c.componentName
  {
    if view.location.None? then None
    else
      match KindOf(c.componentName)
      case None => None
      case Some(k) => Some(RenderKind(view, view.location.value, k))
  }

  /** `renderComponent` as a value, for the `map`. */
  function Renderer(view: PageView): ComponentRow -> Option<Block>
  {
    c => RenderComponent(view, c)
  }

  /** The blocks of a list of components, in list order, nulls dropped. */
  function RenderAll(view: PageView, cs: seq<ComponentRow>): (r: seq<Block>)
    ensures |r| <= |cs|
  {
    FilterMap(cs, Renderer(view))
  }

  /** `components.sort((a, b) => a.display_order - b.display_order).map(renderComponent)`. */
  function RenderPage(view: PageView, cs: seq<ComponentRow>): seq<Block>
  {
    RenderAll(view, SortBy(cs, DisplayOrder))
  }

  /** Unknown components contribute nothing, wherever they stand. */
  lemma RenderAllSkipsUnknown(view: PageView, cs: seq<ComponentRow>)
    ensures RenderAll(view, cs) == RenderAll(view, Filter(cs, IsKnown))
  {
    forall c | Renderer(view)(c).Some?
      ensures IsKnown(c)
    {
    }
    FilterMapDropsUnkept(cs, Renderer(view), IsKnown);
  }

  /** A list of known components renders one block each, in the same order. */
  lemma RenderAllKnown(view: PageView, d: LocationData, cs: seq<ComponentRow>)
    requires view.location == Some(d)
    requires forall i :: 0 <= i < |cs| ==> KindOf(cs[i].componentName).Some?
    ensures |RenderAll(view, cs)| == |cs|
    ensures forall i :: 0 <= i < |cs| ==>
              RenderAll(view, cs)[i] == RenderKind(view, d, KindOf(cs[i].componentName).value)
  {
    FilterMapAllSome(cs, Renderer(view));
  }

  /** The page shows exactly the known components, sorted by `display_order`
      (stably), one block each. */
  lemma RenderPageShowsKnownInOrder(view: PageView, d: LocationData, cs: seq<ComponentRow>)
    requires view.location == Some(d)
    ensures var known := SortBy(Filter(cs, IsKnown), DisplayOrder);
            && SortedBy(known, DisplayOrder)
            && multiset(known) == multiset(Filter(cs, IsKnown))
            && |RenderPage(view, cs)| == |known|
            && forall i :: 0 <= i < |known| ==>
                 && KindOf(known[i].componentName).Some?
                 && RenderPage(view, cs)[i] == RenderKind(view, d, KindOf(known[i].componentName).value)
  {
    RenderPageRendersKnown(view, cs);
    SortedFilterKeeps(cs, DisplayOrder, IsKnown);
    RenderAllKnown(view, d, SortBy(Filter(cs, IsKnown), DisplayOrder));
  }

  /** Sorting first and dropping the unknown components afterwards renders the
      same blocks as sorting the known components alone. */
  lemma RenderPageRendersKnown(view: PageView, cs: seq<ComponentRow>)
    ensures RenderPage(view, cs) == RenderAll(view, SortBy(Filter(cs, IsKnown), DisplayOrder))
  {
    RenderAllSkipsUnknown(view, SortBy(cs, DisplayOrder));
    FilterSortCommute(cs, DisplayOrder, IsKnown);
  }

  /** Without location data nothing is rendered. */
  lemma RenderPageNeedsLocation(view: PageView, cs: seq<ComponentRow>)
    requires view.location.None?
    ensures RenderPage(view, cs) == []
  {
    FilterMapAllNone(SortBy(cs, DisplayOrder), Renderer(view));
  }

  // ---- what the head block shows ------------------------------------------

  /** On the route page both states are always passed, so when both are
      non-empty the structured record types the endpoints as `State`s even
      for two cities. */
  lemma RoutePageRecordUsesStates(view: PageView, d: LocationData)
    requires d.fromLocation.state != "" && d.toLocation.state != ""
    ensures var tags := TemplateHead(HeadProps(view, d));
            && ScriptData(tags).Some?
            && ScriptData(tags).value.JObject?
            && Field(ScriptData(tags).value.fields, "fromLocation") == Some(Place("State", d.fromLocation.state))
            && Field(ScriptData(tags).value.fields, "toLocation") == Some(Place("State", d.toLocation.state))
  {
    StatePairOverridesCityPair(HeadProps(view, d));
  }

  /** The head block's canonical link is the site base joined with the path,
      and its place name is the departure city, else its state, else 'Albania'. */
  lemma RoutePageHeadLinks(view: PageView, d: LocationData)
    ensures var tags := TemplateHead(HeadProps(view, d));
            && CanonicalOf(tags) == Some(if view.pathname != "" then BaseUrl + view.pathname else BaseUrl)
            && MetaContent(tags, "geo.placename") ==
                 Some(if Truthy(d.fromLocation.city) then d.fromLocation.city.value
                      else if d.fromLocation.state != "" then d.fromLocation.state else "Albania")
  {
  }
}
