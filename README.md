# Hima Travel SEO pages and sitemaps, in Dafny

This project models the rule-bearing core of the Hima Travel flight-booking
site, a React front end over a Supabase data service. It covers the following parts:

- **The SEO route page** (`src/pages/SEOPage.tsx`).
  - It resolves the request path to a route connection, retrying once without a trailing slash.
  - It picks an IATA code for each city and fetches the ten cheapest prices of the route.
  - It loads the page template and its components, and expands the `{nga_city}`, `{per_city}`,
    `{nga_state}` and `{per_state}` placeholders.
  - It renders the components sorted by `display_order`, skipping unknown ones. The FAQ quotes
    the cheapest and dearest price and the distinct airlines.
- **The sitemap handlers.** Each writes a Sitemaps XML protocol 0.9 document.
  - `api/fresh-sitemap.js` reads the active routes in batches of 1000 rows until a batch comes back short.
  - `api/sitemap-page.js` serves one 10000-row shard of the routes.
  - `api/sitemap-index.js` is the fixed index of eight shards.
  - `api/sitemap.ts` is the single-query sitemap.
  - `src/utils/seo.ts` builds a sitemap from slug URLs.
- **The head builders.**
  - Both `SEOHead` components: the canonical URL, the meta and open-graph tags, and the
    schema.org record, where a state pair overrides a city pair.
  - The search-result head data of `src/utils/seo.ts`.
- **The home page's popular routes** (`PopularRoutes.tsx`): the route labels, the six-route load and the click guard.
- **The admin location-status toggle** (`LocationFormats.tsx`): only the rows with the clicked id change, and a failed update changes nothing.

Modelling choices:

- **Queries.** The database is modelled as tables of rows in the order the service returns them, plus, for each query, whether it fails.
  - `.single()` succeeds only with exactly one matching row.
  - `.range(from, to)` is a clamped inclusive slice.
  - `.limit(n)` is a prefix.
- **JavaScript semantics.**
  - Nullable strings are `Option<string>`, with JavaScript truthiness.
  - A template literal prints null as "null".
  - `Array.sort` is a stable insertion sort.
  - `Math.min` and `Math.max` of an empty list print as "Infinity" and "-Infinity".
  - `JSON.stringify` prints `Infinity` as null.
- **Component state.** Imperative code with component state (`fetchPageData`, `fetchRoutes`,
  `handleStatusToggle`) and the pagination loop are classes and methods. Each method is proved
  against a function that states the new state.

Where the code's own comments or naming suggest one behaviour and the code does another, the model follows the code:

- **`{nga_city}` fallback.** When `nga_format` is empty, `{nga_city}` becomes the bare city
  (or "null"), with no "nga " prefix. The popular-routes label does add "nga "
  (`PopularRoutes.FromNameVersusPlaceholder`).
- **Trailing slash.** The retry only removes a trailing '/'. A route stored as "/x/" is not
  found from "/x" (`RouteResolver.SlashToleranceIsOneWay`).
- **Index size.** The sitemap index names 8 shards of 10000 rows, although a comment beside it
  speaks of 80 pages of 1000 URLs. Routes past row 80000 are in no shard
  (`SitemapIndex.IndexCoversCatalogIffSmall`).

## Model

| member | source | states |
|---|---|---|
| Strings.ReplaceAllIsSplitJoin | src/pages/SEOPage.tsx:75-90 | a global `replace` with a literal pattern is split at the pattern and join with the replacement |
| Strings.ReplaceAbsent | src/pages/SEOPage.tsx:75-90 | a text without the token is left as it is by its replacement step |
| Strings.SplitPiecesAvoid | src/pages/SEOPage.tsx:75-90 | the pieces between replaced tokens hold no token: every occurrence is replaced |
| Strings.SplitSingleIffAbsent | src/pages/SEOPage.tsx:75-90 | a text splits into one piece exactly when the token does not occur |
| Strings.SplitJoinRoundTrip | src/pages/SEOPage.tsx:75-90 | splitting and joining back with the token gives the text back |
| Strings.ReplaceBySelf | src/pages/SEOPage.tsx:75-90 | replacing a token by itself changes nothing |
| Placeholders.ReplacePlaceholders | src/pages/SEOPage.tsx:70-71 | an empty text gives the empty string |
| Placeholders.NoTokenUnchanged | src/pages/SEOPage.tsx:70-93 | a text holding none of the four tokens is returned unchanged |
| Placeholders.PerStateApart | src/pages/SEOPage.tsx:75-90 | no token occurs inside a later one, so a lone later token passes the earlier steps untouched |
| Placeholders.NgaCityAlone | src/pages/SEOPage.tsx:75-78 | `{nga_city}` becomes `nga_format` when non-empty, else the raw city ("null" for a null city), with no "nga " prefix |
| Placeholders.PerCityAlone | src/pages/SEOPage.tsx:79-82 | `{per_city}` becomes `per_format` or the raw destination city |
| Placeholders.NgaStateAlone | src/pages/SEOPage.tsx:83-86 | `{nga_state}` becomes `nga_format` or the origin state |
| Placeholders.PerStateAlone | src/pages/SEOPage.tsx:87-90 | `{per_state}` becomes `per_format` or the destination state |
| Placeholders.LaterStepsRewriteEarlierPhrases | src/pages/SEOPage.tsx:73-92 | the steps run in fixed order on the previous result, so a phrase holding a later token is expanded again |
| RouteResolver.StripTrailingSlash | src/pages/SEOPage.tsx:148 | exactly one trailing '/' is removed and nothing else changes |
| RouteResolver.ActiveWithUrl | src/pages/SEOPage.tsx:143-144 | the rows selected are exactly the active rows with that URL |
| RouteResolver.FindActive | src/pages/SEOPage.tsx:129-145 | `.single()` yields a row exactly when one active row has the URL |
| RouteResolver.Resolve | src/pages/SEOPage.tsx:129-180 | a found connection is active and has the path or the path without its trailing slash |
| RouteResolver.ResolveTriesExactFirst | src/pages/SEOPage.tsx:147-180 | the exact path's row is used when found; only otherwise is the path without its trailing slash looked up |
| RouteResolver.ResolveBothMissNotFound | src/pages/SEOPage.tsx:169-174 | a path with a trailing slash that neither lookup finds is not found |
| RouteResolver.TrailingSlashTolerated | src/pages/SEOPage.tsx:147-177 | a path with a trailing slash finds the connection stored without it |
| RouteResolver.NoSlashAdded | src/pages/SEOPage.tsx:147-174 | a path without a trailing slash is looked up once, as it is |
| RouteResolver.SlashToleranceIsOneWay | src/pages/SEOPage.tsx:147-174 | "/x/" is found for "/x/" but not for "/x" |
| RouteResolver.CodesOf | src/pages/SEOPage.tsx:99-102 | every airport of that city contributes its (possibly null) code |
| RouteResolver.CodesOfSound | src/pages/SEOPage.tsx:99-102 | every candidate code is the code of an airport of that city |
| RouteResolver.CodesOfAppend | src/pages/SEOPage.tsx:99-102 | the candidates keep the table's order and multiplicity |
| RouteResolver.MainAirports | src/pages/SEOPage.tsx:107-110 | the kept codes are three-character codes without 'X' taken from the list, and none is kept exactly when the list has none |
| RouteResolver.MainAirportsFirst | src/pages/SEOPage.tsx:107-112 | the first kept code is the first main code of the list |
| RouteResolver.GetIataCode | src/pages/SEOPage.tsx:95-117 | null for a null or empty city and for a failed query; otherwise null or a non-empty candidate code |
| RouteResolver.IataPrefersMainCode | src/pages/SEOPage.tsx:107-112 | when every candidate has a code and one is a main airport, the first main code is chosen |
| RouteResolver.IataFallsBackToFirst | src/pages/SEOPage.tsx:112 | without a main airport the first candidate's code is chosen (null when empty) |
| RouteResolver.IataNullCodeGivesNull | src/pages/SEOPage.tsx:107-116 | a null candidate code makes the filter throw, and the catch returns null |
| RouteResolver.OnRoute | src/pages/SEOPage.tsx:198-199 | the prices kept are exactly those of the origin and destination asked for |
| RouteResolver.OnRouteAppend | src/pages/SEOPage.tsx:198-199 | the route's prices keep the table's order and multiplicity |
| RouteResolver.OnRouteSingle | src/pages/SEOPage.tsx:198-199 | a single row is kept exactly when it is of the route asked for |
| RouteResolver.PriceQueryShape | src/pages/SEOPage.tsx:195-201 | the first ten (or all, when fewer) of the route's prices sorted by total price, all of the route, ascending |
| RouteResolver.PriceQueryCheapest | src/pages/SEOPage.tsx:200-201 | no price of the route left out is cheaper than one kept |
| RouteResolver.PriceQueryKeepsFewPrices | src/pages/SEOPage.tsx:200-201 | a route with at most ten prices keeps all of them |
| Collections.SortBy | src/pages/SEOPage.tsx:489 | the sort gives a sorted permutation of the components |
| Collections.SortByStable | src/pages/SEOPage.tsx:489 | equal `display_order` values keep their relative order |
| Collections.SortBySortedIsIdentity | src/pages/SEOPage.tsx:489 | sorting an already sorted list changes nothing |
| Collections.FilterSortCommute | src/pages/SEOPage.tsx:446-447 | dropping unknown components before or after sorting gives the same list |
| Collections.FilterMapDropsUnkept | src/pages/SEOPage.tsx:490-494 | elements that render nothing can be dropped before the map without changing what is shown |
| Collections.FilterMapAllSome | src/pages/SEOPage.tsx:490-494 | when every element renders, one value each is shown, in order |
| Collections.FilterMapAllNone | src/pages/SEOPage.tsx:490-494 | when no element renders, nothing is shown |
| Collections.MinOf | src/pages/SEOPage.tsx:369 | `Math.min` is an element no greater than any other, and absent only for an empty list |
| Collections.MaxOf | src/pages/SEOPage.tsx:370 | `Math.max` is an element no smaller than any other, and absent only for an empty list |
| Collections.MinOfIsLeast | src/pages/SEOPage.tsx:369 | an attained lower bound is the minimum |
| Collections.MaxOfIsGreatest | src/pages/SEOPage.tsx:370 | an attained upper bound is the maximum |
| Collections.Distinct | src/pages/SEOPage.tsx:350 | `Array.from(new Set(...))` holds each value of the list once and nothing else |
| Collections.DistinctInFirstOccurrenceOrder | src/pages/SEOPage.tsx:350 | the values come in the order of their first occurrence |
| Collections.DistinctSnoc | src/pages/SEOPage.tsx:350 | a value seen before is dropped; a new value is added at the end |
| Collections.Take | src/components/home/PopularRoutes.tsx:49 | `.limit(n)` is the prefix of exactly n rows, or the whole list when it is shorter |
| SeoPage.ErrorText | src/pages/SEOPage.tsx:266 | an `Error` shows its message, anything else 'Failed to load page' |
| SeoPage.FindConnection | src/pages/SEOPage.tsx:129-180 | a failed connection query finds nothing; a found connection is an active row |
| SeoPage.Projected | src/pages/SEOPage.tsx:197 | the price rows keep airline, date and total, in order |
| SeoPage.TemplateFor | src/pages/SEOPage.tsx:212-218 | a template query error is thrown; `.single()` gives a row exactly when one row has the type, and that row |
| SeoPage.TemplateForTwoMatchesFails | src/pages/SEOPage.tsx:212-218 | two rows of the type make `.single()` fail |
| SeoPage.ComponentsFor | src/pages/SEOPage.tsx:221-228 | the components are the active ones of the template, each as often as in the table, ordered by `display_order`; a query error is thrown |
| SeoPage.ComponentsForComplete | src/pages/SEOPage.tsx:221-228 | every active component of the template is loaded |
| Collections.FilterComplete | src/pages/SEOPage.tsx:221-228 | a row that passes the test is kept |
| Collections.FilterAppend | src/pages/SEOPage.tsx:221-228 | filtering keeps the order of the rows |
| SeoPage.Priced | src/pages/SEOPage.tsx:185-210 | the price step changes nothing but the prices |
| SeoPage.Templated | src/pages/SEOPage.tsx:212-251 | the template step ends loading and leaves the prices and the location alone |
| SeoPage.Fetched | src/pages/SEOPage.tsx:119-270 | whatever happens, loading ends |
| SeoPage.SeoPageComponent.constructor | src/pages/SEOPage.tsx:58-64 | the initial state is loading, no error, no data |
| SeoPage.SeoPageComponent.FetchPageData | src/pages/SEOPage.tsx:119-270 | the step-by-step load leaves exactly the state the specification function gives |
| SeoPage.SeoPageComponent.FetchPrices | src/pages/SEOPage.tsx:185-210 | the IATA lookups and the price query leave the state of the price step, or the failed state |
| SeoPage.SeoPageComponent.LoadTemplate | src/pages/SEOPage.tsx:212-219 | the template query, then the component step, leave the state of the template step |
| SeoPage.WithComponents | src/pages/SEOPage.tsx:221-251 | the component step ends loading and leaves the prices and the location alone |
| SeoPage.SeoPageComponent.LoadComponents | src/pages/SEOPage.tsx:221-251 | the component query and the expanded texts leave the state of the component step |
| SeoPage.ScreenOf | src/pages/SEOPage.tsx:451-482 | content only when loaded without error and with template and location data; the not-found panel shows the error |
| SeoPage.UnknownPathNotFound | src/pages/SEOPage.tsx:169-174 | an unknown path ends with 'Page data not found' and nothing else set |
| SeoPage.PricesNeedBothCodes | src/pages/SEOPage.tsx:192-210 | prices are fetched only when both cities have an IATA code |
| SeoPage.PricesAreCheapestOfRoute | src/pages/SEOPage.tsx:195-209 | changed prices mean both codes exist; they are ten of the route's prices (all, when fewer), ascending, each projected from a row of the route |
| SeoPage.ProjectedPricesOfRoute | src/pages/SEOPage.tsx:195-209 | the prices shown for a route number ten (all, when fewer), each projected from a row of that route |
| SeoPage.SuccessfulLoad | src/pages/SEOPage.tsx:182-251 | a load whose queries succeed ends without error and stores the location, the expanded title and description, the price title, the sorted components and, when both cities have a code, the route's prices |
| SeoPage.SuccessfulLoadShowsComponents | src/pages/SEOPage.tsx:451-494 | such a load then shows the template's components in `display_order` |
| SeoPage.PageSortKeepsServiceOrder | src/pages/SEOPage.tsx:488-489 | the page's sort leaves the service's ordering unchanged |
| SeoPage.QueryFailureMessage | src/pages/SEOPage.tsx:264-266 | a failing template query ends the load with its message |
| PageAssembler.KindOf | src/pages/SEOPage.tsx:278-447 | a name selects the component whose case matches it, and none exactly when no case does |
| PageAssembler.KindNameRoundTrip | src/pages/SEOPage.tsx:278-447 | every case is reached by its own name |
| PageAssembler.CityOrState | src/pages/SEOPage.tsx:275-276 | the label is the city when non-empty, else the state |
| PageAssembler.CityIfAny | src/pages/SEOPage.tsx:285-286 | an empty or missing city is not passed to the head |
| PageAssembler.PriceLines | src/pages/SEOPage.tsx:315-319 | each price becomes one pricing line, in order |
| PageAssembler.AirlineList | src/pages/SEOPage.tsx:350 | the airlines of the prices, each once |
| PageAssembler.FaqQuestions | src/pages/SEOPage.tsx:376-397 | the FAQ has five questions |
| PageAssembler.FaqQuotesPriceRange | src/pages/SEOPage.tsx:369-380 | the first answer quotes the minimum and the maximum price |
| PageAssembler.FaqWithoutPrices | src/pages/SEOPage.tsx:369-370 | with no prices it quotes "Infinity" and "-Infinity" |
| PageAssembler.FaqNamesAirlinesOnce | src/pages/SEOPage.tsx:387 | the third answer joins the distinct airlines with ", " |
| PageAssembler.RenderKind | src/pages/SEOPage.tsx:278-444 | each case renders the block of its own kind |
| PageAssembler.RenderKindCityLabels | src/pages/SEOPage.tsx:275-276 | the city-based blocks name each end by its non-empty city, else by its state |
| PageAssembler.RenderKindLocations | src/pages/SEOPage.tsx:325-343 | the state-based blocks get both locations unchanged and the price title |
| PageAssembler.RenderKindPricingTable | src/pages/SEOPage.tsx:310-322 | the pricing table gets one line per price, in order, and the price title |
| PageAssembler.RenderKindRouteInfo | src/pages/SEOPage.tsx:345-356 | the route info gets each airline once, the fixed duration, the direct flag and the price title |
| PageAssembler.RenderKindFaq | src/pages/SEOPage.tsx:368-401 | the FAQ gets the five questions built from the prices, and the price title |
| PageAssembler.RenderKindFooter | src/pages/SEOPage.tsx:423-443 | the footer's text names both labels; its links are fixed |
| PageAssembler.RenderKindHead | src/pages/SEOPage.tsx:279-290 | the head gets the title, description, path, each city when non-empty (else none) and the states |
| PageAssembler.RenderKindHeader | src/pages/SEOPage.tsx:292-299 | the header gets the title and description, empty without a template |
| PageAssembler.RenderComponent | src/pages/SEOPage.tsx:272-448 | a block is rendered exactly with location data and a known name, and it is that name's block |
| PageAssembler.RenderAll | src/pages/SEOPage.tsx:490-494 | no more blocks than components |
| PageAssembler.RenderAllSkipsUnknown | src/pages/SEOPage.tsx:446-447 | unknown components render nothing wherever they stand |
| PageAssembler.RenderAllKnown | src/pages/SEOPage.tsx:490-494 | known components render one block each, in order |
| PageAssembler.RenderPageShowsKnownInOrder | src/pages/SEOPage.tsx:488-494 | the page shows exactly the known components, sorted by `display_order`, each as its case renders it |
| PageAssembler.RenderPageRendersKnown | src/pages/SEOPage.tsx:446-494 | sorting all components and skipping the unknown ones renders the same blocks as the sorted known components |
| PageAssembler.RenderPageNeedsLocation | src/pages/SEOPage.tsx:273 | without location data nothing is rendered |
| PageAssembler.RoutePageRecordUsesStates | src/pages/SEOPage.tsx:281-289 | the route page's head record names both states |
| PageAssembler.RoutePageHeadLinks | src/pages/SEOPage.tsx:281-289 | the route page's canonical link is the site base joined with the path |
| Catalog.ActiveRoutes | api/sitemap.ts:11-16 | the routes listed are exactly the active rows with a URL |
| Catalog.ActiveRoutesAppend | api/sitemap.ts:11-16 | the listing keeps the table's order and multiplicity |
| Catalog.ActiveRoutesSingle | api/sitemap.ts:11-16 | a single row is listed exactly when it is active and has a URL |
| Catalog.Urls | api/sitemap.ts:13 | the URL of each route, in order |
| SitemapXml.RouteUrlEntries | api/sitemap-page.js:31-36 | one `url` entry per route, in order |
| SitemapXml.RouteUrlEntriesAppend | api/sitemap-page.js:31-36 | mapping routes to entries commutes with concatenation |
| SitemapXml.ElementsXmlAppend | api/fresh-sitemap.js:85-91 | the text of the entries of two lists is the two texts in sequence |
| SitemapXml.Clamp | api/fresh-sitemap.js:40 | a row bound is clamped into the table |
| SitemapXml.RangeRows | api/fresh-sitemap.js:40 | `.range(from, to)` is the inclusive window of existing rows |
| FreshSitemap.RouteEntries | api/fresh-sitemap.js:85-91 | one entry per route with `loc` = base + URL, daily, 0.8, and the day |
| FreshSitemap.BatchSize | api/fresh-sitemap.js:40 | batch k is the rows k·1000 to (k+1)·1000−1, full exactly when the catalog reaches past it |
| FreshSitemap.OnlyLastBatchShort | api/fresh-sitemap.js:49-51 | every batch before the last is full and the last is short |
| FreshSitemap.LoopStep | api/fresh-sitemap.js:40-51 | a batch that starts inside the catalog is read before the short one, and only the short batch ends the loop |
| FreshSitemap.BatchesArePrefix | api/fresh-sitemap.js:40-45 | the first k batches are the first k·1000 rows, adjacent and disjoint |
| FreshSitemap.BatchesCoverCatalog | api/fresh-sitemap.js:22-52 | the batches read add up to the whole catalog, in order |
| FreshSitemap.Sitemap | api/fresh-sitemap.js:13-102 | the response is a 200 or the 500 'Error generating sitemap' |
| FreshSitemap.Handler | api/fresh-sitemap.js:13-102 | the `while (hasMore)` loop and the document give exactly the specified response |
| FreshSitemap.SitemapListsEveryRoute | api/fresh-sitemap.js:58-97 | without failures: 200, the XML and one-hour cache headers, the five static pages, then one entry per route in order |
| FreshSitemap.FailedBatchGives500 | api/fresh-sitemap.js:42 | a failure in any batch read gives the 500 response |
| FreshSitemap.LaterFailureUnseen | api/fresh-sitemap.js:49-51 | a batch after the short one is never read |
| SitemapPage.PageNumber | api/sitemap-page.js:9 | a missing page parameter is page 1 |
| SitemapPage.ShardWindow | api/sitemap-page.js:10-12 | page p is the 10000 rows from (p−1)·10000 |
| SitemapPage.ShardsAdjacent | api/sitemap-page.js:10-12 | pages p and p+1 are adjacent, disjoint windows |
| SitemapPage.ShardsArePrefix | api/sitemap-page.js:10-20 | pages 1 to n together are the first n·10000 rows, each once |
| SitemapPage.SitemapPage | api/sitemap-page.js:8-41 | the response is a 500 exactly when the query fails |
| SitemapPage.MissingPageIsFirst | api/sitemap-page.js:9 | no parameter serves page 1 |
| SitemapPage.PageListsItsWindow | api/sitemap-page.js:29-40 | a served page lists exactly its window's routes, no static pages, only the Content-Type header |
| SitemapPage.PagePastEndIsEmpty | api/sitemap-page.js:14-40 | a page past the end is an empty `urlset` with status 200 |
| SitemapIndex.IndexEntries | api/sitemap-index.js:7-10 | eight entries, entry i naming page i+1 |
| SitemapIndex.SitemapIndex | api/sitemap-index.js:1-15 | always 200 with the XML content type, whatever the request |
| SitemapIndex.ShardLocsDistinct | api/sitemap-index.js:7-10 | the entries name different pages |
| SitemapIndex.IndexNamesPageOne | api/sitemap-index.js:2-10 | the first entry is the page-1 shard |
| SitemapIndex.IndexNamesPageEight | api/sitemap-index.js:2-10 | the last entry is the page-8 shard |
| SitemapIndex.IndexCoversCatalogIffSmall | api/sitemap-index.js:2 | the eight shards serve every route exactly when there are at most 80000 |
| SitemapSingle.Sitemap | api/sitemap.ts:8-45 | an error gives the 500 'Error generating sitemap'; success gives 200 with the XML and cache headers |
| SitemapSingle.NullDataIsNoRoutes | api/sitemap.ts:29 | a null result is an empty route list |
| SitemapSingle.ListsEveryActiveRoute | api/sitemap.ts:11-40 | the home entry, then one entry per active route, in order |
| SeoUtils.SlugEntries | src/utils/seo.ts:79-84 | one entry per route, in order |
| SeoUtils.SlugSitemapConcat | src/utils/seo.ts:76-98 | the sitemap of two lists writes the entries of each in sequence |
| SeoUtils.SlugIgnoresCase | src/utils/seo.ts:80 | names differing only in case give the same URL |
| SeoUtils.SlugOfLoweredNames | src/utils/seo.ts:80 | lowering the names first changes no URL |
| SeoUtils.SlugHyphenAmbiguous | src/utils/seo.ts:80 | two different routes can share a URL, since names may hold '-' |
| Strings.Lower | src/utils/seo.ts:80 | lowering keeps the length and leaves no upper-case letter |
| Strings.LowerIdempotent | src/utils/seo.ts:80 | lowering twice is lowering once |
| SeoUtils.Prices | src/utils/seo.ts:17 | the price of each flight, in order |
| SeoUtils.HasDirect | src/utils/seo.ts:20 | holds exactly when some flight has one segment |
| SeoUtils.GenerateFlightSeoData | src/utils/seo.ts:11-74 | the canonical URL is '/results?batch_id=' followed by the batch id |
| SeoUtils.TitleRoundTripForm | src/utils/seo.ts:23-25 | the title reads 'Vajtje-Ardhje nga' exactly for a round trip and 'Nga' otherwise |
| SeoUtils.DescriptionTail | src/utils/seo.ts:28-36 | the text after the route and the direct phrase starts with '.' |
| SeoUtils.DescriptionDirectAt | src/utils/seo.ts:28-36 | ' me fluturime direkte' follows the route exactly when told there is a direct flight |
| SeoUtils.DescriptionDirectForm | src/utils/seo.ts:20-36 | so the description names direct flights exactly when one flight has a single segment |
| SeoUtils.ReturnTimeOnlyForRoundTrips | src/utils/seo.ts:57-59 | `returnTime` is present exactly for a round trip with a return date, and is that date |
| SeoUtils.OfferIsCheapest | src/utils/seo.ts:17-65 | the offer's price is attained by a flight and no flight is cheaper |
| SeoUtils.NoFlightsPrintInfinity | src/utils/seo.ts:17-25 | with no flights the texts quote "Infinity" and the record's price is null |
| SeoUtils.FieldAt | src/utils/seo.ts:42-66 | a key's value is the first field with that key |
| SeoHead.FullUrl | src/components/seo/SEOHead.tsx:21-22 | the base joined with a truthy canonical URL, else the base alone |
| SeoHead.Head | src/components/seo/SEOHead.tsx:24-57 | title, description, canonical link and robots 'index, follow'; the ld+json script exactly when structured data is given |
| SeoHead.HeadRepeatsTitle | src/components/seo/SEOHead.tsx:27-41 | the title is also the og and twitter title |
| SeoHead.HeadRepeatsDescription | src/components/seo/SEOHead.tsx:28-42 | the description is also the og and twitter description |
| SeoHead.HeadOpenGraphUrl | src/components/seo/SEOHead.tsx:18-36 | og:url is the full canonical URL |
| SeoHead.HeadOpenGraphImage | src/components/seo/SEOHead.tsx:18-36 | og:image takes the default image only when the caller leaves it out |
| SeoHead.HeadOpenGraphType | src/components/seo/SEOHead.tsx:18-36 | og:type takes the default type only when the caller leaves it out |
| SeoHead.MetaAt | src/components/seo/SEOHead.tsx:24-57 | a meta value read from the tags is the first tag with that key |
| SeoHeadTemplate.SetField | src/components/seo/seo-component-templates/SEOHead.tsx:33-64 | assigning a property sets it, keeps every other, and keeps an existing key's place |
| SeoHeadTemplate.SpreadTwo | src/components/seo/seo-component-templates/SEOHead.tsx:39-58 | spreading a pair is assigning its two properties in order |
| SeoHeadTemplate.FieldAbsent | src/components/seo/seo-component-templates/SEOHead.tsx:33-64 | a key no field has is absent |
| SeoHeadTemplate.OpeningHasNoLocation | src/components/seo/seo-component-templates/SEOHead.tsx:33-38 | the opening keys hold no location |
| SeoHeadTemplate.StatePairOverridesCityPair | src/components/seo/seo-component-templates/SEOHead.tsx:49-58 | with both states the locations are 'State'-typed, whatever the cities |
| SeoHeadTemplate.CityPairWithoutStatePair | src/components/seo/seo-component-templates/SEOHead.tsx:39-48 | with both cities but not both states the locations are 'City'-typed |
| SeoHeadTemplate.NoPairNoLocations | src/components/seo/seo-component-templates/SEOHead.tsx:39-58 | with neither pair complete no location key is present |
| SeoHeadTemplate.OpeningKeys | src/components/seo/seo-component-templates/SEOHead.tsx:33-38 | the record opens with '@context', '@type', name, description and url |
| SeoHeadTemplate.BothPairsKeysAfterOpening | src/components/seo/seo-component-templates/SEOHead.tsx:39-64 | with both pairs the record adds exactly fromLocation, toLocation and provider after the opening keys |
| SeoHeadTemplate.BothPairsKeyOrder | src/components/seo/seo-component-templates/SEOHead.tsx:33-64 | the state pair overwrites the city pair in place: one key each, then the provider |
| SeoHeadTemplate.TemplateTagsLinks | src/components/seo/seo-component-templates/SEOHead.tsx:66-90 | the tag list carries the title, the canonical link and the record as its first script |
| SeoHeadTemplate.TemplateTagsOpenGraph | src/components/seo/seo-component-templates/SEOHead.tsx:73-79 | og:title, og:url, og:image and og:type carry the title, the URL, the image and the type |
| SeoHeadTemplate.TemplateTagsTwitterAndPlace | src/components/seo/seo-component-templates/SEOHead.tsx:81-98 | the twitter title is the title and geo.placename the place name |
| SeoHeadTemplate.TemplateHead | src/components/seo/seo-component-templates/SEOHead.tsx:29-98 | the caller's record replaces the default entirely; geo.placename is fromCity, else fromState, else 'Albania'; the titles and URLs agree |
| SeoHeadTemplate.ScriptAt | src/components/seo/seo-component-templates/SEOHead.tsx:88-90 | the structured data read from the tags is the first script's |
| PopularRoutes.Label | src/components/home/PopularRoutes.tsx:103-111 | the written phrase when non-empty, else the prefix followed by the city or state |
| PopularRoutes.LabelFallback | src/components/home/PopularRoutes.tsx:103-111 | without a phrase: "nga "/"per " and the city for type 'city', the state for any other type |
| PopularRoutes.FromNameVersusPlaceholder | src/components/home/PopularRoutes.tsx:103-106 | the label equals the `{nga_city}` phrase when a phrase is written, else adds "nga " before it |
| PopularRoutes.Cards | src/components/home/PopularRoutes.tsx:102-111 | one pair of labels per route, in order |
| PopularRoutes.ClickTarget | src/components/home/PopularRoutes.tsx:61-65 | a click navigates exactly when the URL is truthy, to that URL |
| PopularRoutes.Fetched | src/components/home/PopularRoutes.tsx:33-59 | loading ends; an error keeps the routes and sets 'Failed to load popular routes' |
| PopularRoutes.PopularRoutesComponent.constructor | src/components/home/PopularRoutes.tsx:25-27 | no routes, loading, no error |
| PopularRoutes.PopularRoutesComponent.FetchRoutes | src/components/home/PopularRoutes.tsx:33-59 | the load leaves exactly the state the specification function gives |
| PopularRoutes.LoadedRoutesAreActive | src/components/home/PopularRoutes.tsx:35-52 | at most six routes, all active with a URL, the first such rows |
| PopularRoutes.LoadedRouteClick | src/components/home/PopularRoutes.tsx:61-65 | a listed route navigates unless its URL is empty |
| PopularRoutes.FailedOrEmptyLoad | src/components/home/PopularRoutes.tsx:51-57 | a failed load shows the error; null data shows no routes |
| LocationFormats.ToggleTarget | src/components/admin/seo/location-formats/LocationFormats.tsx:107 | 'pending' exactly for a ready row, 'ready' for pending and disabled ones |
| LocationFormats.ButtonText | src/components/admin/seo/location-formats/LocationFormats.tsx:109 | 'Mark Pending' exactly when the toggle asks for pending |
| LocationFormats.WithStatus | src/components/admin/seo/location-formats/LocationFormats.tsx:66-70 | same length and order; matching rows take the status, others are unchanged |
| LocationFormats.WithStatusChangesOnlyStatus | src/components/admin/seo/location-formats/LocationFormats.tsx:66-70 | only the status of matching rows changes |
| LocationFormats.WithStatusIdempotent | src/components/admin/seo/location-formats/LocationFormats.tsx:66-70 | applying the same update twice is applying it once |
| LocationFormats.WithStatusRestores | src/components/admin/seo/location-formats/LocationFormats.tsx:66-70 | setting back the prior status restores the list |
| LocationFormats.Toggled | src/components/admin/seo/location-formats/LocationFormats.tsx:56-76 | `saving` ends null; a failed update leaves the list as it was |
| LocationFormats.SavingId | src/components/admin/seo/location-formats/LocationFormats.tsx:57 | the id marked as saving is the row's id when non-empty, else null |
| LocationFormats.SavingDisablesClickedRow | src/components/admin/seo/location-formats/LocationFormats.tsx:57-106 | while saving only the clicked row's button is disabled; afterwards none is |
| LocationFormats.LocationTable.constructor | src/components/admin/seo/location-formats/LocationFormats.tsx:21-26 | no rows and nothing saving |
| LocationFormats.LocationTable.HandleStatusToggle | src/components/admin/seo/location-formats/LocationFormats.tsx:56-76 | the toggle leaves exactly the state the specification function gives |
| LocationFormats.ToggleFlipsClickedRow | src/components/admin/seo/location-formats/LocationFormats.tsx:66-107 | a click flips the row between ready and pending, keeps its other fields and changes no row with another id |
| LocationFormats.ToggleTwiceRestores | src/components/admin/seo/location-formats/LocationFormats.tsx:66-107 | two saved clicks on a ready or pending row give the list back |

## Left out

- **I/O and the framework.** The model covers no React rendering, Helmet, routing, DOM updates
  (`document.title`, the description meta tag), spinners or logging. Components are modelled as
  the data they receive, and the head as a list of tags.
- **The data service.** Queries are functions of abstract tables and failure flags.
  - The service's ordering (`order('template_url')`, `order('id')`) is assumed to be table order, not proved.
  - Only the joined fields the model reads are kept.
- **The environment.** Environment-variable checks and client creation are left out.
- **Dates.** The current date (`toISOString().split('T')[0]`) is a `day` parameter.
- **Prices.** They are integers. JavaScript numbers that are not integers are not modelled.
- **IATA lookups.** Both lookups read one `airports` outcome, so one lookup cannot fail while the other succeeds.
- **Unreachable error.** `fetchPageData`'s 'Template not found' branch cannot be reached after a
  successful `.single()`, and it is not modelled.
- SeoPage.FindConnection: the exact-path and the retry query share one outcome, so the first cannot fail while the retry succeeds; a failure of both is treated like no match, as the source does ('Page data not found').
- SitemapPage.PageNumber: the page parameter is an integer or missing; `parseInt` of text that is not a number (NaN) is not modelled.
- Strings.Lower: ASCII letters only; `toLowerCase` of other letters is not modelled.
- Strings.ReplaceAllIsSplitJoin: tokens are literal text; `$` patterns in a replacement phrase are not interpreted.
- PopularRoutes.PopularRoutesComponent.FetchRoutes: the row shape is a full connection; the joined columns the source selects are a subset of it.
- **Other functions of the component files.** `fetchLocations`, the search, filter and pagination state of `LocationFormats`, and the cell editing it declares are not part of this model, because the toggle is its only rule-bearing operation.
