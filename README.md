# Product search pipeline — a Dafny model

This project models the search pipeline of a React product-search front end for a catalogue of
computer monitors. The pipeline has these parts:

- **The dual-strategy search service.** A query and optional filters (`linea_de_producto`,
  `marca_de_producto`, `almacen_codigo`, `tipo_producto`) become a list of SKUs.
  - Strategy A posts the payload builder's JSON text through a retry loop (two attempts, one
    second apart).
  - On a thrown, rejected or empty answer, strategy B posts the same object inline, with the
    SEARCH endpoint's timeout and headers, through the same retry loop.
  - If both fail, the answer depends on the environment: `[]` in production, three sample SKUs
    otherwise.
- **The response normaliser** (`validateSearchResponse`). It is a first-match-wins cascade over
  untrusted JSON: an explicit `rpta: false`, then `rpta.dataIA.ids[0]`, then the first non-empty
  array among `rpta.ids`, `rpta.productos`, `rpta.skus` and `rpta.data`, then the top-level
  fallback `skus || productos || data || []`.
- **The endpoint configuration.** Hosts and ports from environment variables with defaults, the
  timeout table, the JSON headers with an Authorization header carrying the API key when one is set, and the
  environment flags.
- **The mock product API client** that the search page calls. It provides mock search over the
  twelve mock SKUs, detail lookup in the six mock records, and the precedence applied to a real
  response.
- **The search page.** It holds the query from `?q=` and the loading, error and product state.
  From the loaded list it derives the facets: distinct categories, brands and features with
  counts, and five price ranges built from a rounded-up fifth of the price spread. It applies the
  checked facets (AND across facets, OR within one) and toggles checkboxes.
- **The product grid.** It chooses the view that is shown: loading, error, enter a term, no
  results, or one card per product keyed by SKU or position.
- **The product card.** It renders the stock text and colour, price formatting, the title
  fallback and the numeric guards.

Modules follow the source files:

| module | file it models |
|---|---|
| `Json` | JavaScript values as received from the network (truthiness, optional chaining, `||`) |
| `ApiConfig` | `src/services/apiConfig.js` |
| `ApiUtils` | `src/services/apiUtils.js` |
| `SearchService` | `src/services/searchService.js` |
| `Api` | `src/services/api.js` |
| `Products` | the product record the UI reads |
| `SearchPage` | `src/components/SearchPage.js` |
| `ProductGrid` | `src/components/ProductGrid.js` |
| `ProductCard` | `src/components/ProductCard.js` |

`Wrappers`, `Text` and `Seqs` are helpers. `Text` models `includes`, ASCII `toLowerCase` and
`trim`. `Seqs` models `filter`, `slice` and `new Set(...)`.

Where the code changes state step by step, the model is imperative and is proved against a
reference function:

- `ApiUtils.RetryApiCall` (a `while` loop) against `ApiUtils.Retry`;
- `ApiUtils.ValidateSearchResponse` (the probe loop) against `ApiUtils.Validate`;
- `SearchService.SearchProducts` against `SearchService.Resolve`;
- `SearchPage.GeneratePriceRanges` (a `for` loop) against `SearchPage.PriceRangesFor`;
- the `useState` hooks of the search page, as the class `SearchPage.Page` whose methods update
  its fields.

The network and the clock are parameters:

- A `Network` maps a request and the ordinal of the call within one search to a response or a
  transport error.
- Waits are recorded as the list of delays the retry loop would sleep.
- `Env` holds the `process.env` variables that are read.

### Where the code and its documentation differ

The `throw new Error(validation.errorMessage)` for a business rejection (`rpta: false`) from
strategy B reads as if such a rejection were meant to end the search with an error. In the code,
that `throw` (`src/services/searchService.js:89-91`) sits inside the `try` whose `catch` (lines
94-107) returns the environment fallback. So `searchProducts` never throws. The model follows
the code: `SearchService.DirectOutcomes` states that a rejection from B ends in the environment
fallback.

The search page imports `searchProducts` and `getProductDetails` from `src/services/api.js`, not
from the search service. The page model therefore takes the search outcome and the detail lookup
as parameters (`found`, `fetchDetails`). `Api.SearchProducts` and `Api.GetProductDetails` model
what those calls return.

## Model

| member | source | states |
|---|---|---|
| ApiConfig.EnvOr | src/services/apiConfig.js:11-12 | `process.env.X \|\| fallback`: a set, non-empty variable wins; an unset or empty one gives the fallback |
| ApiConfig.EndpointConfigOf | src/services/apiConfig.js:72-85 | the URL is the endpoint table's entry (none for an unknown name); the timeout is the table's or the 10000 default; Content-Type is always application/json; Authorization is present exactly when the API key is non-empty and then reads `Bearer <key>`; no other header |
| ApiConfig.GetEndpointConfig | src/services/apiConfig.js:72-85 | the step-by-step construction (copy the JSON headers, then add Authorization) yields exactly `EndpointConfigOf` |
| ApiConfig.EndpointTimeouts | src/services/apiConfig.js:37-42 | SEARCH 10000, IA 8000, PRODUCTS 15000, any other name 10000 ms |
| ApiConfig.SearchEndpointUrl | src/services/apiConfig.js:29 | the SEARCH endpoint is `http://HOST:PORT/apish` |
| ApiConfig.EnvironmentConfigOf | src/services/apiConfig.js:90-95 | production exactly when NODE_ENV is `production`; never both development and production; mock data exactly for `"true"`; logging unless `"false"` |
| ApiUtils.GenerateApiPayload | src/services/apiUtils.js:15-31 | the parsed payload is an object with exactly the keys `pregunta`, `buscador` and `filtros`: the question, the flag (default "Y") and a `filtros` object whose keys are the four defaults plus the caller's; defaults not overridden are "" and the caller's values win |
| ApiUtils.BuildPostRequest | src/services/apiUtils.js:44-57 | the URL is `http://host:port path`; text data is parsed and objects are sent as is; the timeout is the option unless it is missing or 0 (then 10000); the headers are the caller's over a default Content-Type of application/json |
| ApiUtils.FirstNonEmptyArray | src/services/apiUtils.js:111-118 | the position found holds a non-empty array and no earlier one does; none found means none exists |
| ApiUtils.Validate | src/services/apiUtils.js:78-127 | never both valid and in error; an error message exactly on error; error exactly on the explicit rejection; a valid answer outside the primary path has a positive length |
| ApiUtils.ValidateSearchResponse | src/services/apiUtils.js:78-127 | the record filled field by field, with the alternative paths probed in a loop, equals `Validate(response)` |
| ApiUtils.ExplicitRejectionWins | src/services/apiUtils.js:87-92 | `rpta: false` gives the rejection record whatever else the response holds |
| ApiUtils.PrimaryPathAuthoritative | src/services/apiUtils.js:94-100 | a truthy `rpta.dataIA.ids[0]` is valid, not an error, and is exactly the SKUs returned |
| ApiUtils.EmptyPrimaryListIsValid | src/services/apiUtils.js:95-99 | an empty first id list is truthy, so it is returned as a valid, empty answer |
| ApiUtils.AlternativeProbeOrder | src/services/apiUtils.js:103-118 | on an object `rpta`, the first of ids, productos, skus, data holding a non-empty array is returned, and the result is valid |
| ApiUtils.EmptyIdsSkipped | src/services/apiUtils.js:104-117 | `{rpta: {ids: [], productos: ["X"]}}` returns `["X"]` |
| ApiUtils.EmptySkusShadowProductos | src/services/apiUtils.js:121-124 | in the top-level fallback an empty `skus` is truthy and shadows a non-empty `productos`; the answer is invalid |
| ApiUtils.MissingResponse | src/services/apiUtils.js:121-126 | a null or undefined response is invalid, not an error, with no SKUs |
| ApiUtils.FallbackSkus | src/services/apiUtils.js:122 | `skus \|\| productos \|\| data \|\| []`: always truthy; the first truthy of the three fields, in that order, else `[]` |
| ApiUtils.FallbackStep | src/services/apiUtils.js:121-126 | for every response that is not rejected, has no truthy primary ids and no non-empty alternative path, the answer is the top-level fallback, valid exactly when it has a positive length, and not an error |
| ApiUtils.NonEmptyArrayIsValid | src/services/apiUtils.js:111-123 | a non-empty SKU array is only ever returned as valid |
| ApiUtils.FirstOk | src/services/apiUtils.js:151-156 | the first succeeding attempt in a window: every earlier attempt failed |
| ApiUtils.Pauses | src/services/apiUtils.js:161-164 | the list of `count` equal waits |
| ApiUtils.Retry | src/services/apiUtils.js:148-170 | at most `maxAttempts` calls; success exactly when some attempt within the bound succeeds, returning the first success; every earlier attempt failed; on failure all attempts ran and the last error is rethrown (undefined if none ran); one wait between consecutive attempts and none after the last |
| ApiUtils.RetryApiCall | src/services/apiUtils.js:148-170 | the loop's outcome, call count and waits equal `Retry(op, maxAttempts, delay)` |
| ApiUtils.SucceedsOnThirdAttempt | src/services/apiUtils.js:151-166 | fail, fail, succeed with three attempts returns the success after three calls and two waits |
| ApiUtils.RethrowsLastError | src/services/apiUtils.js:157-169 | two failing attempts rethrow the second error, after one wait |
| SearchService.Resolve | src/services/searchService.js:16-108 | strategy B runs exactly when A did not return; each strategy makes at most two calls; the fallback answer depends only on the environment; a return from A leaves no migrated error |
| SearchService.DirectStage | src/services/searchService.js:54-107 | strategy B always runs, at most twice, and keeps A's run and migrated error |
| SearchService.SearchProducts | src/services/searchService.js:16-108 | the two `try` blocks, run in sequence, equal `Resolve` |
| SearchService.DirectSearch | src/services/searchService.js:54-107 | the second `try` with its `catch` equals `DirectStage` |
| SearchService.LegacySuccessSkipsDirect | src/services/searchService.js:35-43 | a valid answer to A is returned as is and B is never started |
| SearchService.LegacyFailureFallsThrough | src/services/searchService.js:45-52 | an exhausted retry (two calls) or a rejection in A is recorded in `migratedError` and B runs |
| SearchService.LegacyEmptyAnswerFallsThroughSilently | src/services/searchService.js:38-52 | an answer to A that is neither valid nor an error reaches B with no migrated error |
| SearchService.DirectOutcomes | src/services/searchService.js:79-107 | once B runs: a valid answer is returned; one neither valid nor an error is returned as partial data; a rejection or an exhausted retry ends in the environment fallback |
| SearchService.TotalFailureAnswer | src/services/searchService.js:99-106 | the total-failure answer is `[]` in production and exactly TE-24155, TE-27535, LG-24MS500 otherwise |
| SearchService.LegacyExhausted | src/services/searchService.js:24-52 | two transport failures in A hand over to B after two calls, with the second error recorded |
| SearchService.DirectFirstAnswerValid | src/services/searchService.js:79-87 | a valid answer to B's first call is returned after that one call |
| SearchService.DirectRescuesFailedLegacy | src/services/searchService.js:24-87 | A failing twice and B answering `{rpta: {ids: L}}` with a non-empty L returns L, after two calls for A and one for B |
| SearchService.AnswerWithIdsIsValid | src/services/apiUtils.js:103-117 | `{rpta: {ids: L}}` with a non-empty array L validates to L |
| SearchService.StrategiesShareTarget | src/services/searchService.js:25-77 | both strategies post to the same `http://HOST:PORT/apish` with a 10000 ms timeout |
| SearchService.StrategyHeaders | src/services/searchService.js:70-76 | B sends exactly the SEARCH endpoint's headers; A sends only the JSON Content-Type |
| SearchService.StrategiesSendSameBody | src/services/searchService.js:56-68 | the text A sends parses to the very object B builds inline |
| SearchService.SearchProductsWithFilters | src/services/searchService.js:116-118 | is `searchProducts` with the same filters |
| SearchService.SearchProductsByCategory | src/services/searchService.js:126-131 | is `searchProducts` with only `linea_de_producto` set |
| SearchService.SearchProductsByBrand | src/services/searchService.js:139-144 | is `searchProducts` with only `marca_de_producto` set |
| SearchService.SingleFacetFilters | src/services/searchService.js:126-144 | the category (brand) search sends the four filter keys, all "" except `linea_de_producto` (`marca_de_producto`) |
| Api.MockProductValues | src/services/api.js:172 | `Object.values(MOCK_PRODUCTS)`: the records in insertion order |
| Api.LookupIn | src/services/api.js:168 | a found record is stored under the key; a missing one is under no entry |
| Api.MockRecordsKeyedBySku | src/services/api.js:10-93 | every mock record's `sku` is its own key |
| Api.UsesMock | src/services/api.js:119 | the double negation `!url.includes(h) === false` means the mock is used exactly in development or when the URL contains `api.example.com` |
| Api.MockSearch | src/services/api.js:126-134 | never empty; a subsequence of the mock SKUs in their order; the first six when nothing matches |
| Api.MockSearchMatches | src/services/api.js:126-134 | when some mock SKU matches the term, the answer holds only matching SKUs and every matching SKU |
| Api.BroadTermReturnsAll | src/services/api.js:126-132 | the empty term, or one containing monitor, teros, lg or samsung, returns all twelve SKUs |
| Api.RealSearchResult | src/services/api.js:143-149 | always truthy; null or undefined data throws on `.skus` and gives the first six mock SKUs; otherwise `skus` wins over `products`, `products` over the data itself, and other falsy data gives `[]` |
| Api.SearchProducts | src/services/api.js:116-151 | the mock branch returns the mock search; a failed request returns the first six SKUs; a real answer is exactly `RealSearchResult` of its data |
| Api.KnownProducts | src/services/api.js:168 | the records of the known requested SKUs, one per known SKU in request order |
| Api.GetProductDetails | src/services/api.js:158-193 | on the mock branch or a failed request the answer is the mock records; a real payload is truthy |
| Api.RealDetailsPrecedence | src/services/api.js:179-184 | off the mock branch: null or undefined data falls back to the mock records; otherwise `products` wins over the data itself, and other falsy data gives `[]` |
| Api.MockDetails | src/services/api.js:168-173 | never empty; the known requested records when some requested SKU is known; otherwise every mock record |
| Api.MockDetailsOfKnownSkus | src/services/api.js:168-175 | with a known SKU, one record per known requested SKU, repeats kept, each carrying that SKU |
| Api.MockDetailsOfUnknownSkus | src/services/api.js:171-173 | with no known SKU, every mock record in insertion order |
| Api.SingleMockDetail | src/services/api.js:200-203 | on the mock branch a single lookup is never null: a known SKU gives its record, an unknown one the first default record |
| Api.GetProductDetail | src/services/api.js:200-203 | `products[0] \|\| null`: on the mock branch or a failed request the first mock record; for a real payload its first element when truthy, otherwise none; a raw detail is truthy |
| Text.TrimEmptyIffBlank | src/components/SearchPage.js:30 | `term.trim()` is empty exactly when the term is all whitespace |
| Text.Trim | src/components/SearchPage.js:30 | `trim()`: a slice of the term with only whitespace cut on either side, and starting and ending with a non-space |
| Seqs.Distinct | src/components/SearchPage.js:80-82 | `[...new Set(s)]`: each element of `s` exactly once, in order of first occurrence |
| SearchPage.HandleSearch | src/components/SearchPage.js:29-33 | navigates exactly when the term is not blank, to `/search?q=` and the encoded trimmed term |
| SearchPage.ActiveFilters.With | src/components/SearchPage.js:151-156 | `{...prev, [f]: v}` replaces facet `f` and keeps every other facet |
| SearchPage.Toggled | src/components/SearchPage.js:150-157 | checking appends the value; unchecking removes every occurrence of it and keeps every other item, in order and with its multiplicity; other facets are unchanged |
| SearchPage.CountedProduct | src/components/SearchPage.js:111 | a range containing a product counts at least one |
| SearchPage.Step | src/components/SearchPage.js:102 | `Math.ceil((max - min) / 5)`: the least `s` with `5 s >= max - min` |
| SearchPage.PriceRangesFor | src/components/SearchPage.js:98-116 | no ranges exactly when min or max is 0 or `min >= max`; otherwise five |
| SearchPage.PriceRangesShape | src/components/SearchPage.js:101-115 | range `i` starts `i` steps above min; each range ends where the next starts; the first starts at min and the last ends at max; each is labelled by and counts the products within its own bounds |
| SearchPage.GeneratePriceRanges | src/components/SearchPage.js:98-116 | the loop's five pushes equal `PriceRangesFor` |
| SearchPage.NarrowSpreadInvertsLastRange | src/components/SearchPage.js:102-106 | the last range has `min > max` exactly when the spread is 1, 2, 3, 6, 7 or 11 |
| SearchPage.TruthyStrings | src/components/SearchPage.js:80-81 | `filter(Boolean)`: exactly the non-empty present strings |
| SearchPage.AllFeatures | src/components/SearchPage.js:82 | `flatMap(p => p.features \|\| [])`: exactly the features some product lists |
| SearchPage.Prices | src/components/SearchPage.js:85 | exactly the positive prices of the list |
| SearchPage.Min | src/components/SearchPage.js:86 | `Math.min`: an element no greater than any other |
| SearchPage.Max | src/components/SearchPage.js:87 | `Math.max`: an element no smaller than any other |
| SearchPage.PriceRangesOf | src/components/SearchPage.js:85-88 | the list's ranges adjoin, count over the given products, and start and end at prices that occur in the list |
| SearchPage.PriceRangesEnds | src/components/SearchPage.js:85-99 | no ranges exactly when there is no positive price or the lowest equals the highest; otherwise the first range starts at the lowest positive price and the last ends at the highest |
| SearchPage.SinglePriceNoRanges | src/components/SearchPage.js:85-99 | a single product offers no price ranges, since its price is both the minimum and the maximum |
| SearchPage.FiltersFromProductsAsWritten | src/components/SearchPage.js:79-116 | as written: the price ranges come from the new list but count over the captured `products` state; they adjoin |
| SearchPage.FiltersFromProducts | src/components/SearchPage.js:79-96 | as intended: every count is over the new list; the ranges adjoin |
| SearchPage.CategoryFacets | src/components/SearchPage.js:80-91 | each category is offered once, every truthy category is offered, each with the number of products in it |
| SearchPage.CategoryFacetsListed | src/components/SearchPage.js:80 | only non-empty categories that some product has are offered |
| SearchPage.TruthyStringsOrder | src/components/SearchPage.js:80-81 | `filter(Boolean)` keeps order: of two kept strings, the one kept first occurs first among the entries |
| SearchPage.CategoryFacetsOrder | src/components/SearchPage.js:80 | the categories are offered in the order of the first product of each |
| SearchPage.BrandFacets | src/components/SearchPage.js:81-92 | each brand is offered once, every truthy brand is offered, each with the number of its products |
| SearchPage.BrandFacetsListed | src/components/SearchPage.js:81 | only non-empty brands that some product has are offered |
| SearchPage.BrandFacetsOrder | src/components/SearchPage.js:81 | the brands are offered in the order of the first product of each |
| SearchPage.FeatureFacets | src/components/SearchPage.js:82-94 | each feature is offered once, every listed feature (the empty one included) is offered, each with the number of products listing it |
| SearchPage.FeatureFacetsListed | src/components/SearchPage.js:82 | only features some product lists are offered, in the order they are first listed |
| SearchPage.PairPriceRanges | src/components/SearchPage.js:85-88 | two products priced `0 < x < y` give the ranges from x to y |
| SearchPage.StalePriceRangeCounts | src/components/SearchPage.js:111 | after the first load (empty `products` state), the first range counts 0 although the cheaper product lies in it; counted over the new list it counts at least 1 |
| SearchPage.FindRange | src/components/SearchPage.js:133 | `find(pr => pr.name === name)`: the first range so named, or none |
| SearchPage.FilteredProducts | src/components/SearchPage.js:119-148 | a subsequence of the products; exactly those passing every facet in use (AND across facets, OR within one) |
| SearchPage.NothingCheckedKeepsAll | src/components/SearchPage.js:119-148 | with nothing checked every product is shown |
| SearchPage.CheckingOneCategory | src/components/SearchPage.js:121-123 | with only one category checked, the list is exactly the products of that category |
| SearchPage.ComputeFilters | src/components/SearchPage.js:79-116 | the step-by-step facet computation, ranges counted over the captured list, equals `FiltersFromProductsAsWritten` |
| SearchPage.Page.constructor | src/components/SearchPage.js:11-26 | the first render: the term from `?q=` (or ""), no products, no error, no facets, nothing checked |
| SearchPage.Page.View | src/components/SearchPage.js:179-184 | between fetches a failed load shows its message and a missing term asks for one |
| SearchPage.Page.HandleFilterChange | src/components/SearchPage.js:150-157 | the checked lists become `Toggled(...)`; everything else is unchanged |
| SearchPage.Page.UpdateFiltersFromProducts | src/components/SearchPage.js:79-96 | the facets become `FiltersFromProductsAsWritten(productList, rendered)`, `rendered` being the closure's `products`; everything else is unchanged |
| SearchPage.Page.ShowDetails | src/components/SearchPage.js:58-59 | the details become the products and their facets, the ranges adjoin, the rest is unchanged |
| SearchPage.Page.FetchProducts | src/components/SearchPage.js:44-76 | details are requested exactly for a truthy, non-empty SKU list; no SKUs clear the products and facets; a throw shows the error over an empty list and keeps the old facets; loaded details become the products, with facets whose ranges count over the products shown before the fetch; loading ends false |
| SearchPage.Page.OnSearchParams | src/components/SearchPage.js:36-42 | a non-empty `q` becomes the term and is fetched, with every outcome of `FetchProducts` (request, products, facets, error) and nothing checked changed; otherwise nothing changes |
| ProductGrid.Cards | src/components/ProductGrid.js:50-56 | one card per product in order, keyed by the SKU when truthy and by the position otherwise |
| ProductGrid.GridView | src/components/ProductGrid.js:16-58 | loading first, then a truthy error, then a missing term, then an empty list (whose message names the term), then the grid of all products |
| ProductCard.StockDisplay | src/components/ProductCard.js:23-28 | a known stock of 0 or less is "Sin Stock", a positive one `Stock Disponible: N und`; an absent stock shows the status or "Consultar disponibilidad"; never empty |
| ProductCard.StockColor | src/components/ProductCard.js:30-35 | green exactly for a positive stock, red exactly for a known stock of 0 or less, orange exactly for an absent stock |
| ProductCard.StockColorMatchesDisplay | src/components/ProductCard.js:23-35 | orange exactly when the stock is absent, red exactly beside "Sin Stock", green exactly beside a unit count |
| ProductCard.FormatPrice | src/components/ProductCard.js:18-21 | empty exactly for a falsy price; otherwise `S/ ` and the locale text |
| ProductCard.TitleText | src/components/ProductCard.js:71 | the title, or "Producto sin título"; never empty |
| ProductCard.NumberGuardAsWritten | src/components/ProductCard.js:39-43 | as written: the text "0" exactly when the number is 0; the element exactly when the number is truthy and the condition holds |
| ProductCard.NumberGuard | src/components/ProductCard.js:39-43 | as intended: the element exactly when the number is truthy and the condition holds, never a stray text; agrees with the code for every non-zero number |
| ProductCard.CardOf | src/components/ProductCard.js:37-102 | as written: the badge exactly for a truthy discount and a stray "0" exactly for a zero one; the struck-through price exactly for a truthy original price above the price and a stray "0" exactly for a zero one; brand and code exactly when truthy; the title, price, stock text and stock colour those helpers give, title and stock text never empty |
| ProductCard.IntendedCardOf | src/components/ProductCard.js:37-102 | as intended: the card as written with each stray "0" removed and nothing else changed |
| ProductCard.CardsAgree | src/components/ProductCard.js:39-85 | the two cards are equal exactly when neither the discount nor the original price is 0 |
| ProductCard.ZeroGuardsPrintZero | src/components/ProductCard.js:81-85 | as written a 0 guard renders the text "0"; as intended it renders nothing |

## Left out

- Network I/O, the HTTP client and `setTimeout`. Responses are the `Network` (or `remote`)
  parameter; waits are recorded, not slept.
- Concurrency of React state updates and asynchronous races between overlapping searches. One
  fetch runs to completion between two events.
- `process.env` is the `Env` parameter.
- JSON text. `JSON.stringify`/`JSON.parse` are an abstract round trip (`JsonText`), not characters.
- `encodeURIComponent` and `toLocaleString` are parameters (`encode`, `locale`, `format`).
- Floating point. Prices, stock, discounts and lengths are whole numbers, so non-integral prices
  and `Infinity`/`NaN` are not modelled. An empty price list is handled the way
  `generatePriceRanges` handles `Math.min()` (`Infinity`) and `Math.max()` (`-Infinity`): no
  ranges.
- Text.Lower: ASCII letters only; JavaScript's full Unicode `toLowerCase` is not modelled.
- `.length > 0` on a value that is not an array or a string reads only a numeric or boolean
  `length` field; other coercions, prototype keys such as `constructor`, and object key order
  are not modelled.
- Products: `null` and `undefined` fields are one case (`None`), and a missing field is never
  compared with a number.
- ProductCard.AbovePrice: is false whenever the price is missing. In JavaScript
  `originalPrice > null` compares with 0, so for `price: null` and a positive original price the
  card shows the struck-through price. The model treats `null` like `undefined`, whose
  comparison (with `NaN`) is false, and so shows no struck-through price.
- The conversion of a raw real product payload into product records. `Api.GetProductDetails`
  returns such a payload as `Payload`. The search page receives details through its
  `fetchDetails` parameter, whose `Err` also stands for an exception thrown while the facets are
  computed.
- RetryApiCall's default arguments (2 attempts, 1000 ms): every caller in the model passes them
  explicitly.
- Console logging, the `enableLogging` flag and `PROJECT_DEBUGGER`.
- Components outside the pipeline: the header, the sidebar's rendering, the results header
  text, the `isMobile` resize listener, and the card's `image`, `specifications` and `brandLogo` fields.
- `callApiPost`'s `axiosConfig` option (no caller passes it), the IA endpoint configuration,
  the FORM and MULTIPART header sets and `API_AUTH.BEARER_TOKEN`, which no modelled operation
  uses.

## Findings

The search page and the product card are modelled as written. Each corrected definition sits
beside the as-written one, and a lemma relates the two.

| source | as written | input that shows it | evidently intended | confidence | as-written member | corrected member |
|---|---|---|---|---|---|---|
| src/components/SearchPage.js:111 | `generatePriceRanges` counts over the `products` state its closure captured, which `setProducts(productDetails)` has not yet replaced | the first search, with two products priced 100 and 200: the `products` state is still `[]`, so every range counts 0 | each range counts the products of the list just loaded | not executed | SearchPage.FiltersFromProductsAsWritten, SearchPage.StalePriceRangeCounts | SearchPage.FiltersFromProducts |
| src/components/ProductCard.js:39 | `{discount && (…)}` and `{originalPrice && originalPrice > price && (…)}` evaluate to the number itself when it is `0`, and React renders `0` | a product with `discount: 0` (or `originalPrice: 0`) shows a bare "0" on the card | no badge and no struck-through price | not executed | ProductCard.NumberGuardAsWritten, ProductCard.CardOf, ProductCard.ZeroGuardsPrintZero | ProductCard.NumberGuard, ProductCard.IntendedCardOf, ProductCard.CardsAgree |
