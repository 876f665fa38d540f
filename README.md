# otomoto scraper core, modelled in Dafny

This project models the scraping core of a Python scraper for the Polish car marketplace
otomoto.pl and proves properties of that model. The core has six parts:

- **URL building** (`src/url_builder.py`). It looks up the brand/model slug and builds a
  search URL with `urllib.parse.urlencode`-style query parameters, one per results page.
- **Page checks** (`src/fetcher.py`). It detects the "no results" marker phrases and reads the
  page number from the `og:url` meta tag.
- **Embedded-state extraction** (`src/parser/graphql_parser.py`). It finds the `props` script
  and decodes it, then walks to `urqlState`, finds the `advertSearch` entry, decodes it a second
  time and builds one flat listing record per edge. Polish letters are folded to ASCII and
  prices are read defensively.
- **JSON-LD extraction** (`src/parser/json_ld_parser.py`). It reads the `listing-json-ld` block
  and parses each offer. A broken offer is skipped.
- **Merging** (`src/parser/merger.py`). Each listing is paired with the first offer that has
  the same price and mileage, and the listing's fields take precedence.
- **Crawling** (`src/paginator.py`). It fetches pages 1..max_pages and keeps each page whose
  JSON-LD lists offers. It stops on a failed fetch, an empty-results page or the detected last
  page. The batch runs the crawl for six cars and parses every collected page.

The project also models the string rules of `src/normalizer.py`:

- reading a version slug into engine family, drivetrain, trim and feature flags;
- the region-to-zone table;
- the row risk score.

How the model is built:

- Python exceptions are values of `Json.Exc`, carried in `Result`. Each operation checks in
  the order the source does, so the model raises the same exception the source would raise
  first.
- Decoded JSON is the `Json.Json` datatype. `Json.Get`, `Json.Index` and `Json.DictGet` give
  Python's `d[k]` and `d.get(k, default)`, including their `KeyError`, `TypeError` and
  `AttributeError` cases.
- Outside code is passed in as parameters, because the repository cannot see into it:
  - the HTTP fetch (`Paginator.Env.fetch`, a function of the URL, `None` for a failed request);
  - BeautifulSoup's lookups (`Html.Soup`);
  - `json.loads` (`Json.Loads`, `None` for a decode error).
- Each loop in the source is a Dafny `method` with a `while` loop. Its `ensures` ties the
  result to a recursive specification function, and lemmas state the properties of that
  function.

Where the code differs from what its names and docstrings suggest, the model follows the code:

- `safe_price` catches only `ValueError` and `TypeError`. A missing `price`, `amount` or
  `value` key raises `KeyError` out of the parser.
- `detect_last_page` returns the `og:url` string itself when it holds no `page=<digits>`, and
  reads an unassigned local when the tag is missing. In the crawl, `str - 1` is then a
  `TypeError` and the unassigned local an `UnboundLocalError`. Neither is a graceful stop.
- Whether a page is kept, and whether the last page is detected, depends only on the JSON-LD
  extraction, never on the GraphQL one.
- The feature-flag filter compares each lower-case part with the mapped drivetrain (`"FWD"`,
  `"AWD"`, `"4WD"`). That test is never true, so drivetrain tokens such as `awd` stay in the
  feature flags (`Normalizer.DrivetrainTokenIsFeature`).
- Version parts are split on `-`, so the family `eco-tsi` can never be found
  (`Normalizer.EcoTsiNeverMatches`).

## Model

| member | source | states |
|---|---|---|
| Merger.FirstMatch | src/parser/merger.py:5-13 | an offer is returned iff some offer has the listing's price and mileage; it is the first such offer in JSON-LD order |
| Merger.Merged | src/parser/merger.py:1-17 | one merged record per GraphQL listing, in order; record i combines listing i with its first matching offer |
| Merger.MergeJsonldAndGraphql | src/parser/merger.py:1-17 | the loop returns exactly the merged list defined by Merged |
| Merger.Combine | src/parser/merger.py:12-15 | the record for one listing: the listing's fields, with `source` added when an offer matched; its properties are stated by MergedRecord, OfferAddsOnlySource and NoMatchKeepsListing |
| Merger.OfferAddsOnlySource | src/parser/merger.py:15 | the only key a JSON-LD record adds to a listing is `source` |
| Merger.MergedRecord | src/parser/merger.py:5-15 | every listing field survives unchanged; `source`, equal to `json_ld`, is present iff some offer matched; no other key is added |
| Merger.NoMatchKeepsListing | src/parser/merger.py:12-15 | with no matching offer the merged record is the listing itself |
| Merger.FirstMatchAppend | src/parser/merger.py:5-13 | the search over a + b takes a's first match when a has one and b's otherwise |
| Merger.MergePreservesListings | src/parser/merger.py:4-15 | merging keeps the count and order of listings and all of their fields |
| Merger.UnmatchedOfferIsIgnored | src/parser/merger.py:5-15 | inserting an offer that matches no listing, anywhere, leaves the merge unchanged |
| GraphqlParser.PropsScript | src/parser/graphql_parser.py:10-14 | succeeds iff some script is non-empty and contains `"props"`, returning the first such script; otherwise raises the not-found RuntimeError |
| GraphqlParser.FindPropsScript | src/parser/graphql_parser.py:7-14 | the loop returns PropsScript's result |
| GraphqlParser.Decode | src/parser/graphql_parser.py:115 | decoding succeeds iff the decoder gives a value, and it returns that value; failure is a decode error tagged with the stage |
| GraphqlParser.ExtractUrqlState | src/parser/graphql_parser.py:17-18 | the chained `.get(..., {})` lookups; UrqlStateAlongPath and UrqlStateMissingLevel state every outcome |
| GraphqlParser.UrqlStateAlongPath | src/parser/graphql_parser.py:17-18 | when `props` and `pageProps` are dicts on the path, the state is `pageProps.urqlState`, or `{}` when that key is missing |
| GraphqlParser.UrqlStateMissingLevel | src/parser/graphql_parser.py:17-18 | a missing `props` or `pageProps` gives `{}`; a document, `props` or `pageProps` that is present but not a dict raises AttributeError |
| GraphqlParser.AdvertSearchState | src/parser/graphql_parser.py:21-32 | the entry search followed by the second decoding; its properties are stated by AdvertSearchEntry, AdvertSearchEntryFirst, AdvertSearchEntryFound, AdvertSearchEntryNotFound and AdvertSearchStateData |
| GraphqlParser.AdvertSearchEntry | src/parser/graphql_parser.py:21-27 | the entry search fails only with AttributeError (an entry that is not a dict) or the not-found RuntimeError |
| GraphqlParser.AdvertSearchEntryFirst | src/parser/graphql_parser.py:22-25 | the first entry whose `data` is a string containing `advertSearch` is returned when all earlier entries are dicts |
| GraphqlParser.AdvertSearchEntryFound | src/parser/graphql_parser.py:22-25 | a returned entry is the first qualifying one, and every entry before it is a non-qualifying dict |
| GraphqlParser.AdvertSearchEntryNotFound | src/parser/graphql_parser.py:22-27 | the not-found error is raised iff every entry is a dict and none qualifies |
| GraphqlParser.FindAdvertSearchState | src/parser/graphql_parser.py:21-27 | the loop over `urql_state.values()` returns the entry search's result |
| GraphqlParser.DecodeGraphqlData | src/parser/graphql_parser.py:30-32 | for a qualifying entry, the result is the second decoding of its `data` string |
| GraphqlParser.AdvertSearchStateData | src/parser/graphql_parser.py:21-32 | the entry found always holds a string `data` containing `advertSearch` |
| GraphqlParser.SafePrice | src/parser/graphql_parser.py:35-39 | KeyError from the lookup escapes; a ValueError or TypeError gives 0; a readable value gives its number |
| GraphqlParser.SafePriceMissingValue | src/parser/graphql_parser.py:35-39 | an amount without `value` raises KeyError rather than giving 0 |
| GraphqlParser.FoldChar | src/parser/graphql_parser.py:47-58 | a Polish letter of either case folds to an ASCII lower-case letter; every other character, ASCII capitals included, is kept |
| GraphqlParser.FoldIgnoresCase | src/parser/graphql_parser.py:47-58 | a Polish letter folds to the same letter as its lower-case form |
| GraphqlParser.FoldedLettersACE | src/parser/graphql_parser.py:48-50 | ą and Ą fold to a, ć and Ć to c, ę and Ę to e |
| GraphqlParser.FoldedLettersLNO | src/parser/graphql_parser.py:51-53 | ł and Ł fold to l, ń and Ń to n, ó and Ó to o |
| GraphqlParser.FoldedLettersSZ | src/parser/graphql_parser.py:54-56 | ś and Ś fold to s, ź and Ź to z, ż and Ż to z |
| GraphqlParser.CorrectPolishLetters | src/parser/graphql_parser.py:42-58 | `None` gives the empty string; otherwise the length is kept and each character is folded |
| GraphqlParser.FoldingRemovesPolishLetters | src/parser/graphql_parser.py:47-58 | the result has no Polish letters, and characters that were not Polish letters stay where they were |
| GraphqlParser.FoldingIdempotent | src/parser/graphql_parser.py:42-58 | folding twice equals folding once |
| GraphqlParser.CorrectPolishLettersOfString | src/parser/graphql_parser.py:42-58 | for a string or `null`, iterating the decoded value character by character agrees with the string version |
| GraphqlParser.MapOfLastWins | src/parser/graphql_parser.py:68-74 | a key is in the comprehension's dict iff some pair has it, and its value comes from the last such pair |
| GraphqlParser.IntParam | src/parser/graphql_parser.py:90-99 | a missing parameter gives 0; a present one gives `int()` of its value, including int's errors |
| Text.ParseIntSkipsWhitespace | src/parser/graphql_parser.py:90-99 | `int()` skips Python whitespace around the digits, the non-ASCII kind included, and refuses the ASCII separators 0x1C-0x1F |
| GraphqlParser.Listings | src/parser/graphql_parser.py:61-62 | a failure to reach `advertSearch.edges` is the extraction's failure |
| GraphqlParser.ListingOfEdge | src/parser/graphql_parser.py:65-107 | one dict per edge; ListingOfAdvert, ListingTextOfAdvert and ListingErrorOrder state where each field comes from and which error is raised first |
| GraphqlParser.ListingOfAdvert | src/parser/graphql_parser.py:65-107 | for a listing built from an edge: its id, url, cepikVerified and price come from the edge's `node`; year, mileage, engine capacity and power are `int()` of the `params` entries; brand, model, country code, version, fuel type and gearbox are the `params` values |
| GraphqlParser.ListingTextOfAdvert | src/parser/graphql_parser.py:81-101 | the short description, seller name, country of origin, city and region are the source texts with their Polish letters folded |
| GraphqlParser.ListingErrorOrder | src/parser/graphql_parser.py:65-77 | a failure while building the parameter tables is raised before any field is read; after them a missing `id` raises KeyError `id` |
| GraphqlParser.OneListingPerEdge | src/parser/graphql_parser.py:65-109 | exactly one listing per edge, in edge order; otherwise the exception of the first bad edge |
| GraphqlParser.ExtractListingsFromGraphql | src/parser/graphql_parser.py:61-109 | the loop returns the listings described by Listings |
| GraphqlParser.GraphqlListings | src/parser/graphql_parser.py:112-125 | the composed pipeline; ParseGraphql, OuterDecodeFails and InnerDecodeFails state its result and its decode failures |
| GraphqlParser.ParseGraphql | src/parser/graphql_parser.py:112-125 | the pipeline's result is the composed specification GraphqlListings |
| GraphqlParser.OuterDecodeFails | src/parser/graphql_parser.py:115 | an undecodable props script fails the pipeline with the outer decode error |
| GraphqlParser.InnerDecodeFails | src/parser/graphql_parser.py:119-121 | an undecodable `data` string fails the pipeline with the inner decode error |
| JsonLdParser.ExtractJsonLd | src/parser/json_ld_parser.py:7-20 | a missing or empty script gives `None`; otherwise the decoded document, or `None` on a decode error |
| JsonLdParser.NumberIfTruthy | src/parser/json_ld_parser.py:41-50 | a falsy value gives `None`; a truthy one gives its number or the conversion's exception |
| JsonLdParser.ParseOffer | src/parser/json_ld_parser.py:30-54 | an offer that is not a dict fails with AttributeError |
| JsonLdParser.ParseOfferFields | src/parser/json_ld_parser.py:30-54 | with the three nested dicts in place, parsing succeeds iff both number conversions do; then the offer holds the item's name, brand and fuel type, the mileage, the price and the currency; otherwise the mileage's error, or else the price's |
| JsonLdParser.ParseOfferNonDictItem | src/parser/json_ld_parser.py:32-34 | an `itemOffered` that is present but not a dict raises AttributeError |
| JsonLdParser.TextMileageSkipped | src/parser/json_ld_parser.py:41-45 | a mileage that is non-numeric text raises ValueError, so the offer is skipped |
| JsonLdParser.Items | src/parser/json_ld_parser.py:26-27 | the `mainEntity.itemListElement` lookup; MissingItemListIsEmpty and Offers state its outcomes |
| JsonLdParser.Offers | src/parser/json_ld_parser.py:23-59 | succeeds iff `mainEntity.itemListElement` can be iterated; the result is the parsed offers, with broken ones skipped |
| JsonLdParser.ParseOffers | src/parser/json_ld_parser.py:23-59 | the loop with its per-offer `try` returns Offers' result |
| JsonLdParser.JsonLd | src/parser/json_ld_parser.py:62-68 | no document or a falsy one gives `[]`; otherwise the document's offers |
| JsonLdParser.ParseJsonLd | src/parser/json_ld_parser.py:62-68 | the method returns the JsonLd specification |
| JsonLdParser.NumberTextRoundTrip | src/parser/json_ld_parser.py:41-50 | a number written as text is read back, and a missing one stays missing |
| JsonLdParser.OfferRoundTrip | src/parser/json_ld_parser.py:30-54 | encoding an offer in the site's layout and parsing it gives the same offer back |
| JsonLdParser.DocumentRoundTrip | src/parser/json_ld_parser.py:23-59 | a document listing encoded offers parses to exactly those offers, in order |
| JsonLdParser.BrokenOfferSkipped | src/parser/json_ld_parser.py:55-57 | an offer that raises is dropped and its neighbours are unaffected |
| JsonLdParser.ZeroMileageIsNone | src/parser/json_ld_parser.py:41-45 | a mileage of 0 is falsy and is recorded as `None` |
| JsonLdParser.MissingItemListIsEmpty | src/parser/json_ld_parser.py:26-27 | a missing `mainEntity` or `itemListElement` gives no offers, not an error |
| JsonLdParser.OffersAreSubsequence | src/parser/json_ld_parser.py:29-57 | the offers are the parsed items at increasing positions, never more than the items |
| Fetcher.IsZeroResults | src/fetcher.py:38-47 | a page counts as empty iff its lower-cased text holds a marker; ZeroResultsIgnoresCase, ZeroResultsMonotone and ShoutedMarkerCounts state its properties |
| Fetcher.ZeroResultsIgnoresCase | src/fetcher.py:38-47 | lower-casing the page does not change the zero-results verdict |
| Fetcher.ZeroResultsMonotone | src/fetcher.py:38-47 | a page containing a marker still counts when text is added around it |
| Fetcher.ShoutedMarkerCounts | src/fetcher.py:42-47 | a marker in capitals is found |
| Fetcher.FindPageMatch | src/fetcher.py:58 | returns the leftmost position of `page=<digit>`, or none iff there is no such position |
| Fetcher.DigitRun | src/fetcher.py:58-60 | the greedy `\d+`: a run of digits in the text, followed by a non-digit or the end |
| Fetcher.DetectLastPage | src/fetcher.py:51-62 | a missing tag is the unbound local; a URL without `page=<digits>` is returned as a string |
| Fetcher.FoundIsPageParameter | src/fetcher.py:58-60 | a found number is the value of the maximal, non-empty digit run after the leftmost `page=<digit>` |
| Fetcher.LaterPageParameterIgnored | src/fetcher.py:58-60 | `?page=3&ref=page=7` gives 3: only the first match counts |
| Fetcher.DetectPageOfUrl | src/fetcher.py:51-60 | a URL holding `page=` followed by the digits of n names page n |
| Fetcher.FourthPage | src/fetcher.py:51-60 | the `og:url` of the fourth results page of a search (`...?page=4`) gives 4 |
| UrlBuilder.Slugs | src/url_builder.py:4-13 | the slug pair is found iff the lower-cased pair is in the table; otherwise ValueError |
| UrlBuilder.BuildQueryParams | src/url_builder.py:16-41 | the encoded parameter list; QueryParams, QueryRoundTrip and PageIsLastParam state its contents |
| UrlBuilder.QueryParams | src/url_builder.py:26-39 | the six filters in order, then the damaged filter iff accident-free, then `page` last iff given; keys are distinct |
| UrlBuilder.QueryRoundTrip | src/url_builder.py:41 | decoding the encoded query gives back every key and value, as UTF-8 bytes, in order |
| UrlBuilder.QuotePlus | src/url_builder.py:41 | `quote_plus` over the UTF-8 bytes; QuotePlusUnreserved, QuoteEscapedChar and SearchKeyQuoting state its output, and QueryRoundTrip its inverse |
| UrlBuilder.UrlEncode | src/url_builder.py:41 | `key=value` pieces joined by `&`; QueryRoundTrip decodes them back |
| UrlBuilder.QuotePlusUnreserved | src/url_builder.py:41 | unreserved ASCII text is left unencoded |
| UrlBuilder.QuoteEscapedChar | src/url_builder.py:41 | any other ASCII character except space becomes `%` and two upper-case hex digits |
| UrlBuilder.SearchKeyQuoting | src/url_builder.py:27-33 | the brackets and colon of the `search[...]` keys are written %5B, %5D and %3A |
| UrlBuilder.BuildSearchUrl | src/url_builder.py:44-78 | succeeds iff the lower-cased brand and model are supported; otherwise ValueError |
| UrlBuilder.SearchUrlParts | src/url_builder.py:61-78 | the URL is the base path with the year, `?`, then the encoded query, which decodes back to its parameters |
| UrlBuilder.SearchUrlIgnoresCase | src/url_builder.py:57-61 | brand and model spellings that differ only in case give the same URL |
| UrlBuilder.WithDefaults | src/url_builder.py:52-55 | the defaults are petrol, manual and accident-free |
| UrlBuilder.PageNumbers | src/url_builder.py:101 | `range(1, max_pages + 1)`: pages 1..max_pages, none when max_pages < 1 |
| UrlBuilder.PaginatedUrls | src/url_builder.py:99-104 | one URL per page; PaginatedUrlsPages states its length, its URLs and its failure |
| UrlBuilder.GeneratePaginatedUrls | src/url_builder.py:99-104 | the loop returns the PaginatedUrls specification |
| UrlBuilder.PaginatedUrlsPages | src/url_builder.py:99-104 | fails iff max_pages ≥ 1 and the car is unsupported; otherwise there are max(max_pages, 0) URLs and URL i is what build_search_url gives for page i + 1 |
| UrlBuilder.PageIsLastParam | src/url_builder.py:38-39 | a given page is appended as the last query parameter `page` |
| Paginator.DetectedLastPage | src/paginator.py:76 | `detect_last_page(html) - 1`: the found number minus one; a missing tag raises UnboundLocalError and a URL returned as a string raises TypeError |
| Paginator.Absorb | src/paginator.py:61-77 | after detection a page changes nothing; otherwise a page whose JSON-LD lists offers is appended with detection unset, an empty list sets detection to the last page minus one or raises that error, and a failing extraction raises its error |
| Paginator.Step | src/paginator.py:47-81 | one pass of the loop body; StepNoUrl, StepNoPage, StepDetects and StepKeepsOffers state its outcomes |
| Paginator.StepNoUrl | src/paginator.py:47 | an unsupported car raises before any fetch |
| Paginator.StepNoPage | src/paginator.py:50-58 | a failed fetch or an empty-results page stops the crawl with the state unchanged |
| Paginator.StepDetects | src/paginator.py:61-81 | a page with no offers sets the detected last page, and the crawl stops iff the page is at or past it |
| Paginator.StepKeepsOffers | src/paginator.py:61-73 | before detection, a page whose JSON-LD lists offers is kept and the crawl goes on |
| Paginator.VisitPage | src/paginator.py:47-81 | one pass of the loop body ends as the Step specification says |
| Paginator.SearchPages | src/paginator.py:31-85 | the crawl from page 1; SearchFetches, SearchKeepsPrefix, SearchKeepsEveryPage and SearchStopsAtLastPage state its properties |
| Paginator.IterateSearchPages | src/paginator.py:31-85 | the loop's pages, exception and fetched page numbers are those of SearchPages |
| Paginator.SearchFetches | src/paginator.py:46-50 | the pages fetched are 1, 2, ... in order, and at most max_pages of them |
| Paginator.SearchKeepsPrefix | src/paginator.py:46-85 | every kept page was fetched, is not an empty-results page and lists JSON-LD offers; the j-th kept page is page j + 1 |
| Paginator.SearchKeepsEveryPage | src/paginator.py:46-85 | when pages 1..k can be fetched and all list offers, a successful crawl keeps at least k pages, and its j-th page is page j + 1 |
| Paginator.SearchStopsAtLastPage | src/paginator.py:79-81 | once a last page is detected, every page fetched before the final one lies before it |
| Paginator.SearchPage | src/paginator.py:25-28 | succeeds iff both extractors succeed, and then the records are the JSON-LD offers merged into the GraphQL listings, one per listing |
| Paginator.ParseSearchPage | src/paginator.py:25-28 | the method returns the SearchPage specification |
| Paginator.CarArgs | src/paginator.py:102-116 | each car's search uses its own brand and model with the shared filters |
| Paginator.CollectPages | src/paginator.py:113-126 | the per-car crawls' pages, concatenated in car order, or the first exception |
| Paginator.CollectListings | src/paginator.py:131-133 | the per-page merged records, concatenated in page order, or the first exception |
| Paginator.BatchListingCount | src/paginator.py:131-133 | the listing count is the sum, over pages, of each page's GraphQL listing count |
| Paginator.Batch | src/paginator.py:113-133 | all cars' pages, then all their records; CollectPages, CollectListings and BatchListingCount state its parts |
| Paginator.RunBatch | src/paginator.py:113-133 | the batch collects the pages of all six cars, then parses them |
| Normalizer.Parts | src/normalizer.py:52-53 | the parts are never empty, and none contains `-` |
| Normalizer.EngineFamily | src/normalizer.py:97-101 | none iff no part is a known family; otherwise the first part that is one |
| Normalizer.Drivetrain | src/normalizer.py:104-115 | none iff no part is a drivetrain token; otherwise the mapped value of the first token |
| Normalizer.Trim | src/normalizer.py:118-126 | none iff no part is a trim candidate; otherwise the title case of the last one |
| Normalizer.FeatureFlags | src/normalizer.py:141 | none iff there are no features |
| Normalizer.FeatureFlagsRoundTrip | src/normalizer.py:141 | for comma-free features, splitting the joined flags on `,` gives the features back |
| Normalizer.VersionSlug | src/normalizer.py:42-50 | a non-string, or a string without the `ver-` prefix, gives all fields `None` |
| Normalizer.ParseVersionSlug | src/normalizer.py:42-142 | the method returns the VersionSlug specification |
| Normalizer.FindEngineFamily | src/normalizer.py:97-101 | the loop returns EngineFamily's result |
| Normalizer.FindDrivetrain | src/normalizer.py:111-115 | the loop returns Drivetrain's result |
| Normalizer.FindTrim | src/normalizer.py:118-126 | the reverse loop returns Trim's result |
| Normalizer.CollectFeatures | src/normalizer.py:129-134 | the loop returns the filtered parts in order |
| Normalizer.EcoTsiNeverMatches | src/normalizer.py:95-101 | the family `eco-tsi` is never reported |
| Normalizer.EveryVerRemoved | src/normalizer.py:52 | every `ver-` is removed, not only the prefix |
| Normalizer.TitleOfWord | src/normalizer.py:125 | title case of a lower-case word upper-cases only its first letter |
| Normalizer.DrivetrainValues | src/normalizer.py:104-115 | the drivetrain is FWD, AWD or 4WD |
| Normalizer.PartIsNotDrivetrain | src/normalizer.py:131 | no part equals the mapped drivetrain |
| Normalizer.FeaturesAreOtherWords | src/normalizer.py:129-134 | the features are exactly the parts that are not numeric and not the engine family, in order |
| Normalizer.DrivetrainTokenIsFeature | src/normalizer.py:129-134 | a drivetrain token such as `awd` is always among the features |
| Normalizer.NotNumericWithLetter | src/normalizer.py:58 | a part containing a letter is never numeric |
| Normalizer.ZoneCode | src/normalizer.py:11-28 | N, C, S or UNK; UNK iff the region is missing or unknown; otherwise the table's letter |
| Normalizer.PolishOrigin | src/normalizer.py:244 | `pol` occurs in the country of origin, ignoring case, and a missing value is false; PolishOriginIgnoresCase and RiskScore use it |
| Normalizer.PolishOriginIgnoresCase | src/normalizer.py:244 | the Polish-origin test ignores letter case |
| Normalizer.RiskScore | src/normalizer.py:248-252 | between 0 and 4; an unverified history gives at least 2 and a verified one at most 2; odd iff exactly one of non-Polish origin and high mileage holds; 0 iff all three are good; 4 iff all three are bad |
| Normalizer.RiskScoreMonotone | src/normalizer.py:248-252 | more mileage never lowers the score |

## Left out

- Network and time. `fetch_html`, `requests.Session`, retries and `polite_sleep` are not
  modelled. The fetch is a parameter (`Paginator.Env.fetch`): a function from URL to page or
  `None`.
- `print`, `input`, HTML snapshots (`save_html_snapshot`), CSV writing and pandas are not
  modelled. They are I/O.
- Library parsers are not modelled, because they are library code. BeautifulSoup lookups are
  the `Html.Soup` parameters, and `json.loads` is the `Json.Loads` parameter.
- `normalize_dataframe`, `safe_int`, `src/get_eur.py`, `src/run_scraper.py` and `backend/` are
  not modelled. They are data-frame arithmetic, I/O or callers outside this core. Only three
  row rules are modelled: the zone code, the Polish-origin flag and the risk score.
- Normalizer.VersionSlug: leaves out `engine_size_l`, the float search over numeric parts. The
  `str(engine_size)` test in the feature filter is left out too. It cannot remove a part here:
  a float's text is numeric (already excluded) or holds `-` or a letter. The text `None`
  cannot equal a lower-cased part.
- Normalizer.RiskScore: takes `cepikVerified` as a boolean. A missing (NA) value is not
  modelled, and neither are pandas' column types.
- Floating point is not modelled. Prices are integers, and `float(x)` accepts only the
  integer forms that `int(x)` accepts.
- Python's `int()` is modelled on a sign and ASCII digits, with surrounding whitespace as
  `int()` skips it (space, tab to carriage return, and the non-ASCII whitespace characters).
  Underscores, non-ASCII digits and float arguments are not modelled.
- `\d` is ASCII digits only.
- Letter case: `lower()` and `title()` cover only ASCII and the nine Polish letters, not all
  of Unicode.
- Dicts are key/value sequences in insertion order. Writing an existing key replaces its value
  in place, so a decoded object with a repeated key keeps that key at its first position with
  the last value, as a Python dict does.
- The merge works on values. The source's shared dict objects (aliasing) are not modelled.
- Paginator.RunBatch: does not prove that all six cars are supported, which would make the
  URL builder never raise in the batch. It states the batch's result only in terms of the
  per-car crawls.
