# STA_Ecommerce product import and click statistics, in Dafny

This project models three parts of the STA_Ecommerce shop server and proves properties of them.

**`ProductDataFetcherService.FetchDetailsAsync`** takes an affiliate link to a Shein, Temu or Amazon product. It fetches the page and fills a `ProductDetailsDto` (name, description, price, provider, image URL) in five stages:

1. JSON-LD blocks;
2. Open Graph meta tags;
3. a price search in three tiers:
   - the main tier uses the general patterns, the provider's own patterns and the currency patterns, and picks the most frequent amount;
   - if that finds nothing, a visible-text tier;
   - if that also finds nothing, an aggressive tier;
4. an image search that resolves relative URLs against the page's `<base href>`;
5. a title search.

Each stage writes only fields that are still unset. At the end, defaults fill the name and the image:
- the name becomes "Producto de <provider>";
- the price is left at 0 for manual entry;
- the image becomes a placeholder URL.

**`ClickTrackingService.GetStatsAsync`** summarises the affiliate clicks stored in one time interval. It reports:
- the number of clicks;
- the distinct visitor addresses;
- clicks per provider, per traffic source and per hour of the day;
- the ten most clicked products.

**`ProductCategory`** is the fixed list of five product categories, with the icon and badge colour of each.

## How the model is built

The service's stages mutate the DTO with loops over patterns and matches. In the model they are methods of module `ProductDataFetcher` acting on a `ProductDetailsDto` class:
- each method is proved to leave the object in exactly the state given by a function of module `ExtractionSpec`;
- the properties of the pipeline are lemmas about those functions.

`InferProvider`, the winner selection of the price tiers (LINQ `GroupBy`/`OrderByDescending`/`First`), the click statistics and the category tables are pure in the source, and pure functions here.

### Inputs the model treats as given

The .NET regular-expression engine, `WebUtility.HtmlDecode` and `new Uri(...)` are a `Library` value that the model takes as a parameter:
- Each pattern is identified by the source line that writes it. `Patterns.PatternText` records the pattern text, but the model never interprets it.
- `matches(text, pattern)` is the sequence of group-1 captures of `Regex.Matches`.
- `Regex.Match` is the first of those captures.

`FetchHtmlAsync` is the parameter `fetch`, which returns the page or `None` when the request failed.

### Representation choices

- **Prices** are whole cents: every price pattern captures at most two decimals, so `Math.Round(p, 2)` changes nothing.
- **Timestamps** are `DateTime` tick counts.
- **Result dictionaries** of the statistics are sequences of (key, count) entries, in the order `GroupBy` produces them.

### Behaviours of the source that the model keeps as written

- **The name is decided by the title stage or the default.** The DTO starts with the name "Producto", which is not blank. So the JSON-LD and `og:title` name assignments (lines 169 and 141) can never fire. The name therefore comes only from the title stage, which treats "Producto" as unset, or from the default (`ExtractionSpec.ExtractNameFromTitleOnly`).
- **The aggressive tier's second comma replacement (lines 441-444) can never apply** (`ExtractionSpec.AggressiveCommaBranchNeverApplies`).
- **A `.gif` ending never makes a URL acceptable.** Lines 560-564 capture gif URLs, but the acceptance test at lines 620-624 has no `.gif`. A gif is accepted only when one of the other markers occurs elsewhere in it (`ExtractionSpec.GifUrlRejected`, `ExtractionSpec.GifSuffixDecidesNothing`).
- **An og:image is stored as captured.** Lines 147-149 store the tag's value without resolving it. The image stage, which turns "//host/path" into "https://host/path", then returns at line 532 because an image is set. So a protocol-relative og:image such as "//cdn.example.com/img.jpg" is returned without a scheme (`ExtractionSpec.ExtractKeepsRawOgImage`).
- **The Amazon price list contains the general `"price"` pattern twice** (lines 256 and 283). Its matches therefore count twice in the vote (`ExtractionSpec.AmazonCountsPricePatternTwice`). The lists name every repeated pattern by its first line, and `Patterns.Line283RepeatsLine256` and its siblings prove the two lines hold the same text.
- **A title's length is checked before trimming** (`ExtractionSpec.TitleLengthCheckedBeforeTrim`).

## Model

| member | source | states |
|---|---|---|
| ProductDataFetcher.FetchDetails | Server/Services/ProductDataFetcherService.cs:27-93 | a null-or-white-space URL gives the ArgumentException and nothing is fetched; otherwise the URL is fetched once and the returned fresh DTO equals `Extract` for the inferred provider and the fetched page |
| ProductDataFetcher.ProductDetailsDto.constructor | Server/Services/ProductDataFetcherService.cs:35-42 | the DTO starts with name "Producto", no description, price 0, the provider's name and an empty image URL |
| ProductDataFetcher.ApplyDefaults | Server/Services/ProductDataFetcherService.cs:74-90 | the final defaults change the DTO exactly as `Finalize` says |
| ProductDataFetcher.ExtractJsonLdData | Server/Services/ProductDataFetcherService.cs:159-237 | the loop over the JSON-LD blocks leaves the DTO as `JsonLdStage` (the blocks in page order) says |
| ProductDataFetcher.ExtractJsonLdBlock | Server/Services/ProductDataFetcherService.cs:166-235 | one block sets name, price and image, each only while unset, as `JsonLdBlock` says |
| ProductDataFetcher.FindJsonLdPrice | Server/Services/ProductDataFetcherService.cs:181-204 | the pattern loop returns the first positive amount, at most `decimal.MaxValue`, that any pattern's first match parses to (`JsonLdPrice`), or None |
| ProductDataFetcher.FindJsonLdImage | Server/Services/ProductDataFetcherService.cs:210-234 | the pattern loop returns the first trimmed, cleaned, acceptable image URL (`JsonLdImage`), or None |
| ProductDataFetcher.ExtractOpenGraphData | Server/Services/ProductDataFetcherService.cs:137-157 | the three meta tags are written into unset fields only, as `OgStage` says |
| ProductDataFetcher.ExtractPriceFromHtml | Server/Services/ProductDataFetcherService.cs:239-410 | leaves the DTO as `PriceStage` says for the stored provider name |
| ProductDataFetcher.CollectFromMatches | Server/Services/ProductDataFetcherService.cs:340-355 | the amounts collected from one pattern's matches are exactly `CapturePrices`, in match order |
| ProductDataFetcher.CollectPrices | Server/Services/ProductDataFetcherService.cs:330-361 | the amounts collected over a pattern list are `TierCandidates`: pattern order, then match order |
| ProductDataFetcher.ChooseTierPrice | Server/Services/ProductDataFetcherService.cs:363-391 | the tier's pick equals `TierPrice` (the mode of the amounts in the keep range, or None) |
| ProductDataFetcher.ExtractPriceFromVisibleText | Server/Services/ProductDataFetcherService.cs:484-528 | sets the price to the visible-text tier's pick when there is one and changes nothing otherwise |
| ProductDataFetcher.ExtractPriceAggressive | Server/Services/ProductDataFetcherService.cs:412-482 | sets the price to the aggressive tier's pick when there is one and changes nothing otherwise |
| ProductDataFetcher.FindImageAmong | Server/Services/ProductDataFetcherService.cs:583-631 | over one pattern's captures: skips what cannot be made absolute, stops at a failing `new Uri`, returns the first accepted URL (`ImageAmong`) |
| ProductDataFetcher.FindImage | Server/Services/ProductDataFetcherService.cs:579-637 | the first pattern, in order, that yields an accepted URL gives the image (`FirstImage`) |
| ProductDataFetcher.ExtractImageFromHtml | Server/Services/ProductDataFetcherService.cs:530-640 | leaves a set image alone, otherwise stores the first accepted URL, as `ImageStage` says |
| ProductDataFetcher.FindTitle | Server/Services/ProductDataFetcherService.cs:654-666 | the first pattern whose first match decodes to an accepted title gives the trimmed title (`TitleFrom`) |
| ProductDataFetcher.ExtractTitleFromHtml | Server/Services/ProductDataFetcherService.cs:642-667 | a name other than blank or "Producto" is kept; otherwise the found title is stored, as `TitleStage` says |
| ExtractionSpec.JsonLdPrice | Server/Services/ProductDataFetcherService.cs:190-204 | a JSON-LD price, when found, is positive and at most `decimal.MaxValue`, so a capture that `decimal.TryParse` rejects never becomes the price |
| ExtractionSpec.JsonLdImage | Server/Services/ProductDataFetcherService.cs:218-234 | a JSON-LD image, when found, is non-blank and contains "http", ".jpg" or ".png" |
| ExtractionSpec.JsonLdBlockKeepsSetFields | Server/Services/ProductDataFetcherService.cs:169-208 | a block never overwrites a set name, price or image, never touches description or provider, and only writes a positive price within `decimal`'s range |
| ExtractionSpec.JsonLdStageKeepsSetFields | Server/Services/ProductDataFetcherService.cs:164-236 | the same write-once property for all the blocks of a page |
| ExtractionSpec.OgStageKeepsSetFields | Server/Services/ProductDataFetcherService.cs:141-156 | Open Graph writes only unset name, image and description, never the price or the provider |
| ExtractionSpec.OgStageFillsUnsetFields | Server/Services/ProductDataFetcherService.cs:140-156 | each unset field whose tag is present takes the tag's value, with title and description decoded |
| ExtractionSpec.AggressiveCommaBranchNeverApplies | Server/Services/ProductDataFetcherService.cs:436-444 | after line 437 no comma is left, so the second replacement never fires |
| ExtractionSpec.Candidate | Server/Services/ProductDataFetcherService.cs:344-353 | an amount a tier collects from a capture is in the tier's collection range |
| ExtractionSpec.CapturePricesAdmitted | Server/Services/ProductDataFetcherService.cs:340-353 | every amount collected from one pattern's captures is in the tier's collection range |
| ExtractionSpec.TierCandidatesAdmitted | Server/Services/ProductDataFetcherService.cs:331-361 | every amount a tier collects over its patterns is in the collection range: (0, 1000000), [0.01, 100000] or [0.50, 50000] |
| ExtractionSpec.Within | Server/Services/ProductDataFetcherService.cs:369 | the filtered amounts lie in the keep range |
| ExtractionSpec.WithinCount | Server/Services/ProductDataFetcherService.cs:369 | the filter keeps every occurrence of every amount in the range |
| ExtractionSpec.TierPriceIsMostFrequent | Server/Services/ProductDataFetcherService.cs:363-391 | the pick was collected, lies in the keep range, is at least as frequent as any amount in the range, and among equally frequent amounts is the first seen; None only when no collected amount is in range |
| ExtractionSpec.PriceStageWritesOnlyUnsetPrice | Server/Services/ProductDataFetcherService.cs:239-245 | a set price is left alone, only the price changes, and a new price is 0 or in [0.01, 100000] |
| ExtractionSpec.PriceStageDependsOnPriceOnly | Server/Services/ProductDataFetcherService.cs:239-410 | the price the stage ends with depends on the page, the provider and the previous price only |
| ExtractionSpec.PriceStageFallbackOrder | Server/Services/ProductDataFetcherService.cs:397-409 | main pick first, else visible text (in [1, 50000]), else aggressive (in [1, 10000]), else the price stays 0 |
| ExtractionSpec.AmazonCountsPricePatternTwice | Server/Services/ProductDataFetcherService.cs:256-283 | for Amazon, every amount the general `"price"` pattern captures is counted at least twice |
| ExtractionSpec.FirstAccepted | Server/Services/ProductDataFetcherService.cs:619-629 | the URL a pattern yields passes the acceptance test |
| ExtractionSpec.FirstAcceptedFrom | Server/Services/ProductDataFetcherService.cs:584-631 | the URL a pattern yields is one of its captures' resolutions |
| ExtractionSpec.FirstImage | Server/Services/ProductDataFetcherService.cs:579-637 | the image found passes the acceptance test |
| ExtractionSpec.FirstImageComesFromCapture | Server/Services/ProductDataFetcherService.cs:579-637 | the image found is the resolution of a capture of one of the patterns |
| ExtractionSpec.ImageStageWritesOnlyUnsetImage | Server/Services/ProductDataFetcherService.cs:530-640 | only an unset image is written, nothing else changes, and what is written passes the test and comes from a capture |
| ExtractionSpec.ResolveProtocolRelative | Server/Services/ProductDataFetcherService.cs:596-599 | "//host/path" becomes "https://host/path" |
| ExtractionSpec.ResolveRootRelative | Server/Services/ProductDataFetcherService.cs:600-611 | "/path" is skipped without a base, fails with an unparsable base, else gets the base's scheme and host |
| ExtractionSpec.ResolveOtherRelative | Server/Services/ProductDataFetcherService.cs:613-616 | any other URL not starting with "http" is skipped |
| ExtractionSpec.RejectedWithoutMarkerLetters | Server/Services/ProductDataFetcherService.cs:620-624 | a URL with none of the letters j, n, w, m (either case) fails the acceptance test |
| ExtractionSpec.GifUrlRejected | Server/Services/ProductDataFetcherService.cs:560-624 | the absolute gif URL "http://a.gif", which the img pattern can capture, is rejected (one example; `GifSuffixDecidesNothing` states the general rule) |
| ExtractionSpec.GifSuffixDecidesNothing | Server/Services/ProductDataFetcherService.cs:620-624 | for every URL, appending ".gif" does not change whether it is accepted: only one of the five markers elsewhere in it can make a gif acceptable |
| ExtractionSpec.AcceptTitle | Server/Services/ProductDataFetcherService.cs:659-662 | a title that passes the test is not blank |
| ExtractionSpec.TitleFrom | Server/Services/ProductDataFetcherService.cs:654-666 | a title found is not blank |
| ExtractionSpec.TitleLengthCheckedBeforeTrim | Server/Services/ProductDataFetcherService.cs:660-662 | " ab " is accepted and stored as "ab", while "ab" alone is rejected |
| ExtractionSpec.TitleStageWritesOnlyName | Server/Services/ProductDataFetcherService.cs:642-667 | only the name changes, a real name is kept, and "Producto" or blank takes the found title |
| ExtractionSpec.SynthesizedNameIsAName | Server/Services/ProductDataFetcherService.cs:75-78 | "Producto de <provider>" is neither blank nor "Producto" |
| ExtractionSpec.StagesEffect | Server/Services/ProductDataFetcherService.cs:54-58 | over the five stages the provider is kept, a real name is kept, "Producto" becomes the title stage's result, and without JSON-LD the price is the price stage's |
| ExtractionSpec.FinalizeFills | Server/Services/ProductDataFetcherService.cs:74-90 | after the defaults the name is neither blank nor "Producto", the image is not blank, and provider, price and description are kept |
| ExtractionSpec.ExtractFillsEveryField | Server/Services/ProductDataFetcherService.cs:27-93 | whatever the page, the result has a non-blank name other than "Producto", a non-blank image and the URL's provider |
| ExtractionSpec.ExtractWithoutPage | Server/Services/ProductDataFetcherService.cs:47-90 | a failed or empty fetch gives exactly the default details |
| ExtractionSpec.ExtractNameFromTitleOnly | Server/Services/ProductDataFetcherService.cs:54-78 | the returned name is the found title, or the synthesized name when none is found or it is "Producto" |
| ExtractionSpec.StagesKeepOgImage | Server/Services/ProductDataFetcherService.cs:147-149 | with no JSON-LD and no image set before, the stages end with the og:image capture as the image, unchanged |
| ExtractionSpec.ExtractKeepsRawOgImage | Server/Services/ProductDataFetcherService.cs:530-532 | on a page without JSON-LD, a non-blank og:image is returned exactly as captured; a protocol-relative one stays without a scheme |
| ExtractionSpec.ExtractPriceWithoutJsonLd | Server/Services/ProductDataFetcherService.cs:54-56 | without JSON-LD the price is the main pick, else the visible-text pick, else the aggressive pick, else 0 |
| Provider.InferProvider | Server/Services/ProductDataFetcherService.cs:669-680 | Shein iff the lower-cased URL contains "shein"; Temu iff not and it contains "temu"; Amazon iff neither and it contains "amazon"; otherwise "Desconocido" |
| Provider.NamesDistinct | Server/Services/ProductDataFetcherService.cs:672-679 | the four provider names are distinct |
| Provider.InferProviderIgnoresCase | Server/Services/ProductDataFetcherService.cs:671 | URLs that differ only in letter case get the same provider |
| Patterns.ProviderNameSelectsPatterns | Server/Services/ProductDataFetcherService.cs:272-320 | testing the stored name for "Amazon", "Shein", "Temu" (ignoring case) picks the list of the provider it names, and none for "Desconocido" |
| Patterns.ProviderKeywords | Server/Services/ProductDataFetcherService.cs:272-304 | each provider name contains its own keyword and none of the keywords checked before it |
| Patterns.Line283RepeatsLine256 | Server/Services/ProductDataFetcherService.cs:283 | the pattern written at line 283 has the same text as the one at line 256, so the lists name both by line 256 |
| Patterns.Line301RepeatsLine262 | Server/Services/ProductDataFetcherService.cs:301 | the pattern written at line 301 has the same text as the one at line 262, so the lists name both by line 262 |
| Patterns.Line311RepeatsLine299 | Server/Services/ProductDataFetcherService.cs:311 | the pattern written at line 311 has the same text as the one at line 299, so the lists name both by line 299 |
| Patterns.Line312RepeatsLine298 | Server/Services/ProductDataFetcherService.cs:312 | the pattern written at line 312 has the same text as the one at line 298, so the lists name both by line 298 |
| Patterns.Line315RepeatsLine262 | Server/Services/ProductDataFetcherService.cs:315 | the pattern written at line 315 has the same text as the one at line 262, so the lists name both by line 262 |
| Patterns.Line316RepeatsLine264 | Server/Services/ProductDataFetcherService.cs:316 | the pattern written at line 316 has the same text as the one at line 264, so the lists name both by line 264 |
| Patterns.Line547RepeatsLine146 | Server/Services/ProductDataFetcherService.cs:547 | the pattern written at line 547 has the same text as the one at line 146, so the lists name both by line 146 |
| Patterns.Line549RepeatsLine212 | Server/Services/ProductDataFetcherService.cs:549 | the pattern written at line 549 has the same text as the one at line 212, so the lists name both by line 212 |
| Patterns.Line550RepeatsLine213 | Server/Services/ProductDataFetcherService.cs:550 | the pattern written at line 550 has the same text as the one at line 213, so the lists name both by line 213 |
| Money.ParseCents | Server/Services/ProductDataFetcherService.cs:196 | an amount that parses is at most `decimal.MaxValue` |
| Money.AboveDecimalRangeRejected | Server/Services/ProductDataFetcherService.cs:196 | the capture "100000000000000000000000000000", beyond `decimal.MaxValue`, does not parse |
| Money.ParseFormatRoundTrip | Server/Services/ProductDataFetcherService.cs:348-349 | parsing the two-decimal text of an amount gives back the amount when a `decimal` can hold it, and fails otherwise |
| Money.ParseWholeNumber | Server/Services/ProductDataFetcherService.cs:348-349 | a whole number parses to that many hundred cents, or fails when it is beyond `decimal.MaxValue` |
| Text.TrimProperties | Server/Services/ProductDataFetcherService.cs:662 | a trimmed string has no white space at either end and is blank exactly when the original is |
| Text.TrimStartDropsWhiteSpace | Server/Services/ProductDataFetcherService.cs:588 | `TrimStart` keeps a suffix without leading white space and drops only white space |
| Text.TrimEndDropsWhiteSpace | Server/Services/ProductDataFetcherService.cs:588 | `TrimEnd` keeps a prefix without trailing white space and drops only white space |
| Text.Utf16LengthBmp | Server/Services/ProductDataFetcherService.cs:660 | for Basic Multilingual Plane text, `Length` is the number of characters |
| Grouping.Mode | Server/Services/ProductDataFetcherService.cs:373-381 | the pick occurs in the list, is as frequent as any value, and among the most frequent occurs first |
| Grouping.ModeIsUnique | Server/Services/ProductDataFetcherService.cs:373-381 | those three properties determine the pick |
| Grouping.KeysInFirstAppearanceOrder | Server/Services/ProductDataFetcherService.cs:375 | `GroupBy` enumerates keys in order of first appearance |
| Grouping.GroupCountsTotal | Server/Services/ClickTrackingService.cs:69-71 | group sizes add up to the number of grouped elements |
| Grouping.KeysCountDistinct | Server/Services/ClickTrackingService.cs:64 | `Distinct().Count()` is the number of distinct values |
| ClickTrackingService.GetStats | Server/Services/ClickTrackingService.cs:51-91 | TotalClicks is at most the number of stored clicks, and UniqueIPs at most TotalClicks |
| ClickTrackingService.ClicksInRange | Server/Services/ClickTrackingService.cs:55-58 | the interval filter keeps at most the stored clicks |
| ClickTrackingService.Hour | Server/Services/ClickTrackingService.cs:86 | `Timestamp.Hour` is an hour of the day, below 24 |
| ClickTrackingService.Take | Server/Services/ClickTrackingService.cs:83 | `Take(10)` keeps the first ten entries, or all of them when there are fewer |
| ClickTrackingService.ClicksInRangeCount | Server/Services/ClickTrackingService.cs:56-59 | the filter keeps each click with from <= Timestamp <= to as often as it occurs, and no other click |
| ClickTrackingService.TotalClicksCountsInterval | Server/Services/ClickTrackingService.cs:56-63 | TotalClicks counts the filtered clicks, and a stored click is among them iff its timestamp is in the interval |
| ClickTrackingService.UniqueIPsCountsDistinctAddresses | Server/Services/ClickTrackingService.cs:64 | UniqueIPs is the number of distinct addresses, a missing address counting as one value |
| ClickTrackingService.WithProduct | Server/Services/ClickTrackingService.cs:66 | keeps exactly the clicks whose product exists |
| ClickTrackingService.ClicksByProviderCountsLinkedClicks | Server/Services/ClickTrackingService.cs:65-68 | the provider counts add up to the clicks with a product, which is at most TotalClicks |
| ClickTrackingService.ClicksByProviderEntries | Server/Services/ClickTrackingService.cs:65-68 | each provider entry counts the linked clicks of that provider, and is positive |
| ClickTrackingService.ClicksBySourceSumsToTotal | Server/Services/ClickTrackingService.cs:69-71 | the source counts add up to TotalClicks |
| ClickTrackingService.ClicksByHourSumsToTotal | Server/Services/ClickTrackingService.cs:85-87 | the hour counts add up to TotalClicks |
| ClickTrackingService.ClicksByHourKeys | Server/Services/ClickTrackingService.cs:85-87 | every hour key is `HourLabel(h)` for an hour h in 0-23 (two digits, then ":00"), keys are distinct, and each counts the clicks in that hour |
| ClickTrackingService.HourLabelRoundTrip | Server/Services/ClickTrackingService.cs:87 | an hour's key has five characters, ends in ":00", starts with two digits and reads back as the hour |
| ClickTrackingService.HourLabelInjective | Server/Services/ClickTrackingService.cs:87 | two hours get the same key iff they are equal, so `ToDictionary` meets no duplicate key |
| ClickTrackingService.HourLabelsTotal | Server/Services/ClickTrackingService.cs:85-87 | relabelling the hour groups keeps every count |
| ClickTrackingService.HourLabelsKeys | Server/Services/ClickTrackingService.cs:87 | each relabelled key reads back as its hour, keeps its count, and differs from the other keys |
| ClickTrackingService.InsertByClicks | Server/Services/ClickTrackingService.cs:82 | inserting into a list sorted by descending clicks gives a sorted permutation of the list plus the entry |
| ClickTrackingService.SortByClicks | Server/Services/ClickTrackingService.cs:82 | the result is sorted by descending clicks and is a permutation of the input |
| ClickTrackingService.ProductGroupEntry | Server/Services/ClickTrackingService.cs:72-81 | each product group has ConversionRate 0 and the positive count of linked clicks with its (ProductId, Nombre) |
| ClickTrackingService.TopProductsOfLinked | Server/Services/ClickTrackingService.cs:82-84 | at most ten entries, sorted by descending clicks, each one of the product groups |
| ClickTrackingService.TopProductsShape | Server/Services/ClickTrackingService.cs:72-84 | TopProducts has at most ten entries, is sorted by descending clicks, and each entry has ConversionRate 0 and its product's click count |
| ClickTrackingService.TopProductsAreMostClicked | Server/Services/ClickTrackingService.cs:82-83 | a product group left out has no more clicks than any entry kept |
| ProductCategory.GetCategoryIcon | Shared/ProductCategory.cs:20-31 | the icon differs from the parcel exactly for the five categories |
| ProductCategory.GetCategoryColor | Shared/ProductCategory.cs:33-44 | the colour differs from "dark" exactly for the five categories |
| ProductCategory.AllDistinct | Shared/ProductCategory.cs:11-18 | `All` holds five pairwise distinct categories |
| ProductCategory.CategoriesHaveOwnIconAndColor | Shared/ProductCategory.cs:11-44 | every category gets a non-default icon and colour, and no two categories share either |

## Left out

- The regular-expression engine, `WebUtility.HtmlDecode` and `new Uri` are inputs (`Library`), not reimplementations. The pattern texts are recorded but not interpreted, so properties that depend on what a pattern can match are stated about the captures it returns.
- `FetchHtmlAsync` (HTTP client, headers, timeout, status handling) is the `fetch` parameter. Logging, `async` and the `CancellationToken` are not modelled.
- The outer `try`/`catch` of `FetchDetailsAsync` (lines 44-72) and the per-pattern `catch` blocks of the price tiers are not modelled, because nothing in the modelled stages throws. The per-pattern `catch` around `new Uri` in the image stage is modelled.
- Money.ParseCents: agrees with `decimal.TryParse(..., NumberStyles.Any, InvariantCulture)` only on digit strings with at most one point and two decimals. After the cleaning steps, every capture the patterns can produce has that shape. Signs, exponents, currency symbols and surrounding white space, which `NumberStyles.Any` would also accept, yield None. Amounts are bounded by `decimal.MaxValue` (79228162514264337593543950335). A `decimal` holds only 28-29 significant digits, however, and `TryParse` rounds the cents of an amount that needs more than that; the model keeps them exact. It also rejects the amounts just above `decimal.MaxValue` that .NET rounds down to it rather than refusing.
- ExtractionSpec.JsonLdPrice: the rounding described for `Money.ParseCents` is the only gap, and only JSON-LD prices of about 7.9 × 10^26 or more can reach it. Every price tier discards amounts of one million or more before they are stored.
- ProductDataFetcher.FindJsonLdPrice: computes `JsonLdPrice`, so the same gap applies.
- Text.Lower: `ToLowerInvariant` and `OrdinalIgnoreCase` comparisons are modelled with ASCII case mapping only.
- ExtractionSpec.Resolve: `StartsWith("//")` and `StartsWith("/")` use the current culture in .NET. They are modelled as ordinal comparisons, which agree for these ASCII prefixes except under culture-specific ignorable characters.
- ClickTrackingService.GetStats: the `DateTime.UtcNow` defaults for `from` and `to` (lines 53-54) are not modelled; both bounds are parameters. The order in which the database returns the rows is the order of the input sequence.
- ClickTrackingService.SortByClicks: the model's insertion is stable, as `OrderByDescending` is, so tied products keep their group order. That tie order is not stated in a contract; only sortedness and permutation are.
- ClickTrackingService: dictionaries are modelled as ordered sequences of entries. `ConversionRate` (a `decimal`) is an integer that is always 0. `DateTime.Kind` is ignored, and timestamps are tick counts.
- `TrackClickAsync` and `GetRecentClicksAsync` write to or read the database and are not part of this model. Neither are `Program.cs`, `AppDbContext`, the controllers or the client.
- ProductCategory.All: the source's `static readonly string[]` could be mutated in place by a caller. The model uses an immutable sequence.
