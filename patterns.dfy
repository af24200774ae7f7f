/** The pattern library of the extraction pipeline: every regular expression
    the service uses, in the order the service tries them, and the library
    services (regex engine, HTML entity decoding, URI parsing) that the model
    takes as given. Line numbers refer to
    Server/Services/ProductDataFetcherService.cs. */
module Patterns {
  import opened Wrappers
  import opened Text
  import opened Provider

  /** A .NET regular expression as the service constructs it, named by the
      line where its pattern text is first written (`PatternText(line)`).
      Every call passes `RegexOptions.IgnoreCase`; `singleline` records whether
      it also passes `RegexOptions.Singleline`. A pattern written again later
      with the same text and options is the same regular expression and keeps
      the first line; the lists below mark where that happens. */
  datatype Regex = Regex(line: nat, singleline: bool)

  /** Scheme and host of a parsed absolute URI (`new Uri(s).Scheme`, `.Host`). */
  datatype Uri = Uri(scheme: string, host: string)

  /** The library code the service calls and the model does not reimplement.
      `matches(text, r)` is `Regex.Matches(text, PatternText(r.line), options)`,
      giving the value of capture group 1 of each successive match;
      `htmlDecode` is `WebUtility.HtmlDecode`; `parseUri(s)` is `new Uri(s)`,
      None when that constructor throws. */
  datatype Library = Library(
    matches: (string, Regex) -> seq<string>,
    htmlDecode: string -> string,
    parseUri: string -> Option<Uri>)

  /** `Regex.Match`: group 1 of the first match, if there is one. */
  function FirstMatch(lib: Library, text: string, r: Regex): Option<string>
  {
    var all := lib.matches(text, r);
    if |all| > 0 then Some(all[0]) else None
  }

  /** `og:title` meta tag (line 140). */
  const OgTitle := Regex(140, false)

  /** `og:image` meta tag (line 146). */
  const OgImage := Regex(146, false)

  /** `og:description` meta tag (line 152). */
  const OgDescription := Regex(152, false)

  /** A `<script type="application/ld+json">` block; group 1 is its body (line 162). */
  const JsonLdScript := Regex(162, true)

  /** `"name"` inside a JSON-LD block (line 171). */
  const JsonLdName := Regex(171, false)

  /** Price patterns tried, in order, inside a JSON-LD block (lines 181-188). */
  const JsonLdPricePatterns: seq<Regex> := [
    Regex(183, false),
    Regex(184, false),
    Regex(185, false),
    Regex(186, false),
    Regex(187, false)
  ]

  /** Image patterns tried, in order, inside a JSON-LD block (lines 210-216). */
  const JsonLdImagePatterns: seq<Regex> := [
    Regex(212, true),
    Regex(213, true),
    Regex(214, true),
    Regex(215, true)
  ]

  /** Price patterns used for every provider, first in the list (lines 253-269). */
  const GeneralPricePatterns: seq<Regex> := [
    Regex(256, true),
    Regex(257, true),
    Regex(258, true),
    Regex(259, true),
    Regex(260, true),
    Regex(262, true),
    Regex(263, true),
    Regex(264, true),
    Regex(265, true),
    Regex(267, true),
    Regex(268, true)
  ]

  /** Price patterns added for Amazon (lines 274-290). */
  const AmazonPricePatterns: seq<Regex> := [
    Regex(277, true),
    Regex(278, true),
    Regex(279, true),
    Regex(280, true),
    Regex(281, true),
    Regex(282, true),
    Regex(256, true), // written again at line 283
    Regex(284, true),
    Regex(285, true),
    Regex(286, true),
    Regex(288, true),
    Regex(289, true)
  ]

  /** Price patterns added for Shein (lines 294-302). */
  const SheinPricePatterns: seq<Regex> := [
    Regex(297, true),
    Regex(298, true),
    Regex(299, true),
    Regex(300, true),
    Regex(262, true) // written again at line 301
  ]

  /** Price patterns added for Temu (lines 306-319). */
  const TemuPricePatterns: seq<Regex> := [
    Regex(309, true),
    Regex(310, true),
    Regex(299, true), // written again at line 311
    Regex(298, true), // written again at line 312
    Regex(313, true),
    Regex(314, true),
    Regex(262, true), // written again at line 315
    Regex(264, true), // written again at line 316
    Regex(318, true)
  ]

  /** Currency-tagged numbers, last in the list (lines 323-328). */
  const CurrencyPricePatterns: seq<Regex> := [
    Regex(325, true),
    Regex(326, true),
    Regex(327, true)
  ]

  /** Numbers standing alone between tags (lines 487-492); matched without Singleline (line 498). */
  const VisiblePricePatterns: seq<Regex> := [
    Regex(489, false),
    Regex(490, false),
    Regex(491, false)
  ]

  /** Any currency-like number (lines 416-423). */
  const AggressivePricePatterns: seq<Regex> := [
    Regex(418, true),
    Regex(419, true),
    Regex(420, true),
    Regex(421, true),
    Regex(422, true)
  ]

  /** Image URL patterns, in order (lines 544-565). */
  const ImagePatterns: seq<Regex> := [
    Regex(146, true), // written again at line 547
    Regex(212, true), // written again at line 549
    Regex(213, true), // written again at line 550
    Regex(552, true),
    Regex(553, true),
    Regex(554, true),
    Regex(555, true),
    Regex(556, true),
    Regex(557, true),
    Regex(558, true),
    Regex(560, true),
    Regex(561, true),
    Regex(562, true),
    Regex(564, true)
  ]

  /** `<base href>` of the page (line 571). */
  const BaseHref := Regex(571, false)

  /** Title patterns, in order (lines 647-652). */
  const TitlePatterns: seq<Regex> := [
    Regex(649, true),
    Regex(650, true),
    Regex(651, true)
  ]

  /** The provider's own price patterns, chosen as lines 272-315 choose them:
      by testing the stored provider name for "Amazon", "Shein" and "Temu" in
      that order, ignoring case. */
  function ProviderPricePatterns(proveedor: string): seq<Regex>
  {
    if ContainsIgnoreCase(proveedor, "Amazon") then AmazonPricePatterns
    else if ContainsIgnoreCase(proveedor, "Shein") then SheinPricePatterns
    else if ContainsIgnoreCase(proveedor, "Temu") then TemuPricePatterns
    else []
  }

  /** The main price tier's pattern list as `ExtractPriceFromHtml` builds it
      for the stored provider name (lines 250-328): the general patterns, then
      the provider's own, then the currency patterns. */
  function PricePatterns(proveedor: string): seq<Regex>
  {
    GeneralPricePatterns + ProviderPricePatterns(proveedor) + CurrencyPricePatterns
  }

  /** Testing the stored name picks the list of the provider it names: no
      provider name contains another provider's keyword. */
  lemma ProviderNameSelectsPatterns(p: Provider)
    ensures ProviderPricePatterns(p.Name()) ==
      match p
      case Amazon => AmazonPricePatterns
      case Shein => SheinPricePatterns
      case Temu => TemuPricePatterns
      case Unknown => []
  {
    ProviderKeywords(p);
  }

  /** Which provider keywords each stored provider name contains. */
  lemma ProviderKeywords(p: Provider)
    ensures ContainsIgnoreCase(p.Name(), "Amazon") <==> p == Amazon
    ensures p != Amazon ==> (ContainsIgnoreCase(p.Name(), "Shein") <==> p == Shein)
    ensures p != Amazon && p != Shein ==> (ContainsIgnoreCase(p.Name(), "Temu") <==> p == Temu)
  {
    assert Lower("Amazon") == "amazon" && Lower("Shein") == "shein" && Lower("Temu") == "temu";
    match p
    case Amazon =>
      assert Lower(p.Name()) == "amazon";
      assert StartsWith("amazon", "amazon");
    case Shein =>
      assert Lower(p.Name()) == "shein";
      KeywordsOfShein();
    case Temu =>
      assert Lower(p.Name()) == "temu";
      KeywordsOfTemu();
    case Unknown =>
      assert Lower(p.Name()) == "desconocido";
      KeywordsOfDesconocido();
  }

  lemma KeywordsOfShein()
    ensures !Contains("shein", "amazon") && Contains("shein", "shein")
  {
    MissingCharNotContained("shein", "amazon", 'a');
    assert StartsWith("shein", "shein");
  }

  lemma KeywordsOfTemu()
    ensures !Contains("temu", "amazon") && !Contains("temu", "shein") && Contains("temu", "temu")
  {
    MissingCharNotContained("temu", "amazon", 'a');
    MissingCharNotContained("temu", "shein", 's');
    assert StartsWith("temu", "temu");
  }

  lemma KeywordsOfDesconocido()
    ensures !Contains("desconocido", "amazon") && !Contains("desconocido", "shein")
    ensures !Contains("desconocido", "temu")
  {
    DesconocidoLacks('a', "amazon");
    DesconocidoLacks('h', "shein");
    DesconocidoLacks('t', "temu");
  }

  /** "desconocido" has none of the letters a, h and t. */
  lemma DesconocidoLacks(c: char, keyword: string)
    requires c in "aht" && c in keyword
    ensures !Contains("desconocido", keyword)
  {
    var name := "desconocido";
    forall i | 0 <= i < |name| ensures name[i] in "desconi" {
    }
    MissingCharNotContained(name, keyword, c);
  }

  // The patterns written twice in the service have the same text at both
  // lines, so each list above names them by the line that writes them first.

  lemma Line283RepeatsLine256() ensures PatternText(283) == PatternText(256) { }
  lemma Line301RepeatsLine262() ensures PatternText(301) == PatternText(262) { }
  lemma Line311RepeatsLine299() ensures PatternText(311) == PatternText(299) { }
  lemma Line312RepeatsLine298() ensures PatternText(312) == PatternText(298) { }
  lemma Line315RepeatsLine262() ensures PatternText(315) == PatternText(262) { }
  lemma Line316RepeatsLine264() ensures PatternText(316) == PatternText(264) { }
  lemma Line547RepeatsLine146() ensures PatternText(547) == PatternText(146) { }
  lemma Line549RepeatsLine212() ensures PatternText(549) == PatternText(212) { }
  lemma Line550RepeatsLine213() ensures PatternText(550) == PatternText(213) { }

  /** The pattern text written at each line of the service that holds one. */
  function PatternText(line: nat): string
  {
    match line
    case 140 => @"<meta\s+property=[""']og:title[""']\s+content=[""']([^""']+)[""']"
    case 146 => @"<meta\s+property=[""']og:image[""']\s+content=[""']([^""']+)[""']"
    case 152 => @"<meta\s+property=[""']og:description[""']\s+content=[""']([^""']+)[""']"
    case 162 => @"<script\s+type=[""']application/ld\+json[""']>(.*?)</script>"
    case 171 => @"""name""\s*:\s*[""']([^""']+)[""']"
    case 183 => @"""price""\s*:\s*[""']?(\d+\.?\d{0,2})[""']?"
    case 184 => @"""priceCurrency""\s*:\s*[""']?[^""']*[""']?\s*,\s*""price""\s*:\s*[""']?(\d+\.?\d{0,2})[""']?"
    case 185 => @"""lowPrice""\s*:\s*[""']?(\d+\.?\d{0,2})[""']?"
    case 186 => @"""highPrice""\s*:\s*[""']?(\d+\.?\d{0,2})[""']?"
    case 187 => @"""offers""\s*:\s*\{[^}]*""price""\s*:\s*[""']?(\d+\.?\d{0,2})[""']?"
    case 212 => @"""image""\s*:\s*[""']([^""']+)[""']"
    case 213 => @"""image""\s*:\s*\[[""']([^""']+)[""']"
    case 214 => @"""image""\s*:\s*\{[^}]*""url""\s*:\s*[""']([^""']+)[""']"
    case 215 => @"""image""\s*:\s*\[[^\]]*\{[^}]*""url""\s*:\s*[""']([^""']+)[""']"
    case 256 => @"""price""\s*:\s*[""']?\$?(\d+\.?\d{0,2})"
    case 257 => @"""priceCurrency""\s*:\s*[""']?[^""']*[""']?\s*,\s*""price""\s*:\s*[""']?(\d+\.?\d{0,2})"
    case 258 => @"""lowPrice""\s*:\s*[""']?(\d+\.?\d{0,2})"
    case 259 => @"""highPrice""\s*:\s*[""']?(\d+\.?\d{0,2})"
    case 260 => @"""price""\s*:\s*(\d+\.?\d{0,2})\s*,"
    case 262 => @"data-price=[""'](\d+\.?\d{0,2})[""']"
    case 263 => @"data-product-price=[""'](\d+\.?\d{0,2})[""']"
    case 264 => @"data-current-price=[""'](\d+\.?\d{0,2})[""']"
    case 265 => @"data-sale-price=[""'](\d+\.?\d{0,2})[""']"
    case 267 => @"<meta[^>]*property=[""']product:price:amount[""'][^>]*content=[""'](\d+\.?\d{0,2})[""']"
    case 268 => @"<meta[^>]*name=[""']price[""'][^>]*content=[""'](\d+\.?\d{0,2})[""']"
    case 277 => @"<span[^>]*id=[""']priceblock[^""']*[""'][^>]*>.*?\$(\d+\.?\d{0,2})"
    case 278 => @"<span[^>]*id=[""']priceblock[^""']*[""'][^>]*>.*?(\d+\.?\d{0,2})"
    case 279 => @"<span[^>]*class=[""'][^""']*a-price[^""']*[""'][^>]*>.*?\$(\d+\.?\d{0,2})"
    case 280 => @"<span[^>]*class=[""'][^""']*a-price[^""']*[""'][^>]*>.*?(\d+\.?\d{0,2})"
    case 281 => @"<span[^>]*class=[""'][^""']*a-offscreen[^""']*[""'][^>]*>\$(\d+\.?\d{0,2})"
    case 282 => @"<span[^>]*class=[""'][^""']*a-offscreen[^""']*[""'][^>]*>(\d+\.?\d{0,2})"
    case 283 => @"""price""\s*:\s*[""']?\$?(\d+\.?\d{0,2})"
    case 284 => @"""priceCurrency""\s*:\s*[""']?USD[""']?\s*,\s*""price""\s*:\s*[""']?(\d+\.?\d{0,2})"
    case 285 => @"priceToPay[^>]*>.*?\$(\d+\.?\d{0,2})"
    case 286 => @"priceToPay[^>]*>.*?(\d+\.?\d{0,2})"
    case 288 => @"""displayAmount""\s*:\s*[""']?\$(\d+\.?\d{0,2})"
    case 289 => @"""amount""\s*:\s*(\d+\.?\d{0,2})\s*,\s*""currency"""
    case 297 => @"""normalPrice""\s*:\s*[""']?(\d+\.?\d{0,2})"
    case 298 => @"""salePrice""\s*:\s*[""']?(\d+\.?\d{0,2})"
    case 299 => @"""price""\s*:\s*[""']?(\d+\.?\d{0,2})"
    case 300 => @"<span[^>]*class=[""'][^""']*price[^""']*[""'][^>]*>.*?(\d+\.?\d{0,2})"
    case 301 => @"data-price=[""'](\d+\.?\d{0,2})[""']"
    case 309 => @"""currentPrice""\s*:\s*[""']?(\d+\.?\d{0,2})"
    case 310 => @"""originalPrice""\s*:\s*[""']?(\d+\.?\d{0,2})"
    case 311 => @"""price""\s*:\s*[""']?(\d+\.?\d{0,2})"
    case 312 => @"""salePrice""\s*:\s*[""']?(\d+\.?\d{0,2})"
    case 313 => @"<span[^>]*class=[""'][^""']*price[^""']*[""'][^>]*>.*?\$?(\d+\.?\d{0,2})"
    case 314 => @"<span[^>]*class=[""'][^""']*current-price[^""']*[""'][^>]*>.*?\$?(\d+\.?\d{0,2})"
    case 315 => @"data-price=[""'](\d+\.?\d{0,2})[""']"
    case 316 => @"data-current-price=[""'](\d+\.?\d{0,2})[""']"
    case 318 => @"priceInfo[^}]*currentPrice[""']?\s*:\s*[""']?(\d+\.?\d{0,2})"
    case 325 => @"\$\s*(\d{1,6}\.?\d{0,2})\b"
    case 326 => @"(\d{1,6}\.\d{2})\s*USD"
    case 327 => @"(\d{1,6}\.\d{2})\s*\$"
    case 418 => @"\$\s*(\d{1,3}(?:[.,]\d{2})?)"
    case 419 => @"(\d{1,3}(?:[.,]\d{2})?)\s*USD"
    case 420 => @"(\d{1,3}(?:[.,]\d{2})?)\s*\$"
    case 421 => @"price[^>]*>.*?(\d{1,3}(?:[.,]\d{2})?)"
    case 422 => @"cost[^>]*>.*?(\d{1,3}(?:[.,]\d{2})?)"
    case 489 => @"<[^>]*>\s*\$?\s*(\d{1,6}\.?\d{0,2})\s*</[^>]*>"
    case 490 => @"<span[^>]*>\s*\$?\s*(\d{1,6}\.?\d{0,2})\s*</span>"
    case 491 => @"<div[^>]*>\s*\$?\s*(\d{1,6}\.?\d{0,2})\s*</div>"
    case 547 => @"<meta\s+property=[""']og:image[""']\s+content=[""']([^""']+)[""']"
    case 549 => @"""image""\s*:\s*[""']([^""']+)[""']"
    case 550 => @"""image""\s*:\s*\[[""']([^""']+)[""']"
    case 552 => @"<img[^>]*id=[""']landingImage[""'][^>]*src=[""']([^""']+)[""']"
    case 553 => @"<img[^>]*id=[""']landingImage[""'][^>]*data-src=[""']([^""']+)[""']"
    case 554 => @"<img[^>]*data-a-dynamic-image=[""']([^""']+)[""']"
    case 555 => @"<img[^>]*class=[""'][^""']*product-image[^""']*[""'][^>]*src=[""']([^""']+)[""']"
    case 556 => @"<img[^>]*class=[""'][^""']*product-image[^""']*[""'][^>]*data-src=[""']([^""']+)[""']"
    case 557 => @"<img[^>]*class=[""'][^""']*main-image[^""']*[""'][^>]*src=[""']([^""']+)[""']"
    case 558 => @"<img[^>]*class=[""'][^""']*main-image[^""']*[""'][^>]*data-src=[""']([^""']+)[""']"
    case 560 => @"data-src=[""']([^""']+\.(jpg|jpeg|png|webp|gif))[""']"
    case 561 => @"data-lazy-src=[""']([^""']+\.(jpg|jpeg|png|webp|gif))[""']"
    case 562 => @"data-original=[""']([^""']+\.(jpg|jpeg|png|webp|gif))[""']"
    case 564 => @"<img[^>]*src=[""']([^""']+\.(jpg|jpeg|png|webp|gif))[""']"
    case 571 => @"<base[^>]*href=[""']([^""']+)[""']"
    case 649 => @"<title>(.*?)</title>"
    case 650 => @"<h1[^>]*class=[""'][^""']*product[^""']*title[^""']*[""'][^>]*>(.*?)</h1>"
    case 651 => @"<h1[^>]*>(.*?)</h1>"
    case _ => ""
  }
}
