/** `ProductDataFetcherService`: the service fills a `ProductDetailsDto` in
    place, stage after stage, each stage a loop over its patterns and their
    matches. Every method here is proved to leave the DTO in exactly the state
    that the corresponding function of module ExtractionSpec describes, so the
    properties proved there hold of what the service returns.
    Line numbers refer to Server/Services/ProductDataFetcherService.cs. */
module ProductDataFetcher {
  import opened Wrappers
  import opened Text
  import opened Grouping
  import opened Money
  import opened Sequences
  import opened Provider
  import opened Patterns
  import opened ExtractionSpec

  /** `ProductDetailsDto`, whose properties the stages assign. */
  class ProductDetailsDto {
    var nombre: string
    var descripcion: Option<string>
    var precio: Cents
    var proveedor: string
    var urlImagen: string

    /** The object initializer of lines 35-42. */
    constructor (proveedor: string)
      ensures Snapshot() == Details(DefaultName, None, 0, proveedor, "")
    {
      this.nombre := DefaultName;
      this.descripcion := None;
      this.precio := 0;
      this.proveedor := proveedor;
      this.urlImagen := "";
    }

    /** The current values of the five properties. */
    function Snapshot(): Details
      reads this
    {
      Details(nombre, descripcion, precio, proveedor, urlImagen)
    }
  }

  /** `ExtractOpenGraphData` (lines 137-157). */
  method ExtractOpenGraphData(lib: Library, html: string, dto: ProductDetailsDto)
    modifies dto
    ensures dto.Snapshot() == OgStage(lib, html, old(dto.Snapshot()))
  {
    var ogTitleMatch := FirstMatch(lib, html, OgTitle);
    if ogTitleMatch.Some? && IsBlank(dto.nombre) {
      dto.nombre := lib.htmlDecode(ogTitleMatch.value);
    }
    var ogImageMatch := FirstMatch(lib, html, OgImage);
    if ogImageMatch.Some? && IsBlank(dto.urlImagen) {
      dto.urlImagen := ogImageMatch.value;
    }
    var ogDescriptionMatch := FirstMatch(lib, html, OgDescription);
    if ogDescriptionMatch.Some? && IsBlankOrNull(dto.descripcion) {
      dto.descripcion := Some(lib.htmlDecode(ogDescriptionMatch.value));
    }
  }

  /** The price search inside one JSON-LD block (lines 188-205): the first
      pattern whose first match, trimmed and without commas, parses to a
      positive amount gives the price. */
  method FindJsonLdPrice(lib: Library, json: string, pats: seq<Regex>) returns (price: Option<Cents>)
    ensures price == JsonLdPrice(lib, json, pats)
  {
    ghost var xs := JsonLdPrices(lib, json, pats);
    for i := 0 to |pats|
      invariant forall k :: 0 <= k < i ==> xs[k].None?
    {
      var priceMatch := FirstMatch(lib, json, pats[i]);
      if priceMatch.Some? {
        var priceStr := Replace(Trim(priceMatch.value), ",", "");
        price := ParseCents(priceStr);
        if price.Some? && price.value > 0 {
          FirstSomeIsFirst(xs, i);
          return;
        }
      }
      assert xs[i].None?;
    }
    FirstSomeNone(xs);
    return None;
  }

  /** The image search inside one JSON-LD block (lines 211-234): the first
      pattern whose first match, trimmed and cleaned, is acceptable gives the
      image. */
  method FindJsonLdImage(lib: Library, json: string, pats: seq<Regex>) returns (image: Option<string>)
    ensures image == JsonLdImage(lib, json, pats)
  {
    ghost var xs := JsonLdImages(lib, json, pats);
    for i := 0 to |pats|
      invariant forall k :: 0 <= k < i ==> xs[k].None?
    {
      var imageMatch := FirstMatch(lib, json, pats[i]);
      if imageMatch.Some? {
        var imageUrl := Trim(imageMatch.value);
        imageUrl := CleanUrl(imageUrl);
        if !IsBlank(imageUrl) && (Contains(imageUrl, "http") || Contains(imageUrl, ".jpg") || Contains(imageUrl, ".png")) {
          FirstSomeIsFirst(xs, i);
          return Some(imageUrl);
        }
      }
      assert xs[i].None?;
    }
    FirstSomeNone(xs);
    return None;
  }

  /** The body of the loop of `ExtractJsonLdData` (lines 166-235): one
      block may set the name, the price and the image, each only while it is
      unset. */
  method ExtractJsonLdBlock(lib: Library, jsonContent: string, dto: ProductDetailsDto)
    modifies dto
    ensures dto.Snapshot() == JsonLdBlock(lib, jsonContent, old(dto.Snapshot()))
  {
    if IsBlank(dto.nombre) {
      var nameMatch := FirstMatch(lib, jsonContent, JsonLdName);
      if nameMatch.Some? {
        dto.nombre := lib.htmlDecode(nameMatch.value);
      }
    }
    if dto.precio == 0 {
      var price := FindJsonLdPrice(lib, jsonContent, JsonLdPricePatterns);
      if price.Some? {
        dto.precio := price.value;
      }
    }
    if IsBlank(dto.urlImagen) {
      var image := FindJsonLdImage(lib, jsonContent, JsonLdImagePatterns);
      if image.Some? {
        dto.urlImagen := image.value;
      }
    }
  }

  /** `ExtractJsonLdData` (lines 159-237): the `application/ld+json` blocks
      in page order. */
  method ExtractJsonLdData(lib: Library, html: string, dto: ProductDetailsDto)
    modifies dto
    ensures dto.Snapshot() == JsonLdStage(lib, html, old(dto.Snapshot()))
  {
    var blocks := lib.matches(html, JsonLdScript);
    for k := 0 to |blocks|
      invariant JsonLdBlocks(lib, blocks[k..], dto.Snapshot()) == JsonLdStage(lib, html, old(dto.Snapshot()))
    {
      ExtractJsonLdBlock(lib, blocks[k], dto);
      assert blocks[k..][1..] == blocks[k + 1..];
    }
  }

  /** The loop over one price pattern's matches (lines 339-355, 500-510,
      429-456): each captured text is cleaned the tier's way and kept when it
      parses into the tier's range. */
  method CollectFromMatches(tier: Tier, matches: seq<string>) returns (found: seq<Cents>)
    ensures found == CapturePrices(tier, matches)
  {
    ghost var cs := CaptureCandidates(tier, matches);
    found := [];
    for j := 0 to |matches|
      invariant found == Somes(cs[..j])
    {
      var price := ParseCents(Normalize(tier, matches[j]));
      assert cs[..j + 1][..j] == cs[..j];
      if price.Some? && Admits(tier, price.value) {
        found := found + [price.value];
      }
    }
    assert cs[..|matches|] == cs;
  }

  /** The collection loop of a price tier (lines 331-361, 494-512, 425-460):
      every pattern in order, and for each its matches in order. */
  method CollectPrices(lib: Library, html: string, tier: Tier, pats: seq<Regex>) returns (found: seq<Cents>)
    ensures found == TierCandidates(lib, html, tier, pats)
  {
    ghost var xss := PatternPrices(lib, html, tier, pats);
    found := [];
    for i := 0 to |pats|
      invariant found == Flatten(xss[..i])
    {
      var prices := CollectFromMatches(tier, lib.matches(html, pats[i]));
      found := found + prices;
      assert xss[..i + 1][..i] == xss[..i];
    }
    assert xss[..|pats|] == xss;
  }

  /** The vote that ends a tier: keep the collected amounts in the tier's
      second range and take the most frequent one, ties going to the amount
      collected first (lines 364-385, 514-526, 462-480). */
  method ChooseTierPrice(lib: Library, html: string, tier: Tier, pats: seq<Regex>) returns (price: Option<Cents>)
    ensures price == TierPrice(lib, html, tier, pats)
  {
    var found := CollectPrices(lib, html, tier, pats);
    price := None;
    if |found| > 0 {
      var valid := Within(found, KeepLow(tier), KeepHigh(tier));
      if |valid| > 0 {
        price := Some(Mode(valid));
      }
    } else {
      assert Within(found, KeepLow(tier), KeepHigh(tier)) == [];
    }
  }

  /** `ExtractPriceFromVisibleText` (lines 484-528): sets the price only when
      the visible-text tier keeps an amount. */
  method ExtractPriceFromVisibleText(lib: Library, html: string, dto: ProductDetailsDto)
    modifies dto
    ensures var before := old(dto.Snapshot());
      match TierPrice(lib, html, Visible, VisiblePricePatterns)
      case Some(p) => dto.Snapshot() == before.(precio := p)
      case None => dto.Snapshot() == before
  {
    var price := ChooseTierPrice(lib, html, Visible, VisiblePricePatterns);
    if price.Some? {
      dto.precio := price.value;
    }
  }

  /** `ExtractPriceAggressive` (lines 412-482): sets the price only when the
      aggressive tier keeps an amount. */
  method ExtractPriceAggressive(lib: Library, html: string, dto: ProductDetailsDto)
    modifies dto
    ensures var before := old(dto.Snapshot());
      match TierPrice(lib, html, Aggressive, AggressivePricePatterns)
      case Some(p) => dto.Snapshot() == before.(precio := p)
      case None => dto.Snapshot() == before
  {
    var price := ChooseTierPrice(lib, html, Aggressive, AggressivePricePatterns);
    if price.Some? {
      dto.precio := price.value;
    }
  }

  /** `ExtractPriceFromHtml` (lines 239-410): nothing when a price is set;
      otherwise the main tier over the provider's list, then the visible-text
      tier and the aggressive tier while the price is still 0. */
  method ExtractPriceFromHtml(lib: Library, html: string, dto: ProductDetailsDto, proveedor: string)
    modifies dto
    ensures dto.Snapshot() == PriceStage(lib, html, proveedor, old(dto.Snapshot()))
  {
    if dto.precio != 0 {
      return;
    }
    var price := ChooseTierPrice(lib, html, Main, PricePatterns(proveedor));
    if price.Some? {
      dto.precio := price.value;
      return;
    }
    if dto.precio == 0 {
      ExtractPriceFromVisibleText(lib, html, dto);
    }
    if dto.precio == 0 {
      ExtractPriceAggressive(lib, html, dto);
    }
  }

  /** The loop over one image pattern's matches (lines 583-631): each
      captured URL is trimmed and cleaned, made absolute where it can be, and
      the first one that passes the acceptance test is the result. A `new Uri`
      that throws abandons the rest of the matches (the exception is caught
      per pattern, lines 633-636). */
  method FindImageAmong(lib: Library, baseUrl: string, matches: seq<string>) returns (image: Option<string>)
    ensures image == ImageAmong(lib, baseUrl, matches)
  {
    ghost var rs := Resolutions(lib, baseUrl, matches);
    for j := 0 to |matches|
      invariant FirstAccepted(rs[j..]) == FirstAccepted(rs)
    {
      assert rs[j..][1..] == rs[j + 1..];
      var imageUrl := Trim(matches[j]);
      imageUrl := CleanUrl(imageUrl);
      if !StartsWithIgnoreCase(imageUrl, "http") {
        if StartsWith(imageUrl, "//") {
          imageUrl := "https:" + imageUrl;
        } else if StartsWith(imageUrl, "/") {
          if baseUrl != "" {
            var uri := lib.parseUri(baseUrl);
            if uri.None? {
              return None;
            }
            imageUrl := uri.value.scheme + "://" + uri.value.host + imageUrl;
          } else {
            continue;
          }
        } else {
          continue;
        }
      }
      if LooksLikeImage(imageUrl) {
        return Some(imageUrl);
      }
    }
    return None;
  }

  /** The loop over the image patterns (lines 579-637): the first pattern
      that yields an accepted URL decides. */
  method FindImage(lib: Library, html: string, baseUrl: string, pats: seq<Regex>) returns (image: Option<string>)
    ensures image == FirstImage(lib, html, baseUrl, pats)
  {
    ghost var xs := PatternImages(lib, html, baseUrl, pats);
    for i := 0 to |pats|
      invariant forall k :: 0 <= k < i ==> xs[k].None?
    {
      image := FindImageAmong(lib, baseUrl, lib.matches(html, pats[i]));
      assert xs[i] == image;
      if image.Some? {
        FirstSomeIsFirst(xs, i);
        return;
      }
    }
    FirstSomeNone(xs);
    return None;
  }

  /** `ExtractImageFromHtml` (lines 530-640): nothing when an image is set;
      otherwise the page's `<base href>` is read (lines 567-577) and the
      image found, if any, is stored. */
  method ExtractImageFromHtml(lib: Library, html: string, dto: ProductDetailsDto)
    modifies dto
    ensures dto.Snapshot() == ImageStage(lib, html, old(dto.Snapshot()))
  {
    if !IsBlank(dto.urlImagen) {
      return;
    }
    var baseUrl := "";
    var urlMatch := FirstMatch(lib, html, BaseHref);
    if urlMatch.Some? {
      baseUrl := urlMatch.value;
    }
    var image := FindImage(lib, html, baseUrl, ImagePatterns);
    if image.Some? {
      dto.urlImagen := image.value;
    }
  }

  /** The search loop of `ExtractTitleFromHtml` (lines 654-665): the first
      pattern whose first match, decoded, is not blank and longer than three
      code units gives the title, trimmed. */
  method FindTitle(lib: Library, html: string, pats: seq<Regex>) returns (title: Option<string>)
    ensures title == TitleFrom(lib, html, pats)
  {
    ghost var xs := PatternTitles(lib, html, pats);
    for i := 0 to |pats|
      invariant forall k :: 0 <= k < i ==> xs[k].None?
    {
      var m := FirstMatch(lib, html, pats[i]);
      if m.Some? {
        var decoded := lib.htmlDecode(m.value);
        if !IsBlank(decoded) && Utf16Length(decoded) > 3 {
          FirstSomeIsFirst(xs, i);
          return Some(Trim(decoded));
        }
      }
      assert xs[i].None?;
    }
    FirstSomeNone(xs);
    return None;
  }

  /** `ExtractTitleFromHtml` (lines 642-667): nothing when a name other than
      "Producto" is set; otherwise the title found, if any, becomes the name. */
  method ExtractTitleFromHtml(lib: Library, html: string, dto: ProductDetailsDto)
    modifies dto
    ensures dto.Snapshot() == TitleStage(lib, html, old(dto.Snapshot()))
  {
    if !IsBlank(dto.nombre) && dto.nombre != DefaultName {
      return;
    }
    var title := FindTitle(lib, html, TitlePatterns);
    if title.Some? {
      dto.nombre := title.value;
    }
  }

  /** How `FetchDetailsAsync` ends: the `ArgumentException` thrown for a blank
      URL, or the details it returns. */
  datatype Outcome = ArgumentException | Returned(dto: ProductDetailsDto)

  /** `FetchDetailsAsync` (lines 27-93). `fetch` stands for `FetchHtmlAsync`:
      the page at a URL, or None when the request failed. `requested` lists
      the URLs fetched: none for a blank URL, which is rejected before any
      request (lines 29-32). */
  method FetchDetails(lib: Library, fetch: string -> Option<string>, affiliateUrl: string)
    returns (outcome: Outcome, requested: seq<string>)
    ensures IsBlank(affiliateUrl) <==> outcome == ArgumentException
    ensures IsBlank(affiliateUrl) ==> requested == []
    ensures !IsBlank(affiliateUrl) ==> requested == [affiliateUrl]
    ensures outcome.Returned? ==>
      fresh(outcome.dto) && outcome.dto.Snapshot() == Extract(lib, InferProvider(affiliateUrl), fetch(affiliateUrl))
  {
    if IsBlank(affiliateUrl) {
      return ArgumentException, [];
    }
    var proveedor := InferProvider(affiliateUrl);
    var dto := new ProductDetailsDto(proveedor.Name());
    assert dto.Snapshot() == Initial(proveedor);
    var html := fetch(affiliateUrl);
    requested := [affiliateUrl];
    if html.Some? && html.value != "" {
      var page := html.value;
      ExtractJsonLdData(lib, page, dto);
      ExtractOpenGraphData(lib, page, dto);
      ExtractPriceFromHtml(lib, page, dto, proveedor.Name());
      ExtractImageFromHtml(lib, page, dto);
      ExtractTitleFromHtml(lib, page, dto);
    }
    ApplyDefaults(dto, proveedor);
    outcome := Returned(dto);
  }

  /** The defaults at the end of `FetchDetailsAsync` (lines 74-90): a blank
      name or "Producto" becomes "Producto de <provider>", a zero price is
      left for manual entry, and a blank image becomes the placeholder. */
  method ApplyDefaults(dto: ProductDetailsDto, proveedor: Provider)
    modifies dto
    ensures dto.Snapshot() == Finalize(proveedor, old(dto.Snapshot()))
  {
    if IsBlank(dto.nombre) || dto.nombre == DefaultName {
      dto.nombre := "Producto de " + proveedor.Name();
    }
    if dto.precio == 0 {
      dto.precio := 0;
    }
    if IsBlank(dto.urlImagen) {
      dto.urlImagen := PlaceholderImage;
    }
  }
}
