/** What each stage of `ProductDataFetcherService.FetchDetailsAsync` does to
    the product details, as functions of the page and of the details before the
    stage, and the properties the pipeline promises, as lemmas. The methods in
    module ProductDataFetcher are proved to compute exactly these functions.
    Line numbers refer to Server/Services/ProductDataFetcherService.cs. */
module ExtractionSpec {
  import opened Wrappers
  import opened Text
  import opened Grouping
  import opened Money
  import opened Sequences
  import opened Provider
  import opened Patterns

  /** The fields of `ProductDetailsDto`; `precio` in cents. */
  datatype Details = Details(
    nombre: string,
    descripcion: Option<string>,
    precio: Cents,
    proveedor: string,
    urlImagen: string)

  /** The name the service starts with, which the title stage treats as unset. */
  const DefaultName := "Producto"

  /** The image URL used when none was found (line 89). */
  const PlaceholderImage := "https://via.placeholder.com/400x400?text=Imagen+No+Disponible"

  /** The details before any stage has run (lines 35-42). */
  function Initial(p: Provider): Details
  {
    Details(DefaultName, None, 0, p.Name(), "")
  }

  /** `string.IsNullOrWhiteSpace` on a nullable string. */
  predicate IsBlankOrNull(s: Option<string>)
  {
    s.None? || IsBlank(s.value)
  }

  /** The URL clean-up `Replace("\\/", "/").Replace("\\\"", "")`: JSON-escaped
      slashes become slashes and escaped quotes disappear. */
  function CleanUrl(s: string): string
  {
    Replace(Replace(s, "\\/", "/"), "\\\"", "")
  }

  // ---------------------------------------------------------------------
  // JSON-LD (ExtractJsonLdData, lines 159-237)

  /** What one JSON-LD price pattern yields: its first match, trimmed and
      without commas, when that parses to a positive amount (lines 192-196). */
  function JsonLdPriceFrom(lib: Library, json: string, r: Regex): Option<Cents>
  {
    match FirstMatch(lib, json, r)
    case Some(c) =>
      var p := ParseCents(Replace(Trim(c), ",", ""));
      if p.Some? && p.value > 0 then p else None
    case None => None
  }

  /** The first JSON-LD price pattern that yields a price wins (lines 190-204). */
  function JsonLdPrice(lib: Library, json: string, pats: seq<Regex>): (r: Option<Cents>)
    ensures r.Some? ==> 0 < r.value <= MaxDecimalCents
  {
    FirstSome(JsonLdPrices(lib, json, pats))
  }

  /** What each JSON-LD price pattern yields, pattern by pattern. */
  function JsonLdPrices(lib: Library, json: string, pats: seq<Regex>): (xs: seq<Option<Cents>>)
    ensures |xs| == |pats|
  {
    seq(|pats|, i requires 0 <= i < |pats| => JsonLdPriceFrom(lib, json, pats[i]))
  }

  /** The acceptance test of a JSON-LD image (lines 226-227): not blank, and
      containing "http", ".jpg" or ".png" (ordinal, case-sensitive). */
  predicate JsonLdImageAcceptable(u: string)
  {
    !IsBlank(u) && (Contains(u, "http") || Contains(u, ".jpg") || Contains(u, ".png"))
  }

  /** What one JSON-LD image pattern yields: its first match, trimmed and
      cleaned, when that is acceptable (lines 220-227). */
  function JsonLdImageFrom(lib: Library, json: string, r: Regex): Option<string>
  {
    match FirstMatch(lib, json, r)
    case Some(c) =>
      var u := CleanUrl(Trim(c));
      if JsonLdImageAcceptable(u) then Some(u) else None
    case None => None
  }

  /** The first JSON-LD image pattern that yields an image wins (lines 218-234). */
  function JsonLdImage(lib: Library, json: string, pats: seq<Regex>): (r: Option<string>)
    ensures r.Some? ==> JsonLdImageAcceptable(r.value)
  {
    FirstSome(JsonLdImages(lib, json, pats))
  }

  /** What each JSON-LD image pattern yields, pattern by pattern. */
  function JsonLdImages(lib: Library, json: string, pats: seq<Regex>): (xs: seq<Option<string>>)
    ensures |xs| == |pats|
  {
    seq(|pats|, i requires 0 <= i < |pats| => JsonLdImageFrom(lib, json, pats[i]))
  }

  /** One JSON-LD block: the name, the price and the image, each written only
      while it is still unset (lines 166-235). */
  function JsonLdBlock(lib: Library, json: string, d: Details): Details
  {
    var d1 :=
      if !IsBlank(d.nombre) then d
      else match FirstMatch(lib, json, JsonLdName)
        case Some(c) => d.(nombre := lib.htmlDecode(c))
        case None => d;
    var d2 :=
      if d1.precio != 0 then d1
      else match JsonLdPrice(lib, json, JsonLdPricePatterns)
        case Some(p) => d1.(precio := p)
        case None => d1;
    if !IsBlank(d2.urlImagen) then d2
    else match JsonLdImage(lib, json, JsonLdImagePatterns)
      case Some(u) => d2.(urlImagen := u)
      case None => d2
  }

  /** The blocks, in page order. */
  function JsonLdBlocks(lib: Library, blocks: seq<string>, d: Details): Details
  {
    if blocks == [] then d else JsonLdBlocks(lib, blocks[1..], JsonLdBlock(lib, blocks[0], d))
  }

  function JsonLdStage(lib: Library, html: string, d: Details): Details
  {
    JsonLdBlocks(lib, lib.matches(html, JsonLdScript), d)
  }

  /** A JSON-LD block never overwrites a field that is already set, never
      touches the description or the provider, and only ever sets a positive
      price. */
  lemma JsonLdBlockKeepsSetFields(lib: Library, json: string, d: Details)
    ensures var r := JsonLdBlock(lib, json, d);
      && (!IsBlank(d.nombre) ==> r.nombre == d.nombre)
      && (d.precio != 0 ==> r.precio == d.precio)
      && (r.precio != d.precio ==> 0 < r.precio <= MaxDecimalCents)
      && (!IsBlank(d.urlImagen) ==> r.urlImagen == d.urlImagen)
      && r.descripcion == d.descripcion && r.proveedor == d.proveedor
  {
  }

  /** The whole JSON-LD stage writes only unset fields (lines 169, 179, 208):
      a name, price or image that is set before the stage is set to the same
      value after it. */
  lemma {:induction false} JsonLdStageKeepsSetFields(lib: Library, blocks: seq<string>, d: Details)
    ensures var r := JsonLdBlocks(lib, blocks, d);
      && (!IsBlank(d.nombre) ==> r.nombre == d.nombre)
      && (d.precio != 0 ==> r.precio == d.precio)
      && (r.precio != d.precio ==> 0 < r.precio <= MaxDecimalCents)
      && (!IsBlank(d.urlImagen) ==> r.urlImagen == d.urlImagen)
      && r.descripcion == d.descripcion && r.proveedor == d.proveedor
  {
    if blocks != [] {
      JsonLdBlockKeepsSetFields(lib, blocks[0], d);
      JsonLdStageKeepsSetFields(lib, blocks[1..], JsonLdBlock(lib, blocks[0], d));
    }
  }

  // ---------------------------------------------------------------------
  // Open Graph (ExtractOpenGraphData, lines 137-157)

  function OgStage(lib: Library, html: string, d: Details): Details
  {
    var title := FirstMatch(lib, html, OgTitle);
    var d1 := if title.Some? && IsBlank(d.nombre) then d.(nombre := lib.htmlDecode(title.value)) else d;
    var image := FirstMatch(lib, html, OgImage);
    var d2 := if image.Some? && IsBlank(d1.urlImagen) then d1.(urlImagen := image.value) else d1;
    var description := FirstMatch(lib, html, OgDescription);
    if description.Some? && IsBlankOrNull(d2.descripcion)
    then d2.(descripcion := Some(lib.htmlDecode(description.value)))
    else d2
  }

  /** The Open Graph stage writes only unset fields (lines 141, 147, 153) and
      never touches the price or the provider. */
  lemma OgStageKeepsSetFields(lib: Library, html: string, d: Details)
    ensures var r := OgStage(lib, html, d);
      && (!IsBlank(d.nombre) ==> r.nombre == d.nombre)
      && (!IsBlank(d.urlImagen) ==> r.urlImagen == d.urlImagen)
      && (!IsBlankOrNull(d.descripcion) ==> r.descripcion == d.descripcion)
      && r.precio == d.precio && r.proveedor == d.proveedor
  {
  }

  /** Each Open Graph field that was unset and whose tag is on the page takes
      the tag's value: the image as captured, title and description decoded. */
  lemma OgStageFillsUnsetFields(lib: Library, html: string, d: Details)
    ensures var r := OgStage(lib, html, d);
      && (IsBlank(d.nombre) && FirstMatch(lib, html, OgTitle).Some? ==>
            r.nombre == lib.htmlDecode(FirstMatch(lib, html, OgTitle).value))
      && (IsBlank(d.urlImagen) && FirstMatch(lib, html, OgImage).Some? ==>
            r.urlImagen == FirstMatch(lib, html, OgImage).value)
      && (IsBlankOrNull(d.descripcion) && FirstMatch(lib, html, OgDescription).Some? ==>
            r.descripcion == Some(lib.htmlDecode(FirstMatch(lib, html, OgDescription).value)))
  {
  }

  // ---------------------------------------------------------------------
  // Price tiers (ExtractPriceFromHtml, ExtractPriceFromVisibleText,
  // ExtractPriceAggressive, lines 239-528)

  /** The three price tiers, in the order the service tries them. */
  datatype Tier = Main | Visible | Aggressive

  /** How a tier cleans a captured string before parsing it: the main tier
      drops commas and apostrophes (line 346), the visible-text tier drops
      commas (line 503), the aggressive tier turns commas into points and drops
      apostrophes (lines 436-438). The aggressive tier's second comma
      replacement (lines 441-444) is kept as written; it can never apply. */
  function Normalize(tier: Tier, capture: string): string
  {
    match tier
    case Main => Replace(Replace(Trim(capture), ",", ""), "'", "")
    case Visible => Replace(Trim(capture), ",", "")
    case Aggressive =>
      var s := Replace(Replace(Trim(capture), ",", "."), "'", "");
      if Contains(s, ",") && !Contains(s, ".") then Replace(s, ",", ".") else s
  }

  /** The aggressive tier's second comma replacement (lines 441-444) never
      fires: the replacement at line 437 has already turned every comma into
      a point, so the cleaned capture is what the first two replacements
      make of it. */
  lemma AggressiveCommaBranchNeverApplies(capture: string)
    ensures var s := Replace(Replace(Trim(capture), ",", "."), "'", "");
      !Contains(s, ",") && Normalize(Aggressive, capture) == s
  {
    var s1 := Replace(Trim(capture), ",", ".");
    ReplaceDropsChar(Trim(capture), ',', ".");
    ReplaceKeepsCharOut(s1, "'", "", ',');
    MissingCharNotContained(Replace(s1, "'", ""), ",", ',');
  }

  /** The range an amount must be in for a tier to collect it: (0, 1000000)
      for the main tier (line 349), [0.01, 100000] for visible text (line
      506), [0.50, 50000] for the aggressive tier (line 448). */
  predicate Admits(tier: Tier, c: Cents)
  {
    match tier
    case Main => 0 < c < 100000000
    case Visible => 1 <= c <= 10000000
    case Aggressive => 50 <= c <= 5000000
  }

  /** The range a collected amount must be in to take part in the vote:
      [0.01, 100000] (line 369), [1, 50000] (line 517), [1, 10000] (line 466). */
  function KeepLow(tier: Tier): Cents
  {
    match tier
    case Main => 1
    case Visible => 100
    case Aggressive => 100
  }

  function KeepHigh(tier: Tier): Cents
  {
    match tier
    case Main => 10000000
    case Visible => 5000000
    case Aggressive => 1000000
  }

  /** The amount a tier collects from one capture, if any. */
  function Candidate(tier: Tier, capture: string): (r: Option<Cents>)
    ensures r.Some? ==> Admits(tier, r.value)
  {
    var p := ParseCents(Normalize(tier, capture));
    if p.Some? && Admits(tier, p.value) then p else None
  }

  /** What each capture of one pattern yields, in match order. */
  function CaptureCandidates(tier: Tier, captures: seq<string>): (cs: seq<Option<Cents>>)
    ensures |cs| == |captures|
    ensures forall j :: 0 <= j < |cs| ==> cs[j] == Candidate(tier, captures[j])
  {
    seq(|captures|, j requires 0 <= j < |captures| => Candidate(tier, captures[j]))
  }

  /** The amounts a tier collects from the captures of one pattern, in match
      order. */
  function CapturePrices(tier: Tier, captures: seq<string>): seq<Cents>
  {
    Somes(CaptureCandidates(tier, captures))
  }

  /** The amounts a tier collects over a list of patterns: pattern order, then
      match order (lines 331-361, 494-512, 425-460). */
  function TierCandidates(lib: Library, html: string, tier: Tier, pats: seq<Regex>): seq<Cents>
  {
    Flatten(PatternPrices(lib, html, tier, pats))
  }

  /** The amounts collected from each pattern, pattern by pattern. */
  function PatternPrices(lib: Library, html: string, tier: Tier, pats: seq<Regex>): (xss: seq<seq<Cents>>)
    ensures |xss| == |pats|
  {
    seq(|pats|, i requires 0 <= i < |pats| => CapturePrices(tier, lib.matches(html, pats[i])))
  }

  /** Every amount collected from one pattern is in the tier's range. */
  lemma CapturePricesAdmitted(tier: Tier, captures: seq<string>, p: Cents)
    requires p in CapturePrices(tier, captures)
    ensures Admits(tier, p)
  {
    var xs := CaptureCandidates(tier, captures);
    SomesFrom(xs, p);
    var j :| 0 <= j < |xs| && xs[j] == Some(p);
  }

  /** Every amount a tier collects is in the tier's collection range. */
  lemma TierCandidatesAdmitted(lib: Library, html: string, tier: Tier, pats: seq<Regex>, p: Cents)
    requires p in TierCandidates(lib, html, tier, pats)
    ensures Admits(tier, p)
  {
    var xss := PatternPrices(lib, html, tier, pats);
    FlattenFrom(xss, p);
    var i :| 0 <= i < |xss| && p in xss[i];
    CapturePricesAdmitted(tier, lib.matches(html, pats[i]), p);
  }

  /** LINQ `Where(p => lo <= p && p <= hi)`: the amounts in the range, in
      order. */
  function Within(xs: seq<Cents>, lo: Cents, hi: Cents): (r: seq<Cents>)
    ensures forall p: Cents :: p in r ==> lo <= p <= hi
  {
    if xs == [] then []
    else
      var n := |xs| - 1;
      Within(xs[..n], lo, hi) + (if lo <= xs[n] <= hi then [xs[n]] else [])
  }

  /** Filtering keeps every occurrence of every amount in the range. */
  lemma {:induction false} WithinCount(xs: seq<Cents>, lo: Cents, hi: Cents, p: Cents)
    requires lo <= p <= hi
    ensures Count(Within(xs, lo, hi), p) == Count(xs, p)
  {
    if xs != [] {
      var n := |xs| - 1;
      var kept := Within(xs[..n], lo, hi);
      WithinCount(xs[..n], lo, hi, p);
      if lo <= xs[n] <= hi {
        assert Within(xs, lo, hi) == kept + [xs[n]];
        assert (kept + [xs[n]])[..|kept|] == kept;
      } else {
        assert Within(xs, lo, hi) == kept;
      }
    }
  }

  /** A tier's pick: the most frequent kept amount, ties going to the amount
      seen first (lines 369-385, 517-526, 465-480); None when nothing is kept. */
  function TierPrice(lib: Library, html: string, tier: Tier, pats: seq<Regex>): Option<Cents>
  {
    var kept := Within(TierCandidates(lib, html, tier, pats), KeepLow(tier), KeepHigh(tier));
    if |kept| > 0 then Some(Mode(kept)) else None
  }

  /** The price stage (lines 239-410): nothing when a price is set; otherwise
      the main tier over the provider's pattern list, then the visible-text
      tier, then the aggressive tier, each only while the price is still 0. */
  function PriceStage(lib: Library, html: string, proveedor: string, d: Details): Details
  {
    if d.precio != 0 then d
    else
      match TierPrice(lib, html, Main, PricePatterns(proveedor))
      case Some(p) => d.(precio := p)
      case None =>
        match TierPrice(lib, html, Visible, VisiblePricePatterns)
        case Some(p) => d.(precio := p)
        case None =>
          match TierPrice(lib, html, Aggressive, AggressivePricePatterns)
          case Some(p) => d.(precio := p)
          case None => d
  }

  /** A tier's pick is one of the amounts it collected, lies in both of the
      tier's ranges, is at least as frequent among the kept amounts as any
      other kept amount, and among equally frequent ones is seen first. */
  lemma TierPriceIsMostFrequent(lib: Library, html: string, tier: Tier, pats: seq<Regex>)
    ensures var all := TierCandidates(lib, html, tier, pats);
      var kept := Within(all, KeepLow(tier), KeepHigh(tier));
      match TierPrice(lib, html, tier, pats)
      case None => forall q: Cents :: q in all ==> !(KeepLow(tier) <= q <= KeepHigh(tier))
      case Some(p) =>
        && p in all && Admits(tier, p) && KeepLow(tier) <= p <= KeepHigh(tier)
        && (forall q: Cents :: KeepLow(tier) <= q <= KeepHigh(tier) ==> Count(all, q) <= Count(all, p))
        && (forall q: Cents :: q in kept && Count(kept, q) == Count(kept, p) ==> FirstIndex(kept, p) <= FirstIndex(kept, q))
  {
    var all := TierCandidates(lib, html, tier, pats);
    var lo, hi := KeepLow(tier), KeepHigh(tier);
    var kept := Within(all, lo, hi);
    if |kept| > 0 {
      var p := Mode(kept);
      WithinCount(all, lo, hi, p);
      CountPositive(kept, p);
      CountPositive(all, p);
      TierCandidatesAdmitted(lib, html, tier, pats, p);
      assert forall q: Cents :: lo <= q <= hi ==> Count(all, q) <= Count(all, p) by {
        forall q: Cents | lo <= q <= hi ensures Count(all, q) <= Count(all, p) {
          WithinCount(all, lo, hi, q);
          CountPositive(kept, q);
          if q in kept {
            assert Count(kept, q) <= Count(kept, p);
          }
        }
      }
    } else {
      forall q: Cents | q in all ensures !(lo <= q <= hi) {
        if lo <= q <= hi {
          WithinCount(all, lo, hi, q);
          CountPositive(all, q);
          CountPositive(kept, q);
        }
      }
    }
  }

  /** The price stage leaves a set price alone and changes nothing but the
      price (line 241); from an unset price it ends with 0 ("needs manual
      entry", line 81) or with an amount in [0.01, 100000]. */
  lemma PriceStageWritesOnlyUnsetPrice(lib: Library, html: string, proveedor: string, d: Details)
    ensures var r := PriceStage(lib, html, proveedor, d);
      && (d.precio != 0 ==> r == d)
      && r == d.(precio := r.precio)
      && (d.precio == 0 ==> r.precio == 0 || 1 <= r.precio <= 10000000)
  {
    if d.precio == 0 {
      TierPriceIsMostFrequent(lib, html, Main, PricePatterns(proveedor));
      TierPriceIsMostFrequent(lib, html, Visible, VisiblePricePatterns);
      TierPriceIsMostFrequent(lib, html, Aggressive, AggressivePricePatterns);
    }
  }

  /** The price the stage ends with depends on the other fields not at all. */
  lemma PriceStageDependsOnPriceOnly(lib: Library, html: string, proveedor: string, a: Details, b: Details)
    requires a.precio == b.precio
    ensures PriceStage(lib, html, proveedor, a).precio == PriceStage(lib, html, proveedor, b).precio
  {
  }

  /** The fallback tiers run only while the price is 0: when the main tier
      keeps nothing the visible-text tier decides, and the aggressive tier
      decides only when the visible-text tier keeps nothing either; when no
      tier keeps anything the price stays 0 (lines 397-409). */
  lemma PriceStageFallbackOrder(lib: Library, html: string, proveedor: string, d: Details)
    requires d.precio == 0
    ensures var r := PriceStage(lib, html, proveedor, d);
      var main := TierPrice(lib, html, Main, PricePatterns(proveedor));
      var visible := TierPrice(lib, html, Visible, VisiblePricePatterns);
      var aggressive := TierPrice(lib, html, Aggressive, AggressivePricePatterns);
      && (main.Some? ==> r.precio == main.value)
      && (main.None? && visible.Some? ==> r.precio == visible.value && 100 <= r.precio <= 5000000)
      && (main.None? && visible.None? && aggressive.Some? ==> r.precio == aggressive.value && 100 <= r.precio <= 1000000)
      && (main.None? && visible.None? && aggressive.None? ==> r.precio == 0)
  {
    TierPriceIsMostFrequent(lib, html, Visible, VisiblePricePatterns);
    TierPriceIsMostFrequent(lib, html, Aggressive, AggressivePricePatterns);
  }

  /** The Amazon list holds the general `"price"` pattern (line 256) a second
      time (line 283), and the main tier counts a match once per pattern, so
      every amount that pattern captures is counted twice in the vote. */
  lemma AmazonCountsPricePatternTwice(lib: Library, html: string, p: Cents)
    ensures Count(TierCandidates(lib, html, Main, PricePatterns(Amazon.Name())), p) >=
      2 * Count(CapturePrices(Main, lib.matches(html, GeneralPricePatterns[0])), p)
  {
    ProviderNameSelectsPatterns(Amazon);
    var pats := PricePatterns(Amazon.Name());
    assert pats[0] == GeneralPricePatterns[0];
    assert pats[17] == AmazonPricePatterns[6] == GeneralPricePatterns[0];
    var xss := PatternPrices(lib, html, Main, pats);
    CountFlattenTwo(xss, 0, 17, p);
  }

  // ---------------------------------------------------------------------
  // Image (ExtractImageFromHtml, lines 530-640)

  /** What happens to one captured image URL (lines 588-617). */
  datatype Resolution = Resolved(url: string) | Skipped | UriFailure

  /** The page's `<base href>`, or "" (lines 567-577). */
  function BaseUrl(lib: Library, html: string): string
  {
    match FirstMatch(lib, html, BaseHref)
    case Some(b) => b
    case None => ""
  }

  /** What happens to a trimmed and cleaned URL: kept when it starts with
      "http" (any case); prefixed with "https:" when it starts with "//";
      prefixed with the base's scheme and host when it starts with "/" and
      there is a base (`new Uri` may throw on a malformed base); skipped
      otherwise (lines 593-617). */
  function Resolve(lib: Library, baseUrl: string, u: string): Resolution
  {
    if StartsWithIgnoreCase(u, "http") then Resolved(u)
    else if StartsWith(u, "//") then Resolved("https:" + u)
    else if StartsWith(u, "/") then
      if |baseUrl| == 0 then Skipped
      else match lib.parseUri(baseUrl)
        case Some(uri) => Resolved(uri.scheme + "://" + uri.host + u)
        case None => UriFailure
    else Skipped
  }

  /** One capture: trimmed, cleaned (lines 587-590), then resolved. */
  function ResolveImageUrl(lib: Library, baseUrl: string, capture: string): Resolution
  {
    Resolve(lib, baseUrl, CleanUrl(Trim(capture)))
  }

  /** The acceptance test (lines 620-624): ".jpg", ".jpeg", ".png", ".webp" or
      "image", ignoring case. There is no ".gif". */
  predicate LooksLikeImage(u: string)
  {
    ContainsIgnoreCase(u, ".jpg") || ContainsIgnoreCase(u, ".jpeg") || ContainsIgnoreCase(u, ".png")
    || ContainsIgnoreCase(u, ".webp") || ContainsIgnoreCase(u, "image")
  }

  /** The first accepted URL among the resolutions of one pattern's captures;
      a failing `new Uri` ends the pattern (the exception is caught per
      pattern, line 633). */
  function FirstAccepted(rs: seq<Resolution>): (r: Option<string>)
    ensures r.Some? ==> LooksLikeImage(r.value)
  {
    if rs == [] then None
    else
      match rs[0]
      case Resolved(u) => if LooksLikeImage(u) then Some(u) else FirstAccepted(rs[1..])
      case Skipped => FirstAccepted(rs[1..])
      case UriFailure => None
  }

  /** What `FirstAccepted` returns is one of the resolutions. */
  lemma {:induction false} FirstAcceptedFrom(rs: seq<Resolution>)
    ensures FirstAccepted(rs).Some? ==> Resolved(FirstAccepted(rs).value) in rs
  {
    if rs != [] && !rs[0].UriFailure? && !(rs[0].Resolved? && LooksLikeImage(rs[0].url)) {
      FirstAcceptedFrom(rs[1..]);
    }
  }

  /** The resolutions of one pattern's captures, in match order. */
  function Resolutions(lib: Library, baseUrl: string, captures: seq<string>): (rs: seq<Resolution>)
    ensures |rs| == |captures|
  {
    seq(|captures|, j requires 0 <= j < |captures| => ResolveImageUrl(lib, baseUrl, captures[j]))
  }

  /** One image pattern: the first accepted resolution (lines 583-631). */
  function ImageAmong(lib: Library, baseUrl: string, captures: seq<string>): Option<string>
  {
    FirstAccepted(Resolutions(lib, baseUrl, captures))
  }

  /** The first pattern, in order, that yields an accepted URL (lines 579-637). */
  function FirstImage(lib: Library, html: string, baseUrl: string, pats: seq<Regex>): (r: Option<string>)
    ensures r.Some? ==> LooksLikeImage(r.value)
  {
    var xs := PatternImages(lib, html, baseUrl, pats);
    var i := FirstSomeIndex(xs);
    assert i < |xs| ==> xs[i] == ImageAmong(lib, baseUrl, lib.matches(html, pats[i]));
    FirstSome(xs)
  }

  /** What each image pattern yields, pattern by pattern. */
  function PatternImages(lib: Library, html: string, baseUrl: string, pats: seq<Regex>): (xs: seq<Option<string>>)
    ensures |xs| == |pats|
  {
    seq(|pats|, i requires 0 <= i < |pats| => ImageAmong(lib, baseUrl, lib.matches(html, pats[i])))
  }

  /** `u` is what one of the captures of one of the patterns resolves to. */
  ghost predicate ResolvesFromCapture(lib: Library, html: string, baseUrl: string, pats: seq<Regex>, u: string)
  {
    exists i :: 0 <= i < |pats| && Resolved(u) in Resolutions(lib, baseUrl, lib.matches(html, pats[i]))
  }

  lemma FirstImageComesFromCapture(lib: Library, html: string, baseUrl: string, pats: seq<Regex>)
    ensures var r := FirstImage(lib, html, baseUrl, pats);
      r.Some? ==> ResolvesFromCapture(lib, html, baseUrl, pats, r.value)
  {
    var xs := PatternImages(lib, html, baseUrl, pats);
    var i := FirstSomeIndex(xs);
    if i < |xs| {
      FirstAcceptedFrom(Resolutions(lib, baseUrl, lib.matches(html, pats[i])));
    }
  }

  /** The image stage: nothing when an image is set (line 532). */
  function ImageStage(lib: Library, html: string, d: Details): Details
  {
    if !IsBlank(d.urlImagen) then d
    else
      match FirstImage(lib, html, BaseUrl(lib, html), ImagePatterns)
      case Some(u) => d.(urlImagen := u)
      case None => d
  }

  /** The image stage writes only an unset image, touches no other field, and
      what it writes passes the acceptance test and is the resolution of one
      of the page's captures. */
  lemma ImageStageWritesOnlyUnsetImage(lib: Library, html: string, d: Details)
    ensures var r := ImageStage(lib, html, d);
      && r == d.(urlImagen := r.urlImagen)
      && (!IsBlank(d.urlImagen) ==> r == d)
      && (r.urlImagen != d.urlImagen ==>
            LooksLikeImage(r.urlImagen) && ResolvesFromCapture(lib, html, BaseUrl(lib, html), ImagePatterns, r.urlImagen))
  {
    FirstImageComesFromCapture(lib, html, BaseUrl(lib, html), ImagePatterns);
  }

  /** A protocol-relative URL ("//cdn.example.com/img.jpg") becomes an https
      URL whether or not the page has a base. */
  lemma ResolveProtocolRelative(lib: Library, baseUrl: string, u: string)
    requires StartsWith(u, "//")
    ensures Resolve(lib, baseUrl, u) == Resolved("https:" + u)
  {
    assert Lower(u)[0] == '/';
  }

  /** A root-relative URL ("/img/a.jpg") is skipped when the page has no base,
      and otherwise gets the base's scheme and host, unless the base does not
      parse, which ends the pattern. */
  lemma ResolveRootRelative(lib: Library, baseUrl: string, u: string)
    requires StartsWith(u, "/") && !StartsWith(u, "//")
    ensures |baseUrl| == 0 ==> Resolve(lib, baseUrl, u) == Skipped
    ensures |baseUrl| > 0 && lib.parseUri(baseUrl).None? ==> Resolve(lib, baseUrl, u) == UriFailure
    ensures |baseUrl| > 0 && lib.parseUri(baseUrl).Some? ==>
      Resolve(lib, baseUrl, u) == Resolved(lib.parseUri(baseUrl).value.scheme + "://" + lib.parseUri(baseUrl).value.host + u)
  {
    assert Lower(u)[0] == '/';
  }

  /** Any other URL that does not start with "http" is skipped. */
  lemma ResolveOtherRelative(lib: Library, baseUrl: string, u: string)
    requires !StartsWithIgnoreCase(u, "http") && !StartsWith(u, "/")
    ensures Resolve(lib, baseUrl, u) == Skipped
  {
  }

  /** If `t` occurs in `s`, every character of `t` occurs in `s`. */
  lemma {:induction false} ContainsChars(s: string, t: string, k: nat)
    requires Contains(s, t) && k < |t|
    ensures t[k] in s
  {
    if StartsWith(s, t) {
      assert s[k] == t[k];
    } else {
      ContainsChars(s[1..], t, k);
    }
  }

  /** A URL without any of the letters j, n, w and m (in either case) fails
      the acceptance test, whatever its extension. */
  lemma RejectedWithoutMarkerLetters(u: string)
    requires forall i :: 0 <= i < |u| ==> LowerChar(u[i]) !in "jnwm"
    ensures !LooksLikeImage(u)
  {
    var l := Lower(u);
    assert Lower(".jpg") == ".jpg" && Lower(".jpeg") == ".jpeg" && Lower(".png") == ".png";
    assert Lower(".webp") == ".webp" && Lower("image") == "image";
    if ContainsIgnoreCase(u, ".jpg") { ContainsChars(l, ".jpg", 1); }
    if ContainsIgnoreCase(u, ".jpeg") { ContainsChars(l, ".jpeg", 1); }
    if ContainsIgnoreCase(u, ".png") { ContainsChars(l, ".png", 2); }
    if ContainsIgnoreCase(u, ".webp") { ContainsChars(l, ".webp", 1); }
    if ContainsIgnoreCase(u, "image") { ContainsChars(l, "image", 1); }
  }

  /** The data-src and img-src patterns (lines 560-564) capture ".gif" URLs,
      but the acceptance test has no ".gif": an absolute gif URL such as this
      one is rejected. */
  lemma GifUrlRejected()
    ensures !LooksLikeImage("http://a.gif")
  {
    var u := "http://a.gif";
    assert forall i :: 0 <= i < |u| ==> LowerChar(u[i]) !in "jnwm" by {
      forall i | 0 <= i < |u| ensures LowerChar(u[i]) !in "jnwm" {
        assert u[i] in "htp:/a.gif";
      }
    }
    RejectedWithoutMarkerLetters(u);
  }

  /** Appending ".gif" to a string never creates or removes an occurrence of
      a needle whose last character is not in ".if" and, when that character
      is 'g', is not preceded by '.'. */
  lemma {:induction false} GifSuffixKeepsContains(a: string, t: string)
    requires |t| >= 2 && t[|t| - 1] !in ".if" && (t[|t| - 1] == 'g' ==> t[|t| - 2] != '.')
    ensures Contains(a + ".gif", t) <==> Contains(a, t)
  {
    var s := a + ".gif";
    if Contains(s, t) {
      var k := ContainsIndex(s, t);
      if k + |t| <= |a| {
        assert a[k..k + |t|] == s[k..k + |t|];
        ContainsAt(a, t, k);
      }
    }
    if Contains(a, t) {
      var k := ContainsIndex(a, t);
      assert s[k..k + |t|] == a[k..k + |t|];
      ContainsAt(s, t, k);
    }
  }

  /** The acceptance test on a lower-cased URL. */
  predicate HasMarker(l: string)
  {
    Contains(l, ".jpg") || Contains(l, ".jpeg") || Contains(l, ".png")
    || Contains(l, ".webp") || Contains(l, "image")
  }

  lemma LooksLikeImageHasMarker(u: string)
    ensures LooksLikeImage(u) <==> HasMarker(Lower(u))
  {
    assert Lower(".jpg") == ".jpg" && Lower(".jpeg") == ".jpeg" && Lower(".png") == ".png";
    assert Lower(".webp") == ".webp" && Lower("image") == "image";
  }

  lemma GifSuffixKeepsMarker(l: string)
    ensures HasMarker(l + ".gif") <==> HasMarker(l)
  {
    GifSuffixKeepsContains(l, ".jpg");
    GifSuffixKeepsContains(l, ".jpeg");
    GifSuffixKeepsContains(l, ".png");
    GifSuffixKeepsContains(l, ".webp");
    GifSuffixKeepsContains(l, "image");
  }

  /** The acceptance test ignores a ".gif" ending: a URL with ".gif" appended
      is accepted exactly when the URL without it is, so a gif is only ever
      accepted on the strength of one of the five markers elsewhere in it. */
  lemma GifSuffixDecidesNothing(u: string)
    ensures LooksLikeImage(u + ".gif") <==> LooksLikeImage(u)
  {
    assert Lower(u + ".gif") == Lower(u) + ".gif";
    LooksLikeImageHasMarker(u);
    LooksLikeImageHasMarker(u + ".gif");
    GifSuffixKeepsMarker(Lower(u));
  }



  // ---------------------------------------------------------------------
  // Title (ExtractTitleFromHtml, lines 642-667)

  /** The test on a decoded title (line 660): not blank and longer than 3
      UTF-16 code units, measured before trimming; the trimmed text is what
      is stored (line 662). */
  function AcceptTitle(decoded: string): (r: Option<string>)
    ensures r.Some? ==> !IsBlank(r.value)
  {
    if !IsBlank(decoded) && Utf16Length(decoded) > 3 then
      TrimProperties(decoded);
      Some(Trim(decoded))
    else None
  }

  /** What one title pattern yields: its first match, decoded, if accepted. */
  function TitleOf(lib: Library, html: string, r: Regex): Option<string>
  {
    match FirstMatch(lib, html, r)
    case Some(c) => AcceptTitle(lib.htmlDecode(c))
    case None => None
  }

  /** Only the first match of each pattern is examined; the first pattern
      whose first match is accepted wins (lines 654-665). */
  function TitleFrom(lib: Library, html: string, pats: seq<Regex>): (r: Option<string>)
    ensures r.Some? ==> !IsBlank(r.value)
  {
    var xs := PatternTitles(lib, html, pats);
    var i := FirstSomeIndex(xs);
    assert i < |xs| ==> xs[i] == TitleOf(lib, html, pats[i]);
    FirstSome(xs)
  }

  /** What each title pattern yields, pattern by pattern. */
  function PatternTitles(lib: Library, html: string, pats: seq<Regex>): (xs: seq<Option<string>>)
    ensures |xs| == |pats|
  {
    seq(|pats|, i requires 0 <= i < |pats| => TitleOf(lib, html, pats[i]))
  }

  /** A set name other than "Producto" is kept (line 644). */
  predicate HasName(d: Details)
  {
    !IsBlank(d.nombre) && d.nombre != DefaultName
  }

  function TitleStage(lib: Library, html: string, d: Details): Details
  {
    if HasName(d) then d
    else
      match TitleFrom(lib, html, TitlePatterns)
      case Some(t) => d.(nombre := t)
      case None => d
  }

  /** The length test runs before trimming: " ab " (four UTF-16 code units)
      is accepted and stored as the two characters "ab", which on their own
      would be rejected. */
  lemma TitleLengthCheckedBeforeTrim()
    ensures AcceptTitle(" ab ") == Some("ab")
    ensures AcceptTitle("ab") == None
  {
    var s := " ab ";
    assert !IsWhiteSpace(s[1]);
    Utf16LengthBmp(s);
    Utf16LengthBmp("ab");
    assert TrimStart(s) == "ab " by {
      assert s[1..] == "ab ";
    }
    assert TrimEnd("ab ") == "ab" by {
      assert "ab "[..2] == "ab";
    }
  }

  // ---------------------------------------------------------------------
  // The whole pipeline (FetchDetailsAsync, lines 27-93)

  /** The five stages, in order (lines 54-58). */
  function Stages(lib: Library, html: string, prov: Provider, d: Details): Details
  {
    TitleStage(lib, html, ImageStage(lib, html, PriceStage(lib, html, prov.Name(), OgStage(lib, html, JsonLdStage(lib, html, d)))))
  }

  /** The name given when none was found (line 77). */
  function SynthesizedName(prov: Provider): string
  {
    "Producto de " + prov.Name()
  }

  /** The final defaults (lines 74-90); the price block at lines 81-84 assigns
      0 to a price that is already 0 and so changes nothing. */
  function Finalize(prov: Provider, d: Details): Details
  {
    var d1 := if IsBlank(d.nombre) || d.nombre == DefaultName then d.(nombre := SynthesizedName(prov)) else d;
    if IsBlank(d1.urlImagen) then d1.(urlImagen := PlaceholderImage) else d1
  }

  /** The details `FetchDetailsAsync` returns for a non-blank URL of provider
      `prov` whose fetch gave `page` (None: the fetch failed). An empty page is
      treated like a failed fetch (line 49). */
  function Extract(lib: Library, prov: Provider, page: Option<string>): Details
  {
    var d0 := Initial(prov);
    var d := if page.Some? && page.value != "" then Stages(lib, page.value, prov, d0) else d0;
    Finalize(prov, d)
  }

  lemma SynthesizedNameIsAName(prov: Provider)
    ensures !IsBlank(SynthesizedName(prov)) && SynthesizedName(prov) != DefaultName
  {
    assert SynthesizedName(prov)[0] == 'P';
    assert |SynthesizedName(prov)| > |DefaultName|;
  }

  /** The title stage changes nothing but the name, and only when no name
      other than "Producto" is set. */
  lemma TitleStageWritesOnlyName(lib: Library, html: string, d: Details)
    ensures var r := TitleStage(lib, html, d);
      && r == d.(nombre := r.nombre)
      && (HasName(d) ==> r == d)
      && (!HasName(d) ==> r.nombre == (match TitleFrom(lib, html, TitlePatterns)
                                       case Some(t) => t
                                       case None => d.nombre))
  {
  }

  /** What each stage leaves of the fields set before it, chained over the
      whole pipeline. */
  lemma StagesEffect(lib: Library, html: string, prov: Provider, d: Details)
    ensures var r := Stages(lib, html, prov, d);
      && r.proveedor == d.proveedor
      && (!IsBlank(d.nombre) && d.nombre != DefaultName ==> r.nombre == d.nombre)
      && (d.nombre == DefaultName ==> r.nombre == (match TitleFrom(lib, html, TitlePatterns)
                                                   case Some(t) => t
                                                   case None => DefaultName))
      && (d.precio == 0 && lib.matches(html, JsonLdScript) == [] ==>
            r.precio == PriceStage(lib, html, prov.Name(), d).precio)
  {
    var blocks := lib.matches(html, JsonLdScript);
    var d1 := JsonLdStage(lib, html, d);
    JsonLdStageKeepsSetFields(lib, blocks, d);
    var d2 := OgStage(lib, html, d1);
    OgStageKeepsSetFields(lib, html, d1);
    var d3 := PriceStage(lib, html, prov.Name(), d2);
    PriceStageWritesOnlyUnsetPrice(lib, html, prov.Name(), d2);
    var d4 := ImageStage(lib, html, d3);
    ImageStageWritesOnlyUnsetImage(lib, html, d3);
    var d5 := TitleStage(lib, html, d4);
    TitleStageWritesOnlyName(lib, html, d4);
    assert Stages(lib, html, prov, d) == d5;
    if d.nombre == DefaultName {
      assert !IsBlank(DefaultName) by { assert !IsWhiteSpace(DefaultName[0]); }
    }
    if d.precio == 0 && blocks == [] {
      assert d1 == d;
      assert d2.precio == 0;
      PriceStageDependsOnPriceOnly(lib, html, prov.Name(), d2, d);
    }
  }

  /** The final defaults leave no blank name, no "Producto" and no blank
      image, and keep the provider. */
  lemma FinalizeFills(prov: Provider, d: Details)
    ensures var r := Finalize(prov, d);
      && !IsBlank(r.nombre) && r.nombre != DefaultName
      && !IsBlank(r.urlImagen)
      && r.proveedor == d.proveedor && r.precio == d.precio && r.descripcion == d.descripcion
  {
    SynthesizedNameIsAName(prov);
    assert !IsWhiteSpace(PlaceholderImage[|PlaceholderImage| - 1]);
  }

  /** Whatever the page, the returned name is neither blank nor "Producto",
      the image URL is not blank, and the provider is the URL's. */
  lemma ExtractFillsEveryField(lib: Library, prov: Provider, page: Option<string>)
    ensures var r := Extract(lib, prov, page);
      && !IsBlank(r.nombre) && r.nombre != DefaultName
      && !IsBlank(r.urlImagen)
      && r.proveedor == prov.Name()
  {
    var d0 := Initial(prov);
    var d := if page.Some? && page.value != "" then Stages(lib, page.value, prov, d0) else d0;
    if page.Some? && page.value != "" {
      StagesEffect(lib, page.value, prov, d0);
    }
    FinalizeFills(prov, d);
  }

  /** When the fetch fails or returns nothing, every field takes its default. */
  lemma ExtractWithoutPage(lib: Library, prov: Provider, page: Option<string>)
    requires page.None? || page.value == ""
    ensures Extract(lib, prov, page) == Details(SynthesizedName(prov), None, 0, prov.Name(), PlaceholderImage)
  {
    assert !IsBlank(DefaultName) by { assert !IsWhiteSpace(DefaultName[0]); }
  }

  /** The name comes from the title stage alone: the initial "Producto" is
      not blank, so the JSON-LD and og:title name writes (lines 141, 169)
      never fire, and the title stage (which treats "Producto" as unset) or
      the synthesized default decides. A page whose accepted title is exactly
      "Producto" also gets the default. */
  lemma ExtractNameFromTitleOnly(lib: Library, prov: Provider, html: string)
    requires html != ""
    ensures var r := Extract(lib, prov, Some(html));
      match TitleFrom(lib, html, TitlePatterns)
      case Some(t) => r.nombre == (if t == DefaultName then SynthesizedName(prov) else t)
      case None => r.nombre == SynthesizedName(prov)
  {
    StagesEffect(lib, html, prov, Initial(prov));
  }

  /** On a page without JSON-LD blocks the price is decided by the tiers
      alone: the main tier's pick, else the visible-text tier's, else the
      aggressive tier's, else 0. */
  lemma ExtractPriceWithoutJsonLd(lib: Library, prov: Provider, html: string)
    requires html != "" && lib.matches(html, JsonLdScript) == []
    ensures var r := Extract(lib, prov, Some(html));
      var main := TierPrice(lib, html, Main, PricePatterns(prov.Name()));
      var visible := TierPrice(lib, html, Visible, VisiblePricePatterns);
      var aggressive := TierPrice(lib, html, Aggressive, AggressivePricePatterns);
      r.precio == (if main.Some? then main.value
                   else if visible.Some? then visible.value
                   else if aggressive.Some? then aggressive.value
                   else 0)
  {
    var d0 := Initial(prov);
    StagesEffect(lib, html, prov, d0);
    PriceStageFallbackOrder(lib, html, prov.Name(), d0);
  }

  /** The stages store an og:image as captured when nothing set an image
      before them: JSON-LD found none, and the image stage then leaves it
      alone. */
  lemma StagesKeepOgImage(lib: Library, html: string, prov: Provider, d: Details)
    requires lib.matches(html, JsonLdScript) == [] && IsBlank(d.urlImagen)
    requires FirstMatch(lib, html, OgImage).Some? && !IsBlank(FirstMatch(lib, html, OgImage).value)
    ensures Stages(lib, html, prov, d).urlImagen == FirstMatch(lib, html, OgImage).value
  {
    var d1 := JsonLdStage(lib, html, d);
    assert d1 == d;
    OgStageFillsUnsetFields(lib, html, d1);
    var d2 := OgStage(lib, html, d1);
    var d3 := PriceStage(lib, html, prov.Name(), d2);
    PriceStageWritesOnlyUnsetPrice(lib, html, prov.Name(), d2);
    var d4 := ImageStage(lib, html, d3);
    ImageStageWritesOnlyUnsetImage(lib, html, d3);
    TitleStageWritesOnlyName(lib, html, d4);
  }

  /** An og:image is returned as captured: on a page without JSON-LD whose
      og:image tag has a non-blank value, that value is the returned image.
      The image stage, which would make a protocol-relative URL absolute,
      never sees it, so "//cdn.example.com/img.jpg" comes back without a
      scheme. */
  lemma ExtractKeepsRawOgImage(lib: Library, prov: Provider, html: string)
    requires html != "" && lib.matches(html, JsonLdScript) == []
    requires FirstMatch(lib, html, OgImage).Some? && !IsBlank(FirstMatch(lib, html, OgImage).value)
    ensures var u := FirstMatch(lib, html, OgImage).value;
      var r := Extract(lib, prov, Some(html));
      && r.urlImagen == u
      && (StartsWith(u, "//") ==> !StartsWithIgnoreCase(r.urlImagen, "http"))
  {
    var u := FirstMatch(lib, html, OgImage).value;
    var d0 := Initial(prov);
    StagesKeepOgImage(lib, html, prov, d0);
    if StartsWith(u, "//") {
      ProtocolRelativeIsNotHttp(u);
    }
  }

  lemma ProtocolRelativeIsNotHttp(u: string)
    requires StartsWith(u, "//")
    ensures !StartsWithIgnoreCase(u, "http")
  {
    assert Lower(u)[0] == '/';
  }
}
