/** The statistics half of the click tracker: `GetStatsAsync` loads the clicks
    whose timestamp lies in a closed interval and summarises them by visitor
    address, provider, traffic source, product and hour of the day. */
module ClickTrackingService {
  import opened Wrappers
  import opened Grouping

  /** `DateTime` as its tick count: 100-nanosecond intervals since midnight
      of 0001-01-01. */
  type Ticks = nat

  const TicksPerHour: nat := 36_000_000_000

  /** `DateTime.Hour`: the hour of the day. */
  function Hour(t: Ticks): (h: nat)
    ensures h < 24
  {
    (t / TicksPerHour) % 24
  }

  /** The product a click points at, with the two columns the statistics read. */
  datatype Product = Product(id: int, nombre: string, proveedor: string)

  /** One stored click; `product` is the navigation property, absent when the
      product row is gone. */
  datatype ClickTracking = ClickTracking(
    id: int,
    productId: int,
    timestamp: Ticks,
    ipAddress: Option<string>,
    userAgent: Option<string>,
    referrer: Option<string>,
    source: string,
    product: Option<Product>)

  datatype TopProduct = TopProduct(productId: int, productName: string, clicks: nat, conversionRate: int)

  /** The dictionaries of the result are sequences of (key, count) entries in
      the order `GroupBy` produces them. */
  datatype ClickStats = ClickStats(
    totalClicks: nat,
    uniqueIPs: nat,
    clicksByProvider: seq<Group<string>>,
    clicksBySource: seq<Group<string>>,
    topProducts: seq<TopProduct>,
    clicksByHour: seq<Group<string>>)

  predicate InRange(c: ClickTracking, from: Ticks, to: Ticks)
  {
    from <= c.timestamp <= to
  }

  /** `Where(c => c.Timestamp >= from && c.Timestamp <= to)`. */
  function ClicksInRange(clicks: seq<ClickTracking>, from: Ticks, to: Ticks): (r: seq<ClickTracking>)
    ensures |r| <= |clicks|
  {
    if clicks == [] then []
    else
      var kept := ClicksInRange(clicks[..|clicks| - 1], from, to);
      var c := clicks[|clicks| - 1];
      if InRange(c, from, to) then kept + [c] else kept
  }

  /** The filter keeps every click in the interval, as often as it occurs, and
      nothing else. */
  lemma {:induction false} ClicksInRangeCount(clicks: seq<ClickTracking>, from: Ticks, to: Ticks, c: ClickTracking)
    ensures Count(ClicksInRange(clicks, from, to), c) == if InRange(c, from, to) then Count(clicks, c) else 0
  {
    if clicks != [] {
      var init, last := clicks[..|clicks| - 1], clicks[|clicks| - 1];
      ClicksInRangeCount(init, from, to, c);
      assert clicks == init + [last];
      CountAppend(init, [last], c);
      if InRange(last, from, to) {
        CountAppend(ClicksInRange(init, from, to), [last], c);
      }
    }
  }

  /** `Where(c => c.Product != null)`. */
  function WithProduct(clicks: seq<ClickTracking>): (r: seq<ClickTracking>)
    ensures |r| <= |clicks|
    ensures forall c :: c in r ==> c.product.Some? && c in clicks
    ensures forall c :: c in clicks && c.product.Some? ==> c in r
  {
    if clicks == [] then []
    else
      var kept := WithProduct(clicks[..|clicks| - 1]);
      var c := clicks[|clicks| - 1];
      assert clicks == clicks[..|clicks| - 1] + [c];
      if c.product.Some? then kept + [c] else kept
  }

  function IpAddresses(clicks: seq<ClickTracking>): (ips: seq<Option<string>>)
    ensures |ips| == |clicks|
  {
    seq(|clicks|, i requires 0 <= i < |clicks| => clicks[i].ipAddress)
  }

  function Sources(clicks: seq<ClickTracking>): (sources: seq<string>)
    ensures |sources| == |clicks|
  {
    seq(|clicks|, i requires 0 <= i < |clicks| => clicks[i].source)
  }

  function Hours(clicks: seq<ClickTracking>): (hours: seq<nat>)
    ensures |hours| == |clicks|
    ensures forall h :: h in hours ==> h < 24
  {
    seq(|clicks|, i requires 0 <= i < |clicks| => Hour(clicks[i].timestamp))
  }

  function Providers(linked: seq<ClickTracking>): (providers: seq<string>)
    requires forall c :: c in linked ==> c.product.Some?
    ensures |providers| == |linked|
  {
    seq(|linked|, i requires 0 <= i < |linked| => linked[i].product.value.proveedor)
  }

  /** The anonymous key `new { c.ProductId, c.Product.Nombre }`. */
  datatype ProductKey = ProductKey(productId: int, nombre: string)

  function ProductKeys(linked: seq<ClickTracking>): (keys: seq<ProductKey>)
    requires forall c :: c in linked ==> c.product.Some?
    ensures |keys| == |linked|
  {
    seq(|linked|, i requires 0 <= i < |linked| => ProductKey(linked[i].productId, linked[i].product.value.nombre))
  }

  /** `Hour.ToString("D2")`: two decimal digits. */
  function Digit(d: nat): char
    requires d < 10
  {
    ('0' as int + d) as char
  }

  /** The dictionary key `"HH:00"` of an hour. */
  function HourLabel(h: nat): string
    requires h < 24
  {
    [Digit(h / 10), Digit(h % 10)] + ":00"
  }

  /** The hour written in the first two characters of a label. */
  function LabelHour(key: string): int
    requires |key| >= 2
  {
    (key[0] as int - '0' as int) * 10 + (key[1] as int - '0' as int)
  }

  /** A label is five characters, ends in ":00" and reads back as its hour. */
  lemma HourLabelRoundTrip(h: nat)
    requires h < 24
    ensures |HourLabel(h)| == 5 && HourLabel(h)[2..] == ":00"
    ensures '0' <= HourLabel(h)[0] <= '2' && '0' <= HourLabel(h)[1] <= '9'
    ensures LabelHour(HourLabel(h)) == h
  {
  }

  /** Different hours get different keys, so `ToDictionary` cannot meet a
      duplicate key. */
  lemma HourLabelInjective(h1: nat, h2: nat)
    requires h1 < 24 && h2 < 24
    ensures HourLabel(h1) == HourLabel(h2) <==> h1 == h2
  {
    if HourLabel(h1) == HourLabel(h2) {
      HourLabelRoundTrip(h1);
      HourLabelRoundTrip(h2);
    }
  }

  /** `ToDictionary(g => g.Key.ToString("D2") + ":00", g => g.Count())`. */
  function HourLabels(gs: seq<Group<nat>>): (labelled: seq<Group<string>>)
    requires forall i :: 0 <= i < |gs| ==> gs[i].key < 24
    ensures |labelled| == |gs|
  {
    seq(|gs|, i requires 0 <= i < |gs| => Group(HourLabel(gs[i].key), gs[i].size))
  }

  /** Relabelling keeps every count. */
  lemma {:induction false} HourLabelsTotal(gs: seq<Group<nat>>)
    requires forall i :: 0 <= i < |gs| ==> gs[i].key < 24
    ensures Total(HourLabels(gs)) == Total(gs)
  {
    if gs != [] {
      var n := |gs| - 1;
      HourLabelsTotal(gs[..n]);
      assert HourLabels(gs)[..n] == HourLabels(gs[..n]);
    }
  }

  function HourGroups(clicks: seq<ClickTracking>): (gs: seq<Group<nat>>)
    ensures forall i :: 0 <= i < |gs| ==> gs[i].key < 24
    ensures gs == GroupCounts(Hours(clicks))
  {
    var hours := Hours(clicks);
    var gs := GroupCounts(hours);
    assert forall i :: 0 <= i < |gs| ==> gs[i].key in hours;
    gs
  }

  function ToTopProducts(gs: seq<Group<ProductKey>>): (ps: seq<TopProduct>)
    ensures |ps| == |gs|
  {
    seq(|gs|, i requires 0 <= i < |gs| => TopProduct(gs[i].key.productId, gs[i].key.nombre, gs[i].size, 0))
  }

  /** Non-increasing in `Clicks`. */
  predicate SortedByClicks(ps: seq<TopProduct>)
  {
    forall i, j :: 0 <= i < j < |ps| ==> ps[i].clicks >= ps[j].clicks
  }

  /** Puts `p` after every leading entry with at least as many clicks, so
      equal entries keep their order. */
  function InsertByClicks(p: TopProduct, sorted: seq<TopProduct>): (r: seq<TopProduct>)
    requires SortedByClicks(sorted)
    ensures SortedByClicks(r)
    ensures multiset(r) == multiset(sorted) + multiset{p}
    ensures forall q :: q in r ==> q == p || q in sorted
  {
    if sorted == [] then [p]
    else if sorted[0].clicks >= p.clicks then
      var rest := InsertByClicks(p, sorted[1..]);
      assert sorted == [sorted[0]] + sorted[1..];
      HeadBoundsInsertion(p, sorted, rest);
      [sorted[0]] + rest
    else [p] + sorted
  }

  /** Whatever is inserted after the head of a sorted list has no more
      clicks than the head. */
  lemma HeadBoundsInsertion(p: TopProduct, sorted: seq<TopProduct>, rest: seq<TopProduct>)
    requires SortedByClicks(sorted) && |sorted| > 0 && sorted[0].clicks >= p.clicks
    requires forall q :: q in rest ==> q == p || q in sorted[1..]
    ensures forall k :: 0 <= k < |rest| ==> sorted[0].clicks >= rest[k].clicks
  {
    forall k | 0 <= k < |rest| ensures sorted[0].clicks >= rest[k].clicks {
      assert rest[k] in rest;
      if rest[k] != p {
        var m :| 0 <= m < |sorted[1..]| && sorted[1..][m] == rest[k];
        assert sorted[m + 1] == rest[k];
      }
    }
  }

  /** `OrderByDescending(p => p.Clicks)`, a stable sort. */
  function SortByClicks(ps: seq<TopProduct>): (r: seq<TopProduct>)
    ensures SortedByClicks(r)
    ensures multiset(r) == multiset(ps)
  {
    if ps == [] then []
    else
      assert ps == ps[..|ps| - 1] + [ps[|ps| - 1]];
      InsertByClicks(ps[|ps| - 1], SortByClicks(ps[..|ps| - 1]))
  }

  const TopCount: nat := 10

  /** `Take(10)`. */
  function Take(ps: seq<TopProduct>): (r: seq<TopProduct>)
    ensures |r| == if |ps| <= TopCount then |ps| else TopCount
    ensures r == ps[..|r|]
  {
    if |ps| <= TopCount then ps else ps[..TopCount]
  }

  /** Every product group, as a `TopProduct`, before sorting and truncation. */
  function ProductGroups(linked: seq<ClickTracking>): seq<TopProduct>
    requires forall c :: c in linked ==> c.product.Some?
  {
    ToTopProducts(GroupCounts(ProductKeys(linked)))
  }

  function TopProducts(linked: seq<ClickTracking>): seq<TopProduct>
    requires forall c :: c in linked ==> c.product.Some?
  {
    Take(SortByClicks(ProductGroups(linked)))
  }

  /** `GetStatsAsync(from, to)`, with the two bounds already defaulted by the
      caller. */
  function GetStats(clicks: seq<ClickTracking>, from: Ticks, to: Ticks): (stats: ClickStats)
    ensures stats.totalClicks <= |clicks|
    ensures stats.uniqueIPs <= stats.totalClicks
  {
    var cs := ClicksInRange(clicks, from, to);
    var linked := WithProduct(cs);
    ClickStats(
      |cs|,
      |Keys(IpAddresses(cs))|,
      GroupCounts(Providers(linked)),
      GroupCounts(Sources(cs)),
      TopProducts(linked),
      HourLabels(HourGroups(cs)))
  }

  /** `TotalClicks` counts the clicks whose timestamp lies in the interval. */
  lemma TotalClicksCountsInterval(clicks: seq<ClickTracking>, from: Ticks, to: Ticks, c: ClickTracking)
    requires c in clicks
    ensures GetStats(clicks, from, to).totalClicks == |ClicksInRange(clicks, from, to)|
    ensures c in ClicksInRange(clicks, from, to) <==> InRange(c, from, to)
  {
    ClicksInRangeCount(clicks, from, to, c);
    CountPositive(clicks, c);
    CountPositive(ClicksInRange(clicks, from, to), c);
  }

  /** `UniqueIPs` is the number of distinct addresses among the clicks in the
      interval, a missing address counting as one value of its own. */
  lemma UniqueIPsCountsDistinctAddresses(clicks: seq<ClickTracking>, from: Ticks, to: Ticks)
    ensures var cs := ClicksInRange(clicks, from, to);
      GetStats(clicks, from, to).uniqueIPs == |set c | c in cs :: c.ipAddress|
  {
    var cs := ClicksInRange(clicks, from, to);
    var ips := IpAddresses(cs);
    KeysCountDistinct(ips);
    assert (set ip | ip in ips) == (set c | c in cs :: c.ipAddress) by {
      forall ip | ip in ips ensures ip in (set c | c in cs :: c.ipAddress) {
        var i :| 0 <= i < |ips| && ips[i] == ip;
        assert cs[i] in cs;
      }
      forall c | c in cs ensures c.ipAddress in ips {
        var i :| 0 <= i < |cs| && cs[i] == c;
        assert ips[i] == c.ipAddress;
      }
    }
  }

  /** Every click in the interval has exactly one source, so the source counts
      add up to `TotalClicks`. */
  lemma ClicksBySourceSumsToTotal(clicks: seq<ClickTracking>, from: Ticks, to: Ticks)
    ensures var stats := GetStats(clicks, from, to);
      Total(stats.clicksBySource) == stats.totalClicks
  {
    GroupCountsTotal(Sources(ClicksInRange(clicks, from, to)));
  }

  /** Every click in the interval has exactly one hour, so the hour counts add
      up to `TotalClicks`. */
  lemma ClicksByHourSumsToTotal(clicks: seq<ClickTracking>, from: Ticks, to: Ticks)
    ensures var stats := GetStats(clicks, from, to);
      Total(stats.clicksByHour) == stats.totalClicks
  {
    var cs := ClicksInRange(clicks, from, to);
    GroupCountsTotal(Hours(cs));
    HourLabelsTotal(HourGroups(cs));
  }

  /** Only clicks whose product still exists are counted per provider, so the
      provider counts add up to at most `TotalClicks`. */
  lemma ClicksByProviderCountsLinkedClicks(clicks: seq<ClickTracking>, from: Ticks, to: Ticks)
    ensures var stats := GetStats(clicks, from, to);
      var linked := WithProduct(ClicksInRange(clicks, from, to));
      Total(stats.clicksByProvider) == |linked| <= stats.totalClicks
  {
    GroupCountsTotal(Providers(WithProduct(ClicksInRange(clicks, from, to))));
  }

  /** Each provider entry counts the linked clicks of that provider. */
  lemma ClicksByProviderEntries(clicks: seq<ClickTracking>, from: Ticks, to: Ticks, i: nat)
    requires i < |GetStats(clicks, from, to).clicksByProvider|
    ensures var g := GetStats(clicks, from, to).clicksByProvider[i];
      var linked := WithProduct(ClicksInRange(clicks, from, to));
      g.size == Count(Providers(linked), g.key) > 0
  {
    var providers := Providers(WithProduct(ClicksInRange(clicks, from, to)));
    CountPositive(providers, Keys(providers)[i]);
  }

  /** Each relabelled key is `"HH:00"` for the hour it replaces, and distinct
      hours keep distinct keys. */
  lemma HourLabelsKeys(gs: seq<Group<nat>>, i: nat)
    requires forall k :: 0 <= k < |gs| ==> gs[k].key < 24
    requires NoDuplicates(seq(|gs|, k requires 0 <= k < |gs| => gs[k].key))
    requires i < |gs|
    ensures var labelled := HourLabels(gs);
      labelled[i].key == HourLabel(gs[i].key) &&
      |labelled[i].key| == 5 && labelled[i].key[2..] == ":00" &&
      LabelHour(labelled[i].key) == gs[i].key && labelled[i].size == gs[i].size &&
      forall j :: 0 <= j < |labelled| && j != i ==> labelled[j].key != labelled[i].key
  {
    var labelled := HourLabels(gs);
    HourLabelRoundTrip(gs[i].key);
    forall j | 0 <= j < |labelled| && j != i
      ensures labelled[j].key != labelled[i].key
    {
      HourLabelInjective(gs[j].key, gs[i].key);
      assert seq(|gs|, k requires 0 <= k < |gs| => gs[k].key)[j] == gs[j].key;
      assert seq(|gs|, k requires 0 <= k < |gs| => gs[k].key)[i] == gs[i].key;
    }
  }

  /** Every key of `ClicksByHour` is `"HH:00"` for an hour 00 to 23, the keys
      are distinct, and each counts the clicks in the interval made in that
      hour. */
  lemma ClicksByHourKeys(clicks: seq<ClickTracking>, from: Ticks, to: Ticks, i: nat)
    requires i < |GetStats(clicks, from, to).clicksByHour|
    ensures var byHour := GetStats(clicks, from, to).clicksByHour;
      var h := LabelHour(byHour[i].key);
      0 <= h < 24 && byHour[i].key == HourLabel(h as nat) &&
      |byHour[i].key| == 5 && byHour[i].key[2..] == ":00" &&
      '0' <= byHour[i].key[0] <= '2' && '0' <= byHour[i].key[1] <= '9' &&
      byHour[i].size == Count(Hours(ClicksInRange(clicks, from, to)), h as nat) &&
      forall j :: 0 <= j < |byHour| && j != i ==> byHour[j].key != byHour[i].key
  {
    var cs := ClicksInRange(clicks, from, to);
    var gs := HourGroups(cs);
    var keys := Keys(Hours(cs));
    assert GetStats(clicks, from, to).clicksByHour == HourLabels(gs);
    assert seq(|gs|, k requires 0 <= k < |gs| => gs[k].key) == keys;
    assert gs[i].size == Count(Hours(cs), gs[i].key);
    HourLabelsKeys(gs, i);
    HourLabelRoundTrip(gs[i].key);
  }

  /** A product group records its key, the number of linked clicks with that
      key (at least one) and a zero conversion rate. */
  lemma ProductGroupEntry(linked: seq<ClickTracking>, p: TopProduct)
    requires forall c :: c in linked ==> c.product.Some?
    requires p in ProductGroups(linked)
    ensures p.conversionRate == 0
    ensures 0 < p.clicks == Count(ProductKeys(linked), ProductKey(p.productId, p.productName))
  {
    var keys := ProductKeys(linked);
    var all := ProductGroups(linked);
    var i :| 0 <= i < |all| && all[i] == p;
    CountPositive(keys, Keys(keys)[i]);
  }

  /** Sorting and truncation keep at most ten product groups, most clicked
      first. */
  lemma TopProductsOfLinked(linked: seq<ClickTracking>)
    requires forall c :: c in linked ==> c.product.Some?
    ensures var top := TopProducts(linked);
      |top| <= TopCount && SortedByClicks(top) &&
      forall p :: p in top ==> p in ProductGroups(linked)
  {
    var sorted := SortByClicks(ProductGroups(linked));
    forall p | p in Take(sorted) ensures p in ProductGroups(linked) {
      assert p in multiset(sorted);
    }
  }

  /** `TopProducts` holds at most ten entries, in non-increasing order of
      clicks, each with a zero conversion rate and the count of its product
      among the linked clicks. */
  lemma TopProductsShape(clicks: seq<ClickTracking>, from: Ticks, to: Ticks)
    ensures var top := GetStats(clicks, from, to).topProducts;
      var keys := ProductKeys(WithProduct(ClicksInRange(clicks, from, to)));
      |top| <= TopCount && SortedByClicks(top) &&
      forall p :: p in top ==>
        p.conversionRate == 0 && 0 < p.clicks == Count(keys, ProductKey(p.productId, p.productName))
  {
    var linked := WithProduct(ClicksInRange(clicks, from, to));
    assert GetStats(clicks, from, to).topProducts == TopProducts(linked);
    TopProductsOfLinked(linked);
    forall p | p in TopProducts(linked)
      ensures p.conversionRate == 0 && 0 < p.clicks == Count(ProductKeys(linked), ProductKey(p.productId, p.productName))
    {
      ProductGroupEntry(linked, p);
    }
  }

  /** The ten entries kept are the most clicked: any product group left out
      has no more clicks than any entry kept. */
  lemma TopProductsAreMostClicked(clicks: seq<ClickTracking>, from: Ticks, to: Ticks, p: TopProduct, q: TopProduct)
    requires p in ProductGroups(WithProduct(ClicksInRange(clicks, from, to)))
    requires p !in GetStats(clicks, from, to).topProducts
    requires q in GetStats(clicks, from, to).topProducts
    ensures p.clicks <= q.clicks
  {
    var sorted := SortByClicks(ProductGroups(WithProduct(ClicksInRange(clicks, from, to))));
    assert p in multiset(sorted);
    var j :| 0 <= j < |sorted| && sorted[j] == p;
    var i :| 0 <= i < TopCount && i < |sorted| && sorted[i] == q;
    assert j >= TopCount;
  }
}
