/**
 The crawled price statistics of one product page: 30-day and 90-day
 high/low/average triples, the all-time high/low pair and the crawl status.
 */
module ProductDetails {
  import opened Types

  /** The state of the last crawl of the page; the code names only the default. */
  datatype CrawlStatus = Pending | OtherCrawlStatus(name: string)

  /** Every field of a product detail at one moment. */
  datatype DetailState = DetailState(
    productUrl: string,
    highPrice30: Option<int>,
    lowPrice30: Option<int>,
    avgPrice30: Option<int>,
    highPrice90: Option<int>,
    lowPrice90: Option<int>,
    avgPrice90: Option<int>,
    allTimeHighPrice: Option<int>,
    allTimeLowPrice: Option<int>,
    lastCrawledAt: Option<DateTime>,
    crawlStatus: Option<CrawlStatus>)

  /** `updatePriceStatistics30`: the 30-day triple is replaced; nothing else changes. */
  function Statistics30Updated(s: DetailState, highPrice: Option<int>, lowPrice: Option<int>, avgPrice: Option<int>): (r: DetailState)
    ensures r.highPrice30 == highPrice && r.lowPrice30 == lowPrice && r.avgPrice30 == avgPrice
    ensures r.(highPrice30 := s.highPrice30, lowPrice30 := s.lowPrice30, avgPrice30 := s.avgPrice30) == s
  {
    s.(highPrice30 := highPrice, lowPrice30 := lowPrice, avgPrice30 := avgPrice)
  }

  /** `updatePriceStatistics90`: the 90-day triple is replaced; nothing else changes. */
  function Statistics90Updated(s: DetailState, highPrice: Option<int>, lowPrice: Option<int>, avgPrice: Option<int>): (r: DetailState)
    ensures r.highPrice90 == highPrice && r.lowPrice90 == lowPrice && r.avgPrice90 == avgPrice
    ensures r.(highPrice90 := s.highPrice90, lowPrice90 := s.lowPrice90, avgPrice90 := s.avgPrice90) == s
  {
    s.(highPrice90 := highPrice, lowPrice90 := lowPrice, avgPrice90 := avgPrice)
  }

  /** `updateAllTimePrices`: the all-time pair is replaced; nothing else changes. */
  function AllTimePricesUpdated(s: DetailState, highPrice: Option<int>, lowPrice: Option<int>): (r: DetailState)
    ensures r.allTimeHighPrice == highPrice && r.allTimeLowPrice == lowPrice
    ensures r.(allTimeHighPrice := s.allTimeHighPrice, allTimeLowPrice := s.allTimeLowPrice) == s
  {
    s.(allTimeHighPrice := highPrice, allTimeLowPrice := lowPrice)
  }

  /** `updateCrawlStatus`: the status is replaced and the crawl stamped at `now`; no statistic changes. */
  function CrawlStatusUpdated(s: DetailState, status: Option<CrawlStatus>, now: DateTime): (r: DetailState)
    ensures r.crawlStatus == status && r.lastCrawledAt == Some(now)
    ensures r.(crawlStatus := s.crawlStatus, lastCrawledAt := s.lastCrawledAt) == s
  {
    s.(crawlStatus := status, lastCrawledAt := Some(now))
  }

  /** One call of a product detail's update methods. */
  datatype DetailCommand =
    | UpdatePriceStatistics30(high30: Option<int>, low30: Option<int>, avg30: Option<int>)
    | UpdatePriceStatistics90(high90: Option<int>, low90: Option<int>, avg90: Option<int>)
    | UpdateAllTimePrices(allTimeHigh: Option<int>, allTimeLow: Option<int>)
    | UpdateCrawlStatus(status: Option<CrawlStatus>, now: DateTime)

  function Applied(s: DetailState, c: DetailCommand): DetailState {
    match c
    case UpdatePriceStatistics30(high, low, avg) => Statistics30Updated(s, high, low, avg)
    case UpdatePriceStatistics90(high, low, avg) => Statistics90Updated(s, high, low, avg)
    case UpdateAllTimePrices(high, low) => AllTimePricesUpdated(s, high, low)
    case UpdateCrawlStatus(status, now) => CrawlStatusUpdated(s, status, now)
  }

  /** The state after the calls, in order. */
  function Run(s: DetailState, cs: seq<DetailCommand>): DetailState
    decreases |cs|
  {
    if cs == [] then s else Run(Applied(s, cs[0]), cs[1..])
  }

  /** No sequence of updates changes the page URL. */
  lemma {:induction false} UrlNeverChanges(s: DetailState, cs: seq<DetailCommand>)
    ensures Run(s, cs).productUrl == s.productUrl
    decreases |cs|
  {
    if cs != [] {
      UrlNeverChanges(Applied(s, cs[0]), cs[1..]);
    }
  }

  /** Recording crawls, however many, leaves every price statistic as it was. */
  lemma {:induction false} CrawlsKeepStatistics(s: DetailState, cs: seq<DetailCommand>)
    requires forall i :: 0 <= i < |cs| ==> cs[i].UpdateCrawlStatus?
    ensures Run(s, cs).(crawlStatus := s.crawlStatus, lastCrawledAt := s.lastCrawledAt) == s
    decreases |cs|
  {
    if cs != [] {
      CrawlsKeepStatistics(Applied(s, cs[0]), cs[1..]);
    }
  }

  class ProductDetail {
    var productUrl: string
    var highPrice30: Option<int>
    var lowPrice30: Option<int>
    var avgPrice30: Option<int>
    var highPrice90: Option<int>
    var lowPrice90: Option<int>
    var avgPrice90: Option<int>
    var allTimeHighPrice: Option<int>
    var allTimeLowPrice: Option<int>
    var lastCrawledAt: Option<DateTime>
    var crawlStatus: Option<CrawlStatus>

    /** The detail's fields as one value. */
    function State(): DetailState
      reads this
    {
      DetailState(productUrl, highPrice30, lowPrice30, avgPrice30, highPrice90, lowPrice90, avgPrice90,
                  allTimeHighPrice, allTimeLowPrice, lastCrawledAt, crawlStatus)
    }

    /** The builder given only the URL: no statistics yet, never crawled, status pending. */
    constructor (productUrl: string)
      ensures crawlStatus == Some(Pending)
      ensures State() == DetailState(productUrl, None, None, None, None, None, None, None, None, None, Some(Pending))
    {
      this.productUrl := productUrl;
      highPrice30, lowPrice30, avgPrice30 := None, None, None;
      highPrice90, lowPrice90, avgPrice90 := None, None, None;
      allTimeHighPrice, allTimeLowPrice := None, None;
      lastCrawledAt := None;
      crawlStatus := Some(Pending);
    }

    method UpdatePriceStatistics30(highPrice: Option<int>, lowPrice: Option<int>, avgPrice: Option<int>)
      modifies this
      ensures State() == Statistics30Updated(old(State()), highPrice, lowPrice, avgPrice)
    {
      highPrice30 := highPrice;
      lowPrice30 := lowPrice;
      avgPrice30 := avgPrice;
    }

    method UpdatePriceStatistics90(highPrice: Option<int>, lowPrice: Option<int>, avgPrice: Option<int>)
      modifies this
      ensures State() == Statistics90Updated(old(State()), highPrice, lowPrice, avgPrice)
    {
      highPrice90 := highPrice;
      lowPrice90 := lowPrice;
      avgPrice90 := avgPrice;
    }

    method UpdateAllTimePrices(highPrice: Option<int>, lowPrice: Option<int>)
      modifies this
      ensures State() == AllTimePricesUpdated(old(State()), highPrice, lowPrice)
    {
      allTimeHighPrice := highPrice;
      allTimeLowPrice := lowPrice;
    }

    method UpdateCrawlStatus(status: Option<CrawlStatus>, now: DateTime)
      modifies this
      ensures State() == CrawlStatusUpdated(old(State()), status, now)
    {
      crawlStatus := status;
      lastCrawledAt := Some(now);
    }
  }
}
